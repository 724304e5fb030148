/** Decimal digits, zero padding and small integer helpers shared by the
    timestamp, report and command models. */
module Text {

  function Max(a: int, b: int): int { if a >= b then a else b }

  function Min(a: int, b: int): int { if a <= b then a else b }

  predicate IsDigit(c: char) { '0' <= c <= '9' }

  predicate AllDigits(s: string) { forall i :: 0 <= i < |s| ==> IsDigit(s[i]) }

  function DigitValue(c: char): nat
    requires IsDigit(c)
  {
    c as int - '0' as int
  }

  function DigitChar(d: nat): (c: char)
    requires d < 10
    ensures IsDigit(c) && DigitValue(c) == d
  {
    (d + '0' as int) as char
  }

  function Pow10(w: nat): (p: nat)
    ensures p >= 1
  {
    if w == 0 then 1 else 10 * Pow10(w - 1)
  }

  /** The value of a string of decimal digits, most significant first. */
  function DigitsValue(s: string): nat
    requires AllDigits(s)
  {
    if s == [] then 0 else DigitsValue(s[..|s| - 1]) * 10 + DigitValue(s[|s| - 1])
  }

  /** `n` written with exactly `w` digits, zero-padded on the left. This is
      what strftime's %m, %d, %H, %M and %S write, and what %Y writes for
      years from 1000 on; for earlier years %Y's padding varies between
      platforms. */
  function Pad(n: nat, w: nat): (r: string)
    requires n < Pow10(w)
    ensures |r| == w && AllDigits(r)
  {
    if w == 0 then [] else Pad(n / 10, w - 1) + [DigitChar(n % 10)]
  }

  /** `n` in decimal without leading zeros, as Python's str(n). */
  function Decimal(n: nat): string
  {
    if n < 10 then [DigitChar(n)] else Decimal(n / 10) + [DigitChar(n % 10)]
  }

  lemma {:induction false} PadDigits(n: nat, w: nat)
    requires n < Pow10(w)
    ensures |Pad(n, w)| == w && AllDigits(Pad(n, w)) && DigitsValue(Pad(n, w)) == n
  {
    if w > 0 {
      PadDigits(n / 10, w - 1);
      var s := Pad(n, w);
      assert s[..|s| - 1] == Pad(n / 10, w - 1);
    }
  }

  /** Padding is the inverse of reading digits: a `w`-digit string is the
      padding of its own value. */
  lemma {:induction false} DigitsPad(s: string)
    requires AllDigits(s)
    ensures DigitsValue(s) < Pow10(|s|) && Pad(DigitsValue(s), |s|) == s
  {
    if s != [] {
      var p := s[..|s| - 1];
      DigitsPad(p);
      var n := DigitsValue(s);
      assert n / 10 == DigitsValue(p) && n % 10 == DigitValue(s[|s| - 1]);
      assert DigitChar(n % 10) == s[|s| - 1];
      assert s == p + [s[|s| - 1]];
    }
  }

  lemma {:induction false} DecimalDigits(n: nat)
    ensures |Decimal(n)| >= 1 && AllDigits(Decimal(n)) && DigitsValue(Decimal(n)) == n
    ensures n >= 10 ==> Decimal(n)[0] != '0'
  {
    if n >= 10 {
      DecimalDigits(n / 10);
      var s := Decimal(n);
      assert s[..|s| - 1] == Decimal(n / 10);
      assert s[0] == Decimal(n / 10)[0];
    }
  }
}
