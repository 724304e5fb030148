/** `clean_datetime` (bot_utils.py:95-108): turn a stored timestamp into
    "YYYY-MM-DD HH:MM:SS", keeping the wall-clock fields and dropping any
    time-zone offset. The two documented input shapes are
    "2025-08-31T13:39:02+05:00" and "2025-08-31 13:39:14 +0500 +05". */
module Timestamps {
  import opened Wrappers
  import opened Text
  import opened Calendar

  datatype DateTime = DateTime(year: nat, month: nat, day: nat, hour: nat, minute: nat, second: nat)

  /** The values Python's `datetime` accepts. */
  predicate ValidDateTime(dt: DateTime)
  {
    ValidDate(dt.year, dt.month, dt.day) && dt.hour < 24 && dt.minute < 60 && dt.second < 60
  }

  /** "YYYY-MM-DD" at fixed width. */
  function DateText(year: nat, month: nat, day: nat): string
    requires year < 10000 && month < 100 && day < 100
  {
    Pad(year, 4) + "-" + Pad(month, 2) + "-" + Pad(day, 2)
  }

  /** "HH:MM:SS" at fixed width. */
  function TimeText(hour: nat, minute: nat, second: nat): string
    requires hour < 100 && minute < 100 && second < 100
  {
    Pad(hour, 2) + ":" + Pad(minute, 2) + ":" + Pad(second, 2)
  }

  /** The fields of `dt` at fixed width, with `sep` between date and time. */
  function Render(dt: DateTime, sep: char): string
    requires ValidDateTime(dt)
  {
    DateText(dt.year, dt.month, dt.day) + [sep] + TimeText(dt.hour, dt.minute, dt.second)
  }

  /** `dt.strftime("%Y-%m-%d %H:%M:%S")`. */
  function Format(dt: DateTime): string
    requires ValidDateTime(dt)
  {
    Render(dt, ' ')
  }

  /** Reads "NNNN-NN-NN" or "NN:NN:NN" style text: three digit groups of widths
      `w`, 2 and 2 joined by `sep`. */
  function ReadTriple(s: string, w: nat, sep: char): Option<(nat, nat, nat)>
    requires |s| == w + 6
  {
    if s[w] == sep && s[w + 3] == sep &&
       AllDigits(s[..w]) && AllDigits(s[w + 1..w + 3]) && AllDigits(s[w + 4..])
    then Some((DigitsValue(s[..w]), DigitsValue(s[w + 1..w + 3]), DigitsValue(s[w + 4..])))
    else None
  }

  /** Reads "YYYY-MM-DD?HH:MM:SS" from the first 19 characters; the character
      at index 10 is not looked at. */
  function Fields(s: string): Option<DateTime>
    requires |s| >= 19
  {
    match (ReadTriple(s[..10], 4, '-'), ReadTriple(s[11..19], 2, ':'))
    case (Some(d), Some(t)) =>
      var dt := DateTime(d.0, d.1, d.2, t.0, t.1, t.2);
      if ValidDateTime(dt) then Some(dt) else None
    case _ => None
  }

  /** A "+HH:MM" or "-HH:MM" offset of less than a day. The fields are not
      range-checked one by one: `timezone` only demands that the whole offset
      stays under 24 hours, so "+05:60" is six hours. */
  predicate IsOffset(s: string)
  {
    |s| == 6 && (s[0] == '+' || s[0] == '-') && s[3] == ':' &&
    AllDigits(s[1..3]) && AllDigits(s[4..6]) && DigitsValue(s[1..3]) * 60 + DigitsValue(s[4..6]) < 1440
  }

  /** `datetime.fromisoformat` on the shapes this model covers: date and
      time with any separator character, optionally followed by an offset. */
  function FromIsoFormat(s: string): Option<DateTime>
  {
    if |s| == 19 || (|s| == 25 && IsOffset(s[19..])) then Fields(s) else None
  }

  /** `datetime.strptime(s, "%Y-%m-%d %H:%M:%S")` on fixed-width fields. */
  function StrpTime(s: string): Option<DateTime>
  {
    if |s| == 19 && s[10] == ' ' then Fields(s) else None
  }

  /** `s.split("+")[0]`: everything before the first '+'. */
  function BeforePlus(s: string): string
  {
    if s == [] || s[0] == '+' then [] else [s[0]] + BeforePlus(s[1..])
  }

  /** Python's `str.isspace` for one character. */
  predicate IsSpace(c: char)
  {
    c == ' ' || '\t' <= c <= '\r' || '\U{1c}' <= c <= '\U{1f}' || c == '\U{85}' || c == '\U{a0}' ||
    c == '\U{1680}' || '\U{2000}' <= c <= '\U{200a}' || c == '\U{2028}' || c == '\U{2029}' ||
    c == '\U{202f}' || c == '\U{205f}' || c == '\U{3000}'
  }

  function TrimStart(s: string): string
  {
    if s != [] && IsSpace(s[0]) then TrimStart(s[1..]) else s
  }

  function TrimEnd(s: string): string
  {
    if s != [] && IsSpace(s[|s| - 1]) then TrimEnd(s[..|s| - 1]) else s
  }

  /** `s.strip()`. */
  function Strip(s: string): string
  {
    TrimEnd(TrimStart(s))
  }

  /** The normalised timestamp, or the ValueError that strptime raises,
      carrying the text it could not parse. */
  function CleanDatetime(s: string): Result<string, string>
  {
    match FromIsoFormat(s)
    case Some(dt) => Ok(Format(dt))
    case None =>
      var cleaned := Strip(BeforePlus(s));
      match StrpTime(cleaned)
      case Some(dt) => Ok(Format(dt))
      case None => Err(cleaned)
  }

  // ---- Rendering and reading back ----------------------------------------

  /** Where the three fields and the two separators of a joined triple sit. */
  lemma SplitTriple(x: string, y: string, z: string, sep: char)
    requires |y| == 2 && |z| == 2
    ensures var s := x + [sep] + y + [sep] + z; var w := |x|;
      && |s| == w + 6 && s[w] == sep && s[w + 3] == sep
      && s[..w] == x && s[w + 1..w + 3] == y && s[w + 4..] == z
  {
    var w := |x|;
    var front := x + [sep] + y + [sep];
    var s := front + z;
    assert s[w + 4..] == z;
    assert s[..w] == x by {
      assert s[..w] == front[..w];
    }
    assert s[w + 1..w + 3] == y by {
      assert s[w + 1] == y[0] && s[w + 2] == y[1];
    }
  }

  lemma ReadTripleOf(a: nat, b: nat, c: nat, w: nat, sep: char)
    requires a < Pow10(w) && b < 100 && c < 100
    ensures ReadTriple(Pad(a, w) + [sep] + Pad(b, 2) + [sep] + Pad(c, 2), w, sep) == Some((a, b, c))
  {
    PadDigits(a, w);
    PadDigits(b, 2);
    PadDigits(c, 2);
    SplitTriple(Pad(a, w), Pad(b, 2), Pad(c, 2), sep);
  }

  lemma ReadTripleInverse(s: string, w: nat, sep: char)
    requires |s| == w + 6 && ReadTriple(s, w, sep).Some?
    ensures var t := ReadTriple(s, w, sep).value;
      t.0 < Pow10(w) && t.1 < 100 && t.2 < 100 &&
      s == Pad(t.0, w) + [sep] + Pad(t.1, 2) + [sep] + Pad(t.2, 2)
  {
    DigitsPad(s[..w]);
    DigitsPad(s[w + 1..w + 3]);
    DigitsPad(s[w + 4..]);
    assert s == s[..w] + [sep] + s[w + 1..w + 3] + [sep] + s[w + 4..];
  }

  lemma FieldsOfRender(dt: DateTime, sep: char, tail: string)
    requires ValidDateTime(dt)
    ensures |Render(dt, sep)| == 19
    ensures Render(dt, sep)[10] == sep
    ensures Fields(Render(dt, sep) + tail) == Some(dt)
  {
    var d := DateText(dt.year, dt.month, dt.day);
    var t := TimeText(dt.hour, dt.minute, dt.second);
    ReadTripleOf(dt.year, dt.month, dt.day, 4, '-');
    ReadTripleOf(dt.hour, dt.minute, dt.second, 2, ':');
    PadDigits(dt.year, 4);
    PadDigits(dt.month, 2);
    PadDigits(dt.day, 2);
    PadDigits(dt.hour, 2);
    PadDigits(dt.minute, 2);
    PadDigits(dt.second, 2);
    assert |d| == 10 && |t| == 8;
    var s := Render(dt, sep) + tail;
    assert s == d + [sep] + t + tail;
    assert s[..10] == d;
    assert s[11..19] == t;
  }

  /** Reading is the inverse of formatting: a string strptime accepts is the
      formatting of what it read. */
  lemma StrpTimeInverse(t: string)
    requires StrpTime(t).Some?
    ensures ValidDateTime(StrpTime(t).value) && t == Format(StrpTime(t).value)
  {
    var dt := StrpTime(t).value;
    ReadTripleInverse(t[..10], 4, '-');
    ReadTripleInverse(t[11..19], 2, ':');
    assert t == t[..10] + [' '] + t[11..19];
  }

  lemma BeforePlusOf(a: string, b: string)
    requires '+' !in a
    ensures BeforePlus(a + "+" + b) == a
  {
    if a != [] {
      assert (a + "+" + b)[1..] == a[1..] + "+" + b;
      BeforePlusOf(a[1..], b);
    }
  }

  lemma {:induction false} TrimEndSpaces(a: string, gap: string)
    requires a != [] && !IsSpace(a[|a| - 1])
    requires forall i :: 0 <= i < |gap| ==> IsSpace(gap[i])
    ensures TrimEnd(a + gap) == a
  {
    if gap == [] {
      assert a + gap == a;
    } else {
      var g := gap[..|gap| - 1];
      assert (a + gap)[..|a + gap| - 1] == a + g;
      TrimEndSpaces(a, g);
    }
  }

  // ---- Properties of clean_datetime ---------------------------------------

  /** The ISO shape "YYYY-MM-DDTHH:MM:SS+HH:MM" keeps its date and wall-clock
      fields and loses its offset. */
  lemma CleanIsoWithOffset(dt: DateTime, offset: string)
    requires ValidDateTime(dt) && IsOffset(offset)
    ensures CleanDatetime(Render(dt, 'T') + offset) == Ok(Format(dt))
  {
    FieldsOfRender(dt, 'T', offset);
    assert (Render(dt, 'T') + offset)[19..] == offset;
  }

  /** A formatted timestamp holds only digits and the separators '-', ' '
      and ':', and it starts and ends with a digit. */
  lemma FormatChars(dt: DateTime)
    requires ValidDateTime(dt)
    ensures |Format(dt)| == 19 && IsDigit(Format(dt)[0]) && IsDigit(Format(dt)[18])
    ensures forall i :: 0 <= i < 19 ==> IsDigit(Format(dt)[i]) || Format(dt)[i] in "- :"
  {
    var d := DateText(dt.year, dt.month, dt.day);
    var t := TimeText(dt.hour, dt.minute, dt.second);
    assert forall i :: 0 <= i < 10 ==> IsDigit(d[i]) || d[i] == '-';
    assert forall i :: 0 <= i < 8 ==> IsDigit(t[i]) || t[i] == ':';
    assert Format(dt) == d + [' '] + t;
  }

  /** The shape "YYYY-MM-DD HH:MM:SS +0500 +05", and more generally a
      formatted timestamp, some whitespace, a '+' and anything at all,
      normalises to the timestamp. */
  lemma CleanSpaceThenPlus(dt: DateTime, gap: string, tail: string)
    requires ValidDateTime(dt)
    requires |gap| >= 1 && forall i :: 0 <= i < |gap| ==> IsSpace(gap[i])
    ensures CleanDatetime(Format(dt) + gap + "+" + tail) == Ok(Format(dt))
  {
    var f := Format(dt);
    var s := f + gap + "+" + tail;
    FormatChars(dt);
    NoOffsetAfterSpace(s);
    assert Strip(BeforePlus(s)) == f by {
      assert '+' !in f + gap by {
        forall i | 0 <= i < |f + gap| ensures (f + gap)[i] != '+' {
          if i >= 19 { assert (f + gap)[i] == gap[i - 19]; }
        }
      }
      assert s == (f + gap) + "+" + tail;
      BeforePlusOf(f + gap, tail);
      assert TrimStart(f + gap) == f + gap;
      TrimEndSpaces(f, gap);
    }
    FieldsOfRender(dt, ' ', []);
    assert f + [] == f;
  }

  /** A timestamp followed by whitespace is not one the ISO reading accepts. */
  lemma NoOffsetAfterSpace(s: string)
    requires |s| > 19 && IsSpace(s[19])
    ensures FromIsoFormat(s) == None
  {
    if |s| == 25 {
      assert s[19..][0] == s[19];
    }
  }

  /** An already-canonical timestamp is left as it is. */
  lemma CleanCanonical(dt: DateTime)
    requires ValidDateTime(dt)
    ensures CleanDatetime(Format(dt)) == Ok(Format(dt))
  {
    FieldsOfRender(dt, ' ', []);
    assert Format(dt) + [] == Format(dt);
  }

  /** Normalising is idempotent, and every result is a canonical timestamp
      of 19 characters. */
  lemma CleanIdempotent(s: string)
    ensures CleanDatetime(s).Ok? ==>
      |CleanDatetime(s).value| == 19 && CleanDatetime(CleanDatetime(s).value) == CleanDatetime(s)
  {
    if CleanDatetime(s).Ok? {
      var dt := if FromIsoFormat(s).Some? then FromIsoFormat(s).value else StrpTime(Strip(BeforePlus(s))).value;
      assert CleanDatetime(s).value == Format(dt);
      CleanCanonical(dt);
      FieldsOfRender(dt, ' ', []);
    }
  }

  /** When the ISO reading fails, only the trimmed text before the first '+'
      is parsed; the result is that very text when it is canonical, and an
      error carrying it otherwise. */
  lemma CleanFallback(s: string)
    requires FromIsoFormat(s).None?
    ensures CleanDatetime(s).Ok? <==> StrpTime(Strip(BeforePlus(s))).Some?
    ensures CleanDatetime(s).Ok? ==> CleanDatetime(s).value == Strip(BeforePlus(s))
    ensures CleanDatetime(s).Err? ==> CleanDatetime(s).error == Strip(BeforePlus(s))
  {
    if StrpTime(Strip(BeforePlus(s))).Some? {
      StrpTimeInverse(Strip(BeforePlus(s)));
    }
  }

  lemma PadExamples()
    ensures Pad(2025, 4) == "2025" && Pad(8, 2) == "08" && Pad(31, 2) == "31"
    ensures Pad(13, 2) == "13" && Pad(39, 2) == "39" && Pad(2, 2) == "02" && Pad(14, 2) == "14"
  {
    assert Pad(2, 1) == "2" && Pad(0, 0) == [];
    assert Pad(20, 2) == "20";
    assert Pad(202, 3) == "202";
  }

  lemma DateExample()
    ensures DateText(2025, 8, 31) == "2025-08-31"
  {
    PadExamples();
  }

  lemma TimeExamples()
    ensures TimeText(13, 39, 2) == "13:39:02" && TimeText(13, 39, 14) == "13:39:14"
  {
    PadExamples();
  }

  /** The timestamp of the first example in the docstring at
      bot_utils.py:97-100, in both renderings. */
  lemma IsoExampleText(d1: DateTime)
    requires d1 == DateTime(2025, 8, 31, 13, 39, 2)
    ensures ValidDateTime(d1)
    ensures Render(d1, 'T') == "2025-08-31T13:39:02" && Format(d1) == "2025-08-31 13:39:02"
  {
    DateExample();
    TimeExamples();
  }

  /** The timestamp of the second example, formatted. */
  lemma SpaceExampleText(d2: DateTime)
    requires d2 == DateTime(2025, 8, 31, 13, 39, 14)
    ensures ValidDateTime(d2) && Format(d2) == "2025-08-31 13:39:14"
  {
    DateExample();
    TimeExamples();
  }

  lemma OffsetExample()
    ensures IsOffset("+05:00")
  {
    assert "+05:00"[1..3] == "05" && "+05:00"[4..6] == "00";
    assert DigitsValue("05") == 5 && DigitsValue("00") == 0;
  }

  /** An offset is accepted by its total, not by its fields: minutes past 59
      are taken, a day or more is not. */
  lemma OffsetBounds()
    ensures IsOffset("+05:60") && IsOffset("-23:59")
    ensures !IsOffset("+24:00") && !IsOffset("+23:60")
  {
    assert "+05:60"[1..3] == "05" && "+05:60"[4..6] == "60";
    assert "-23:59"[1..3] == "23" && "-23:59"[4..6] == "59";
    assert "+24:00"[1..3] == "24" && "+24:00"[4..6] == "00";
    assert "+23:60"[1..3] == "23" && "+23:60"[4..6] == "60";
    assert DigitsValue("05") == 5 && DigitsValue("60") == 60 && DigitsValue("23") == 23;
    assert DigitsValue("59") == 59 && DigitsValue("24") == 24 && DigitsValue("00") == 0;
  }

  /** A stamp whose offset has 60 minutes is still an ISO stamp. */
  lemma CleanUnreducedOffsetExample(s: string)
    requires s == "2025-08-31T13:39:02+05:60"
    ensures CleanDatetime(s) == Ok("2025-08-31 13:39:02")
  {
    var d1 := DateTime(2025, 8, 31, 13, 39, 2);
    IsoExampleText(d1);
    assert s == Render(d1, 'T') + "+05:60";
    OffsetBounds();
    CleanIsoWithOffset(d1, "+05:60");
  }

  /** The first docstring example: an ISO timestamp with an offset. */
  lemma CleanIsoExample(s: string)
    requires s == "2025-08-31T13:39:02+05:00"
    ensures CleanDatetime(s) == Ok("2025-08-31 13:39:02")
  {
    var d1 := DateTime(2025, 8, 31, 13, 39, 2);
    IsoExampleShape(d1, s);
    OffsetExample();
    CleanIsoWithOffset(d1, "+05:00");
  }

  lemma IsoExampleShape(d1: DateTime, s: string)
    requires d1 == DateTime(2025, 8, 31, 13, 39, 2)
    requires s == "2025-08-31T13:39:02+05:00"
    ensures ValidDateTime(d1) && Format(d1) == "2025-08-31 13:39:02"
    ensures s == Render(d1, 'T') + "+05:00"
  {
    IsoExampleText(d1);
    assert s == "2025-08-31T13:39:02" + "+05:00";
  }

  /** The second docstring example: a space-separated timestamp with two
      offset annotations. */
  lemma CleanSpaceOffsetExample(s: string)
    requires s == "2025-08-31 13:39:14 +0500 +05"
    ensures CleanDatetime(s) == Ok("2025-08-31 13:39:14")
  {
    var d2 := DateTime(2025, 8, 31, 13, 39, 14);
    SpaceExampleText(d2);
    SpaceExampleParts(s);
    SplitAround(s, 19, 20);
    CleanSpaceThenPlus(d2, s[19..20], s[21..]);
  }

  lemma SpaceExampleParts(s: string)
    requires s == "2025-08-31 13:39:14 +0500 +05"
    ensures |s| == 29 && s[..19] == "2025-08-31 13:39:14" && s[19..20] == " " && s[20] == '+'
  {
  }

  /** `s` cut before position `i` and around position `k`. */
  lemma SplitAround(s: string, i: nat, k: nat)
    requires i <= k < |s|
    ensures s == s[..i] + s[i..k] + [s[k]] + s[k + 1..]
  {
  }

  lemma BeforePlusNone(s: string)
    requires '+' !in s
    ensures BeforePlus(s) == s
  {
    if s != [] {
      assert s[0] in s;
      BeforePlusNone(s[1..]);
    }
  }

  /** A day-first date matches neither shape, so normalising it fails. */
  lemma CleanRejectsDayFirst(s: string)
    requires s == "31-08-2025 13:39:14"
    ensures CleanDatetime(s) == Err(s)
  {
    assert forall i :: 0 <= i < |s| ==> s[i] != '+';
    BeforePlusNone(s);
    assert s[..10][4] != '-';
  }
}
