/** The spreadsheet export of `export_conversations_to_excel`, as functions
    on sheets: the texts it writes, each step of the layout, the sizing of
    columns and rows, and the finished sheet. */
module Report {
  import opened Text
  import opened Records
  import opened Sheets
  import opened Wrappers

  /** Language codes shown by name in the "Язык" column. */
  const LangMap: map<string, string> := map["ru" := "Русский", "kk" := "Казахский"]

  /** `LANG_MAP.get(code, code)`: a known code's name, any other code as is. */
  function LangLabel(code: string): (name: string)
    ensures code == "ru" ==> name == "Русский"
    ensures code == "kk" ==> name == "Казахский"
    ensures code != "ru" && code != "kk" ==> name == code
  {
    if code in LangMap then LangMap[code] else code
  }

  const Headers: seq<string> := ["Язык", "Кто", "Сообщение", "Дата и время"]

  function PeriodTitle(period: string): string { "Отзывы за период " + period }

  function ChatTitle(index: nat): string { "Чат №" + Decimal(index) }

  function ClientTitle(phone: string): string { "Клиент: " + phone }

  /** The "Кто" column: who sent the message, seen from its conversation. */
  function Speaker(m: Message, clientPhone: string): (who: string)
    ensures who == "Клиент" <==> m.fromPhone == clientPhone
    ensures who == "Клиент" || who == "Бот"
  {
    if m.fromPhone == clientPhone then "Клиент" else "Бот"
  }

  /** A time-stamp normaliser: the exporter uses `Timestamps.CleanDatetime`;
      the layout below is stated for any normaliser `clean`. */
  type Normaliser = string -> Result<string, string>

  /** The first `j` messages carry a time stamp `clean` accepts. */
  predicate StampsClean(msgs: seq<Message>, j: nat, clean: Normaliser)
    requires j <= |msgs|
  {
    forall i :: 0 <= i < j ==> clean(msgs[i].dateTime).Ok?
  }

  /** A conversation the exporter lays out without raising. */
  predicate BlockReady(conv: Conversation, clean: Normaliser)
  {
    conv.messages != [] && StampsClean(conv.messages, |conv.messages|, clean)
  }

  predicate ReadyUpTo(convs: seq<Conversation>, k: nat, clean: Normaliser)
    requires k <= |convs|
  {
    forall i :: 0 <= i < k ==> BlockReady(convs[i], clean)
  }

  lemma StampsCleanStep(msgs: seq<Message>, j: nat, clean: Normaliser)
    requires j < |msgs| && StampsClean(msgs, j, clean) && clean(msgs[j].dateTime).Ok?
    ensures StampsClean(msgs, j + 1, clean)
  {
  }

  /** Once one stamp is rejected, so is every longer prefix. */
  lemma StampsUnclean(msgs: seq<Message>, j: nat, clean: Normaliser)
    requires j < |msgs| && !StampsClean(msgs, j + 1, clean)
    ensures !StampsClean(msgs, |msgs|, clean)
  {
    var i :| 0 <= i < j + 1 && !clean(msgs[i].dateTime).Ok?;
  }

  lemma ReadyStep(convs: seq<Conversation>, k: nat, clean: Normaliser)
    requires k < |convs| && ReadyUpTo(convs, k, clean) && BlockReady(convs[k], clean)
    ensures ReadyUpTo(convs, k + 1, clean)
  {
  }

  /** The four cells of one message row. */
  function MessageRow(m: Message, clientPhone: string, lang: string, stamp: string): (row: seq<string>)
    ensures |row| == |Headers|
  {
    [lang, Speaker(m, clientPhone), m.text, stamp]
  }

  /** The time stamps of `msgs` as `clean` normalises them. */
  function CleanStamps(msgs: seq<Message>, clean: Normaliser): (stamps: seq<string>)
    requires StampsClean(msgs, |msgs|, clean)
    ensures |stamps| == |msgs|
    ensures forall i :: 0 <= i < |msgs| ==> clean(msgs[i].dateTime) == Ok(stamps[i])
  {
    if msgs == [] then []
    else
      var n := |msgs| - 1;
      assert StampsClean(msgs[..n], n, clean) by {
        forall i | 0 <= i < n ensures clean(msgs[..n][i].dateTime).Ok? {
          assert msgs[..n][i] == msgs[i];
        }
      }
      CleanStamps(msgs[..n], clean) + [clean(msgs[n].dateTime).value]
  }

  /** `stamps` holds one time stamp per message of each of the first
      `|stamps|` conversations, none of which is empty. */
  predicate Stamped(convs: seq<Conversation>, stamps: seq<seq<string>>)
  {
    |stamps| <= |convs| &&
    forall i :: 0 <= i < |stamps| ==> convs[i].messages != [] && |stamps[i]| == |convs[i].messages|
  }

  /** The normalised time stamps of every conversation. */
  function AllStamps(convs: seq<Conversation>, clean: Normaliser): (stamps: seq<seq<string>>)
    requires ReadyUpTo(convs, |convs|, clean)
    ensures |stamps| == |convs| && Stamped(convs, stamps)
    ensures forall i :: 0 <= i < |convs| ==> stamps[i] == CleanStamps(convs[i].messages, clean)
  {
    if convs == [] then []
    else
      var n := |convs| - 1;
      assert ReadyUpTo(convs[..n], n, clean) by {
        forall i | 0 <= i < n ensures BlockReady(convs[..n][i], clean) {
          assert convs[..n][i] == convs[i];
        }
      }
      AllStamps(convs[..n], clean) + [CleanStamps(convs[n].messages, clean)]
  }

  lemma CleanStampsStep(convs: seq<Conversation>, clean: Normaliser, stamps: seq<seq<string>>)
    requires |stamps| < |convs| && BlockReady(convs[|stamps|], clean)
    requires forall i :: 0 <= i < |stamps| ==> StampsClean(convs[i].messages, |convs[i].messages|, clean) && stamps[i] == CleanStamps(convs[i].messages, clean)
    ensures var more := stamps + [CleanStamps(convs[|stamps|].messages, clean)];
      forall i :: 0 <= i < |more| ==> StampsClean(convs[i].messages, |convs[i].messages|, clean) && more[i] == CleanStamps(convs[i].messages, clean)
  {
  }

  /** Stamps that agree with `clean` on every conversation are `AllStamps`. */
  lemma AllStampsUnique(convs: seq<Conversation>, clean: Normaliser, stamps: seq<seq<string>>)
    requires ReadyUpTo(convs, |convs|, clean) && |stamps| == |convs|
    requires forall i :: 0 <= i < |convs| ==> stamps[i] == CleanStamps(convs[i].messages, clean)
    ensures stamps == AllStamps(convs, clean)
  {
  }

  /** The sheet with the period title, before any conversation. */
  function StartSheet(period: string): Sheet
  {
    Embolden(WriteCell(Blank, 1, 1, PeriodTitle(period)), 1, 1)
  }

  /** The rows of the first `|stamps|` messages appended, each wrapped;
      message `i` shows the time stamp `stamps[i]`. */
  function WriteMessages(s: Sheet, conv: Conversation, lang: string, stamps: seq<string>): Sheet
    requires |stamps| <= |conv.messages|
  {
    if stamps == [] then s
    else
      var j := |stamps| - 1;
      var p := AppendRow(WriteMessages(s, conv, lang, stamps[..j]), MessageRow(conv.messages[j], conv.clientPhone, lang, stamps[j]));
      WrapRow(p, p.maxRow, |Headers|)
  }

  /** The head of a conversation block: the title row three rows below the
      last occupied row, a blank row, and the bold header row. */
  function BlockHead(s: Sheet, conv: Conversation, index: nat): Sheet
  {
    var headed := AppendRow(AppendRow(TitleRow(s, conv, index), []), Headers);
    EmboldenRow(headed, headed.maxRow, headed.maxCol)
  }

  /** The bold chat number and client phone, three rows below the last
      occupied row. */
  function TitleRow(s: Sheet, conv: Conversation, index: nat): Sheet
  {
    var t := s.maxRow + 3;
    var first := Embolden(WriteCell(s, t, 1, ChatTitle(index)), t, 1);
    Embolden(WriteCell(first, t, 2, ClientTitle(conv.clientPhone)), t, 2)
  }

  /** The language shown for a conversation: that of its last message. */
  function BlockLanguage(conv: Conversation): string
    requires conv.messages != []
  {
    LangLabel(conv.messages[|conv.messages| - 1].language)
  }

  /** One conversation block: its head, its message rows, and two appended
      empty rows. */
  function WriteBlock(s: Sheet, conv: Conversation, index: nat, stamps: seq<string>): Sheet
    requires conv.messages != [] && |stamps| == |conv.messages|
  {
    var filled := WriteMessages(BlockHead(s, conv, index), conv, BlockLanguage(conv), stamps);
    AppendRow(AppendRow(filled, []), [])
  }

  /** The wrapped rows of the messages of `conv` in the "Язык" `lang`,
      message `i` showing the time stamp `stamps[i]`. */
  function MessageTable(conv: Conversation, lang: string, stamps: seq<string>): (table: seq<seq<Cell>>)
    requires |stamps| <= |conv.messages|
    ensures |table| == |stamps|
    ensures forall i :: 0 <= i < |stamps| ==> table[i] == Styled(MessageRow(conv.messages[i], conv.clientPhone, lang, stamps[i]), false, true)
  {
    if stamps == [] then []
    else
      var j := |stamps| - 1;
      MessageTable(conv, lang, stamps[..j]) + [Styled(MessageRow(conv.messages[j], conv.clientPhone, lang, stamps[j]), false, true)]
  }

  /** The cells of a block whose title row is `t`: the bold chat number
      and client phone in row `t`, the bold headers in row `t + 2` and the
      wrapped message rows below them. */
  function BlockCells(cells: map<(int, int), Cell>, t: int, conv: Conversation, index: nat, stamps: seq<string>): map<(int, int), Cell>
    requires conv.messages != [] && |stamps| == |conv.messages|
  {
    var titled := cells[(t, 1) := CellAt(cells, (t, 1)).(value := ChatTitle(index), bold := true)]
                       [(t, 2) := CellAt(cells, (t, 2)).(value := ClientTitle(conv.clientPhone), bold := true)];
    PutRows(titled, t + 2, [Styled(Headers, true, false)] + MessageTable(conv, BlockLanguage(conv), stamps))
  }

  /** A conversation block described as a whole rather than call by call:
      the title row `t` three rows below the last occupied row holds the
      bold chat number and client phone, row `t + 2` the bold headers, the
      rows below it one wrapped row per message, and the cursor ends two
      rows below the last message. */
  function BlockLayout(s: Sheet, conv: Conversation, index: nat, stamps: seq<string>): Sheet
    requires conv.messages != [] && |stamps| == |conv.messages|
  {
    var t := s.maxRow + 3;
    var n := |conv.messages|;
    s.(cells := BlockCells(s.cells, t, conv, index, stamps),
       current := t + n + 4,
       maxRow := t + n + 2,
       maxCol := |Headers|)
  }

  /** The first `|stamps|` conversations laid out as blocks numbered from 1. */
  function WriteBlocks(s: Sheet, convs: seq<Conversation>, stamps: seq<seq<string>>): Sheet
    requires Stamped(convs, stamps)
  {
    if stamps == [] then s
    else
      var k := |stamps| - 1;
      BlockLayout(WriteBlocks(s, convs, stamps[..k]), convs[k], k + 1, stamps[k])
  }

  /** Laying out one more block extends the stamps by that block's stamps. */
  lemma WriteBlocksStep(s: Sheet, convs: seq<Conversation>, stamps: seq<seq<string>>, next: seq<string>)
    requires Stamped(convs, stamps) && |stamps| < |convs|
    requires convs[|stamps|].messages != [] && |next| == |convs[|stamps|].messages|
    ensures Stamped(convs, stamps + [next])
    ensures WriteBlocks(s, convs, stamps + [next]) == BlockLayout(WriteBlocks(s, convs, stamps), convs[|stamps|], |stamps| + 1, next)
  {
    assert (stamps + [next])[..|stamps|] == stamps;
  }

  /** The length of the longest non-empty value in column `col`, rows 1 to
      `rows`; 0 when there is none. */
  function Longest(cells: map<(int, int), Cell>, col: int, rows: nat): nat
  {
    if rows == 0 then 0
    else
      var m := Longest(cells, col, rows - 1);
      if (rows, col) in cells && cells[(rows, col)].value != "" && |cells[(rows, col)].value| > m
      then |cells[(rows, col)].value|
      else m
  }

  /** `Longest` is the largest length among the non-empty values of the
      column, and 0 only when no value has a length above 0. */
  lemma {:induction false} LongestIsMaximum(cells: map<(int, int), Cell>, col: int, rows: nat)
    ensures var n := Longest(cells, col, rows);
      && (forall r :: 1 <= r <= rows && (r, col) in cells && cells[(r, col)].value != "" ==> |cells[(r, col)].value| <= n)
      && (n == 0 || exists r :: 1 <= r <= rows && (r, col) in cells && cells[(r, col)].value != "" && |cells[(r, col)].value| == n)
  {
    if rows > 0 {
      LongestIsMaximum(cells, col, rows - 1);
    }
  }

  /** The width given to a column whose longest value has `longest` characters. */
  function ColumnWidth(longest: nat): (w: nat)
    ensures 2 <= w <= 120
    ensures w == 120 || w == longest + 2
    ensures w <= longest + 2
  {
    Min(longest + 2, 120)
  }

  /** Columns 1 to `n` sized from the values already written. */
  function SizeColumns(s: Sheet, n: nat): Sheet
  {
    if n == 0 then s
    else
      var p := SizeColumns(s, n - 1);
      p.(widths := p.widths[n := ColumnWidth(Longest(s.cells, n, s.maxRow))])
  }

  /** Sizing changes the widths alone: columns 1 to `n` get the width of
      their longest value, the others keep theirs. */
  lemma {:induction false} SizeColumnsWidths(s: Sheet, n: nat)
    ensures var r := SizeColumns(s, n);
      && r == s.(widths := r.widths)
      && (forall c :: c in r.widths <==> c in s.widths || 1 <= c <= n)
      && (forall c :: 1 <= c <= n ==> r.widths[c] == ColumnWidth(Longest(s.cells, c, s.maxRow)))
      && (forall c :: c in s.widths && !(1 <= c <= n) ==> r.widths[c] == s.widths[c])
  {
    if n > 0 {
      SizeColumnsWidths(s, n - 1);
    }
  }

  function Newlines(text: string): (n: nat)
    ensures n <= |text|
    ensures n == 0 <==> '\n' !in text
  {
    if text == [] then 0
    else Newlines(text[..|text| - 1]) + (if text[|text| - 1] == '\n' then 1 else 0)
  }

  /** The height of a row whose message text is `text`: 15 points per line,
      counting the explicit line breaks or `len(text) // 80 + 1` lines,
      whichever is more, and never under 20. */
  function RowHeight(text: string): (h: nat)
    ensures h >= 20
    ensures h >= 15 * (Newlines(text) + 1) && h >= 15 * (|text| / 80 + 1)
    ensures h == 20 || h == 15 * (Newlines(text) + 1) || h == 15 * (|text| / 80 + 1)
  {
    Max(20, 15 * Max(Newlines(text) + 1, |text| / 80 + 1))
  }

  /** A single line of 200 characters gets three lines' height, 45; one of
      10 characters the least height, 20. */
  lemma RowHeightExamples(long: string, short: string)
    requires |long| == 200 && '\n' !in long
    requires |short| == 10 && '\n' !in short
    ensures RowHeight(long) == 45 && RowHeight(short) == 20
  {
  }

  /** Every header is a single short line, and gets the least height. */
  lemma HeaderHeights(j: int)
    requires 0 <= j < |Headers|
    ensures RowHeight(Headers[j]) == 20
  {
    assert '\n' !in Headers[j];
  }

  /** Row `row` has a non-empty value in the "Сообщение" column. */
  predicate HasText(s: Sheet, row: int)
  {
    (row, 3) in s.cells && s.cells[(row, 3)].value != ""
  }

  /** Rows 2 to `last` sized from their message text. */
  function SizeRows(s: Sheet, last: nat): Sheet
  {
    if last < 2 then s
    else
      var p := SizeRows(s, last - 1);
      if HasText(s, last) then p.(heights := p.heights[last := RowHeight(s.cells[(last, 3)].value)]) else p
  }

  /** Sizing changes the heights alone: rows 2 to `last` with message text
      get the height of that text, the others keep theirs. */
  lemma {:induction false} SizeRowsHeights(s: Sheet, last: nat)
    ensures var r := SizeRows(s, last);
      && r == s.(heights := r.heights)
      && (forall row :: row in r.heights <==> row in s.heights || (2 <= row <= last && HasText(s, row)))
      && (forall row :: 2 <= row <= last && HasText(s, row) ==> r.heights[row] == RowHeight(s.cells[(row, 3)].value))
      && (forall row :: row in s.heights && !(2 <= row <= last && HasText(s, row)) ==> r.heights[row] == s.heights[row])
  {
    if last >= 2 {
      SizeRowsHeights(s, last - 1);
    }
  }

  /** A laid-out sheet with its columns, then its rows, sized. */
  function Sized(laid: Sheet): Sheet
  {
    var sized := SizeColumns(laid, laid.maxCol);
    SizeRows(sized, sized.maxRow)
  }

  /** The finished sheet: every block written, then columns and rows sized. */
  function Export(convs: seq<Conversation>, period: string, clean: Normaliser): Sheet
    requires ReadyUpTo(convs, |convs|, clean)
  {
    Sized(WriteBlocks(StartSheet(period), convs, AllStamps(convs, clean)))
  }
}
