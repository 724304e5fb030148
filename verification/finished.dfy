/** What the finished report sheet holds, cell by cell, row by row and
    column by column, as `export_conversations_to_excel` leaves it before
    saving. The lemmas are stated for the first `|stamps|` conversations
    laid out with the time stamps `stamps` and sized; `ExportIsFinal` says
    that `Report.Export`, which the exporter's methods are proved to
    build, is that sheet for every conversation and the time stamps the
    normaliser makes. */
module Finished {
  import opened Records
  import opened Sheets
  import opened Report
  import opened Layout
  import opened Wrappers

  /** The sheet with the period title and the first `|stamps|` blocks,
      its columns and rows sized. */
  function Final(period: string, convs: seq<Conversation>, stamps: seq<seq<string>>): Sheet
    requires Stamped(convs, stamps)
  {
    Sized(Laid(period, convs, stamps))
  }

  /** The exported sheet is the final sheet of every conversation, message
      `k` of conversation `i` showing the time stamp the normaliser makes
      of its `dateTime`. */
  lemma ExportIsFinal(convs: seq<Conversation>, period: string, clean: Normaliser)
    requires ReadyUpTo(convs, |convs|, clean)
    ensures var stamps := AllStamps(convs, clean);
      && |stamps| == |convs| && Stamped(convs, stamps)
      && Export(convs, period, clean) == Final(period, convs, stamps)
      && forall i, k :: 0 <= i < |convs| && 0 <= k < |convs[i].messages| ==>
           clean(convs[i].messages[k].dateTime) == Ok(stamps[i][k])
  {
    var stamps := AllStamps(convs, clean);
    forall i, k | 0 <= i < |convs| && 0 <= k < |convs[i].messages|
      ensures clean(convs[i].messages[k].dateTime) == Ok(stamps[i][k])
    {
      assert stamps[i] == CleanStamps(convs[i].messages, clean);
    }
  }

  /** The block whose rows contain row `a`: the rows after the title row
      are shared out among the first `k` blocks. */
  function BlockOfRow(convs: seq<Conversation>, k: nat, a: int): (i: nat)
    requires k <= |convs| && LastRow(convs, 0) < a <= LastRow(convs, k)
    ensures i < k && LastRow(convs, i) < a <= LastRow(convs, i + 1)
  {
    if a > LastRow(convs, k - 1) then k - 1 else BlockOfRow(convs, k - 1, a)
  }

  /** Sizing keeps the laid-out cells, and sets the width of every column
      up to the last one used to that of its longest value, and the height
      of every row from row 2 on whose "Сообщение" cell holds text to that
      of the text; nothing else is sized. */
  lemma FinalSizes(period: string, convs: seq<Conversation>, stamps: seq<seq<string>>)
    requires Stamped(convs, stamps)
    ensures var e := Final(period, convs, stamps); var n := |stamps|;
      && e.cells == Laid(period, convs, stamps).cells
      && e.maxRow == LastRow(convs, n)
      && e.maxCol == (if n == 0 then 1 else |Headers|)
      && e.current == (if n == 0 then 1 else LastRow(convs, n) + 2)
      && (forall c :: c in e.widths <==> 1 <= c <= e.maxCol)
      && (forall c :: 1 <= c <= e.maxCol ==> e.widths[c] == ColumnWidth(Longest(e.cells, c, e.maxRow)))
      && (forall row :: row in e.heights <==> 2 <= row <= e.maxRow && HasText(e, row))
      && (forall row :: row in e.heights ==> e.heights[row] == RowHeight(e.cells[(row, 3)].value))
  {
    var laid := Laid(period, convs, stamps);
    BlocksCursor(period, convs, stamps);
    SizeColumnsWidths(laid, laid.maxCol);
    var sized := SizeColumns(laid, laid.maxCol);
    SizeRowsHeights(sized, sized.maxRow);
  }

  /** Row 1 holds the bold period title in its first cell and nothing else. */
  lemma FinalTitle(period: string, convs: seq<Conversation>, stamps: seq<seq<string>>, b: int)
    requires Stamped(convs, stamps)
    ensures var e := Final(period, convs, stamps).cells;
      && ((1, b) in e <==> b == 1)
      && (1, 1) in e && e[(1, 1)] == Cell(PeriodTitle(period), true, false)
  {
    FinalSizes(period, convs, stamps);
    BlocksTitle(period, convs, stamps, b);
  }

  /** Every cell lies in rows 1 to the last row and in the first four
      columns. */
  lemma FinalBound(period: string, convs: seq<Conversation>, stamps: seq<seq<string>>, a: int, b: int)
    requires Stamped(convs, stamps)
    ensures var e := Final(period, convs, stamps);
      (a, b) in e.cells ==> 1 <= a <= e.maxRow && 1 <= b <= |Headers|
  {
    FinalSizes(period, convs, stamps);
    BlocksBound(period, convs, stamps, a, b);
  }

  /** Conversation `i` is block `i + 1`: its title row is three rows below
      the last row of the block before it (or of the period title), and its
      rows hold its title, a blank row, the bold headers and its message
      rows, and nothing else. */
  lemma FinalBlock(period: string, convs: seq<Conversation>, stamps: seq<seq<string>>, i: nat, a: int, b: int)
    requires Stamped(convs, stamps) && i < |stamps|
    requires LastRow(convs, i) < a <= LastRow(convs, i + 1)
    ensures convs[i].messages != [] && |stamps[i]| == |convs[i].messages|
    ensures BlockAt(Final(period, convs, stamps).cells, LastRow(convs, i) + 3, convs[i], i + 1, stamps[i], a, b)
  {
    FinalSizes(period, convs, stamps);
    BlockInPlace(period, convs, stamps, i, a, b);
  }

  /** Message `k` of conversation `i` sits in row `LastRow(convs, i) + 6 + k`,
      wrapped and not bold: the language of the conversation's LAST message
      (by name when known, else its code), who sent it ("Клиент" exactly
      when the client did), its text and its time stamp; the row has no
      fifth cell. */
  lemma FinalMessage(period: string, convs: seq<Conversation>, stamps: seq<seq<string>>, i: nat, k: nat)
    requires Stamped(convs, stamps) && i < |stamps| && k < |convs[i].messages|
    ensures |stamps[i]| == |convs[i].messages|
    ensures var e := Final(period, convs, stamps).cells; var a := LastRow(convs, i) + 3 + 3 + k;
      var conv := convs[i]; var m := conv.messages[k];
      && (a, 1) in e && e[(a, 1)] == Cell(LangLabel(conv.messages[|conv.messages| - 1].language), false, true)
      && (a, 2) in e && e[(a, 2)] == Cell(Speaker(m, conv.clientPhone), false, true)
      && (a, 3) in e && e[(a, 3)] == Cell(m.text, false, true)
      && (a, 4) in e && e[(a, 4)] == Cell(stamps[i][k], false, true)
      && (a, 5) !in e
  {
    FinalSizes(period, convs, stamps);
    MessageInPlace(period, convs, stamps, i, k);
  }

  /** A message row is sized exactly when the message has text, to the
      height of that text. */
  lemma FinalMessageHeight(period: string, convs: seq<Conversation>, stamps: seq<seq<string>>, i: nat, k: nat)
    requires Stamped(convs, stamps) && i < |stamps| && k < |convs[i].messages|
    ensures var e := Final(period, convs, stamps); var a := LastRow(convs, i) + 3 + 3 + k; var m := convs[i].messages[k];
      && (a in e.heights <==> m.text != "")
      && (a in e.heights ==> e.heights[a] == RowHeight(m.text))
  {
    FinalSizes(period, convs, stamps);
    FinalMessage(period, convs, stamps, i, k);
    LastRowGrows(convs, i + 1, |stamps|);
  }

  /** The header row of each block is sized too: its "Сообщение" cell
      holds text, a single short line, which gets the least height, 20. */
  lemma FinalHeaderHeight(period: string, convs: seq<Conversation>, stamps: seq<seq<string>>, i: nat)
    requires Stamped(convs, stamps) && i < |stamps|
    ensures var e := Final(period, convs, stamps); var a := LastRow(convs, i) + 3 + 2;
      a in e.heights && e.heights[a] == 20
  {
    var a := LastRow(convs, i) + 3 + 2;
    FinalSizes(period, convs, stamps);
    FinalBlock(period, convs, stamps, i, a, 3);
    LastRowGrows(convs, i + 1, |stamps|);
    HeaderHeights(2);
  }
}
