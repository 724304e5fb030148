/** `export_conversations_to_excel` as the code runs it: methods that fill
    a `Worksheet` in place, call by call, each proved to leave the sheet the
    corresponding function of `Report` describes. */
module Exporter {
  import opened Text
  import opened Records
  import opened Sheets
  import opened Report
  import Layout
  import Timestamps
  import opened Wrappers

  /** Makes columns 1 to `n` of `row` bold (or wrapped), cell by cell. */
  method StyleRow(ws: Worksheet, row: int, n: int, bold: bool)
    modifies ws
    ensures ws.State() == if bold then EmboldenRow(old(ws.State()), row, n) else WrapRow(old(ws.State()), row, n)
  {
    ghost var start := ws.State();
    var col := 1;
    while col <= n
      invariant 1 <= col <= Max(n, 0) + 1
      invariant ws.State() == if bold then EmboldenRow(start, row, col - 1) else WrapRow(start, row, col - 1)
    {
      if bold {
        ws.SetBold(row, col);
      } else {
        ws.SetWrap(row, col);
      }
      col := col + 1;
    }
  }

  /** Appends one message row and wraps its cells. */
  method AppendMessageRow(ws: Worksheet, row: seq<string>)
    requires |row| == |Headers|
    requires ws.maxRow <= ws.current && ws.maxCol <= |Headers|
    modifies ws
    ensures ws.maxRow <= ws.current && ws.maxCol <= |Headers|
    ensures var p := AppendRow(old(ws.State()), row); ws.State() == WrapRow(p, p.maxRow, |Headers|)
  {
    ws.Append(row);
    ghost var p := ws.State();
    StyleRow(ws, ws.maxRow, |Headers|, false);
    StyleRowCounters(p, p.maxRow, |Headers|);
  }

  /** Appends the row of message `j`, or reports with `ok` false that its
      time stamp is rejected. */
  method AppendMessage(ws: Worksheet, conv: Conversation, lang: string, clean: Normaliser, j: nat, ghost start: Sheet, ghost stamps: seq<string>)
    returns (ok: bool)
    requires j == |stamps| < |conv.messages|
    requires ws.maxRow <= ws.current && ws.maxCol <= |Headers|
    requires ws.State() == WriteMessages(start, conv, lang, stamps)
    modifies ws
    ensures ws.maxRow <= ws.current && ws.maxCol <= |Headers|
    ensures ok <==> clean(conv.messages[j].dateTime).Ok?
    ensures ok ==> ws.State() == WriteMessages(start, conv, lang, stamps + [clean(conv.messages[j].dateTime).value])
    ensures !ok ==> ws.State() == old(ws.State())
  {
    var msg := conv.messages[j];
    var who := Speaker(msg, conv.clientPhone);
    var stamp := clean(msg.dateTime);
    if stamp.Err? {
      return false;
    }
    assert (stamps + [stamp.value])[..j] == stamps;
    AppendMessageRow(ws, [lang, who, msg.text, stamp.value]);
    return true;
  }

  /** Appends the message rows of `conv`, stopping with `ok` false at the
      first time stamp the normaliser rejects. */
  method AppendMessages(ws: Worksheet, conv: Conversation, lang: string, clean: Normaliser) returns (ok: bool)
    requires ws.maxRow <= ws.current && ws.maxCol <= |Headers|
    modifies ws
    ensures ws.maxRow <= ws.current && ws.maxCol <= |Headers|
    ensures ok <==> StampsClean(conv.messages, |conv.messages|, clean)
    ensures ok ==> ws.State() == WriteMessages(old(ws.State()), conv, lang, CleanStamps(conv.messages, clean))
  {
    ghost var start := ws.State();
    ghost var stamps: seq<string> := [];
    var j := 0;
    while j < |conv.messages|
      invariant 0 <= j <= |conv.messages| && |stamps| == j
      invariant forall i :: 0 <= i < j ==> clean(conv.messages[i].dateTime) == Ok(stamps[i])
      invariant ws.maxRow <= ws.current && ws.maxCol <= |Headers|
      invariant ws.State() == WriteMessages(start, conv, lang, stamps)
    {
      ok := AppendMessage(ws, conv, lang, clean, j, start, stamps);
      if !ok {
        StampsUnclean(conv.messages, j, clean);
        return;
      }
      stamps := stamps + [clean(conv.messages[j].dateTime).value];
      j := j + 1;
    }
    assert stamps == CleanStamps(conv.messages, clean);
    return true;
  }

  /** Writes the title row of a conversation block. */
  method AppendTitleRow(ws: Worksheet, conv: Conversation, index: nat)
    modifies ws
    ensures ws.State() == TitleRow(old(ws.State()), conv, index)
  {
    var titleRow := ws.maxRow + 3;
    ws.Cell(titleRow, 1, ChatTitle(index));
    ws.SetBold(titleRow, 1);
    ws.Cell(titleRow, 2, ClientTitle(conv.clientPhone));
    ws.SetBold(titleRow, 2);
  }

  /** Writes the head of a conversation block. */
  method AppendBlockHead(ws: Worksheet, conv: Conversation, index: nat)
    requires ws.maxCol <= |Headers|
    modifies ws
    ensures ws.maxRow <= ws.current && ws.maxCol <= |Headers|
    ensures ws.State() == BlockHead(old(ws.State()), conv, index)
  {
    AppendTitleRow(ws, conv, index);
    ws.Append([]);
    ws.Append(Headers);
    ghost var headed := ws.State();
    StyleRow(ws, ws.maxRow, ws.maxCol, true);
    StyleRowCounters(headed, headed.maxRow, headed.maxCol);
  }

  /** Writes one conversation block below the last occupied row, which
      lays it out as `BlockLayout` describes. `ok` is false where the
      exporter raises: on a conversation without messages, before anything
      of the block is written, and on a rejected time stamp. */
  method AppendBlock(ws: Worksheet, conv: Conversation, index: nat, clean: Normaliser) returns (ok: bool)
    requires ws.current <= ws.maxRow + 3 && ws.maxCol <= |Headers|
    modifies ws
    ensures ok <==> BlockReady(conv, clean)
    ensures conv.messages == [] ==> ws.State() == old(ws.State())
    ensures ok ==> ws.current == ws.maxRow + 2 && ws.maxCol == |Headers|
    ensures ok ==> ws.State() == BlockLayout(old(ws.State()), conv, index, CleanStamps(conv.messages, clean))
  {
    if |conv.messages| == 0 {
      return false;
    }
    var lastMessage := conv.messages[|conv.messages| - 1];
    ghost var start := ws.State();
    AppendBlockHead(ws, conv, index);
    ok := AppendMessages(ws, conv, LangLabel(lastMessage.language), clean);
    if !ok {
      return;
    }
    ws.Append([]);
    ws.Append([]);
    Layout.BlockMatchesLayout(start, conv, index, CleanStamps(conv.messages, clean));
  }

  /** The length of the longest non-empty value in column `col`, rows 1 to
      `lastRow`, read off the worksheet. */
  method LongestInColumn(ws: Worksheet, col: int, lastRow: nat) returns (maxLength: nat)
    ensures maxLength == Longest(ws.cells, col, lastRow)
  {
    maxLength := 0;
    var row := 1;
    while row <= lastRow
      invariant 1 <= row <= lastRow + 1
      invariant maxLength == Longest(ws.cells, col, row - 1)
    {
      if (row, col) in ws.cells && ws.cells[(row, col)].value != "" {
        var length := |ws.cells[(row, col)].value|;
        if length > maxLength {
          maxLength := length;
        }
      }
      row := row + 1;
    }
  }

  /** Sets every column's width from its longest value. */
  method FitColumns(ws: Worksheet)
    modifies ws
    ensures ws.State() == SizeColumns(old(ws.State()), old(ws.maxCol))
  {
    ghost var laid := ws.State();
    var lastRow, lastCol := ws.maxRow, ws.maxCol;
    var col := 1;
    while col <= lastCol
      invariant 1 <= col <= lastCol + 1
      invariant ws.State() == SizeColumns(laid, col - 1)
      invariant ws.cells == laid.cells && ws.maxRow == lastRow
    {
      var maxLength := LongestInColumn(ws, col, lastRow);
      ws.SetWidth(col, Min(maxLength + 2, 120));
      col := col + 1;
    }
  }

  /** Sets the height of every row from row 2 on that has message text. */
  method FitRows(ws: Worksheet)
    modifies ws
    ensures ws.State() == SizeRows(old(ws.State()), old(ws.maxRow))
  {
    ghost var sized := ws.State();
    var row := 2;
    while row <= ws.maxRow
      invariant 2 <= row <= Max(ws.maxRow + 1, 2)
      invariant ws.cells == sized.cells && ws.maxRow == sized.maxRow
      invariant ws.State() == SizeRows(sized, row - 1)
    {
      if (row, 3) in ws.cells && ws.cells[(row, 3)].value != "" {
        var text := ws.cells[(row, 3)].value;
        var lineCount := Newlines(text) + 1;
        var wrapFactor := |text| / 80 + 1;
        ws.SetHeight(row, Max(20, 15 * Max(lineCount, wrapFactor)));
      }
      row := row + 1;
    }
  }

  /** After `|stamps|` blocks: each of them was ready, and `stamps` holds
      their normalised time stamps. */
  ghost predicate BlocksSoFar(convs: seq<Conversation>, clean: Normaliser, stamps: seq<seq<string>>)
  {
    && |stamps| <= |convs| && Stamped(convs, stamps)
    && ReadyUpTo(convs, |stamps|, clean)
    && forall i :: 0 <= i < |stamps| ==> stamps[i] == CleanStamps(convs[i].messages, clean)
  }

  /** One more ready block extends the stamps and the laid-out sheet. */
  lemma BlocksSoFarStep(start: Sheet, convs: seq<Conversation>, clean: Normaliser, stamps: seq<seq<string>>)
    requires BlocksSoFar(convs, clean, stamps) && |stamps| < |convs| && BlockReady(convs[|stamps|], clean)
    ensures var next := CleanStamps(convs[|stamps|].messages, clean);
      && BlocksSoFar(convs, clean, stamps + [next])
      && WriteBlocks(start, convs, stamps + [next]) == BlockLayout(WriteBlocks(start, convs, stamps), convs[|stamps|], |stamps| + 1, next)
  {
    var k := |stamps|;
    var next := CleanStamps(convs[k].messages, clean);
    ReadyStep(convs, k, clean);
    CleanStampsStep(convs, clean, stamps);
    WriteBlocksStep(start, convs, stamps, next);
  }

  /** Writes every conversation as a block, stopping with `ok` false at the
      first time stamp `clean` rejects. */
  method AppendBlocks(ws: Worksheet, convs: seq<Conversation>, clean: Normaliser) returns (ok: bool)
    requires ws.current <= ws.maxRow + 3 && ws.maxCol <= |Headers|
    modifies ws
    ensures ok <==> ReadyUpTo(convs, |convs|, clean)
    ensures ok ==> ws.State() == WriteBlocks(old(ws.State()), convs, AllStamps(convs, clean))
  {
    ghost var start := ws.State();
    ghost var stamps: seq<seq<string>> := [];
    var k := 0;
    while k < |convs|
      invariant k == |stamps| && BlocksSoFar(convs, clean, stamps)
      invariant ws.current <= ws.maxRow + 3 && ws.maxCol <= |Headers|
      invariant ws.State() == WriteBlocks(start, convs, stamps)
    {
      ok := AppendBlock(ws, convs[k], k + 1, clean);
      if !ok {
        return;
      }
      BlocksSoFarStep(start, convs, clean, stamps);
      stamps := stamps + [CleanStamps(convs[k].messages, clean)];
      k := k + 1;
    }
    AllStampsUnique(convs, clean, stamps);
    return true;
  }

  /** Fills a new worksheet with the report, normalising time stamps with
      `clean`. `ok` is false when a time stamp is rejected, where the
      exporter raises; the sheet is then left half written. */
  method ExportWith(convs: seq<Conversation>, period: string, clean: Normaliser) returns (ws: Worksheet, ok: bool)
    ensures fresh(ws)
    ensures ok <==> ReadyUpTo(convs, |convs|, clean)
    ensures ok ==> ws.State() == Export(convs, period, clean)
  {
    ws := new Worksheet();
    ws.Cell(1, 1, PeriodTitle(period));
    ws.SetBold(1, 1);
    ok := AppendBlocks(ws, convs, clean);
    if !ok {
      return;
    }
    FitColumns(ws);
    FitRows(ws);
  }

  /** `export_conversations_to_excel` up to saving the workbook: the report
      with time stamps normalised by `Timestamps.CleanDatetime`. */
  method ExportConversations(convs: seq<Conversation>, period: string) returns (ws: Worksheet, ok: bool)
    ensures fresh(ws)
    ensures ok <==> ReadyUpTo(convs, |convs|, Timestamps.CleanDatetime)
    ensures ok ==> ws.State() == Export(convs, period, Timestamps.CleanDatetime)
  {
    ws, ok := ExportWith(convs, period, Timestamps.CleanDatetime);
  }
}
