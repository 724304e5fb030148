/** What the exported sheet looks like: where each conversation block sits
    and what its cells hold, value and style together. The facts are
    stated one cell `(a, b)` at a time. */
module Layout {
  import opened Text
  import opened Records
  import opened Sheets
  import opened Report

  // ---------------------------------------------------------------------
  // Message rows

  /** Appending the message rows moves the cursor down one row per message
      and makes the last of them the last occupied row. */
  lemma {:induction false} MessagesCursor(s: Sheet, conv: Conversation, lang: string, stamps: seq<string>)
    requires |stamps| <= |conv.messages|
    requires s.maxRow <= s.current && s.maxCol <= |Headers|
    ensures var r := WriteMessages(s, conv, lang, stamps);
      && r.current == s.current + |stamps|
      && r.maxRow == (if stamps == [] then s.maxRow else s.current + |stamps|)
      && r.maxCol == (if stamps == [] then s.maxCol else |Headers|)
      && r.widths == s.widths && r.heights == s.heights
  {
    if stamps != [] {
      var j := |stamps| - 1;
      MessagesCursor(s, conv, lang, stamps[..j]);
      var prev := WriteMessages(s, conv, lang, stamps[..j]);
      var p := AppendRow(prev, MessageRow(conv.messages[j], conv.clientPhone, lang, stamps[j]));
      StyleRowCounters(p, p.maxRow, |Headers|);
    }
  }

  /** Cell (a, b) after one message row is appended and wrapped. */
  lemma MessageRowAt(prev: Sheet, row: seq<string>, a: int, b: int)
    requires |row| == |Headers| && prev.maxRow <= prev.current
    ensures var p := AppendRow(prev, row); var r := WrapRow(p, p.maxRow, |Headers|).cells;
      var written := a == prev.current + 1 && 1 <= b <= |Headers|;
      && ((a, b) in r <==> (a, b) in prev.cells || written)
      && ((a, b) in prev.cells && !written ==> r[(a, b)] == prev.cells[(a, b)])
      && (written ==> r[(a, b)] == Cell(row[b - 1], false, true))
  {
    var p := AppendRow(prev, row);
    PutRowAt(prev.cells, prev.current + 1, Styled(row, false, false), a, b);
    if a == prev.current + 1 && 1 <= b <= |Headers| {
      StyledAt(row, false, false, b - 1);
    }
    WrapRowAt(p, p.maxRow, |Headers|, a, b);
  }

  /** Cell (a, b) after the message rows: message `i` fills columns 1 to 4
      of row `s.current + 1 + i` with wrapped cells; every other cell is
      left as it was. */
  lemma {:induction false} MessagesCells(s: Sheet, conv: Conversation, lang: string, stamps: seq<string>, a: int, b: int)
    requires |stamps| <= |conv.messages|
    requires s.maxRow <= s.current && s.maxCol <= |Headers|
    ensures var r := WriteMessages(s, conv, lang, stamps).cells;
      var written := s.current < a <= s.current + |stamps| && 1 <= b <= |Headers|;
      && ((a, b) in r <==> (a, b) in s.cells || written)
      && ((a, b) in s.cells && !written ==> r[(a, b)] == s.cells[(a, b)])
      && (written ==>
            var i := a - s.current - 1;
            r[(a, b)] == Cell(MessageRow(conv.messages[i], conv.clientPhone, lang, stamps[i])[b - 1], false, true))
  {
    if stamps != [] {
      var j := |stamps| - 1;
      MessagesCells(s, conv, lang, stamps[..j], a, b);
      MessagesCursor(s, conv, lang, stamps[..j]);
      var prev := WriteMessages(s, conv, lang, stamps[..j]);
      MessageRowAt(prev, MessageRow(conv.messages[j], conv.clientPhone, lang, stamps[j]), a, b);
    }
  }

  // ---------------------------------------------------------------------
  // The head of a block

  /** The title goes three rows below the last occupied row `s.maxRow`, and
      the header row two rows below the title. */
  lemma HeadCursor(s: Sheet, conv: Conversation, index: nat)
    requires s.current <= s.maxRow + 3 && s.maxCol <= |Headers|
    ensures var r := BlockHead(s, conv, index);
      && r.current == s.maxRow + 5 && r.maxRow == s.maxRow + 5 && r.maxCol == |Headers|
      && r.widths == s.widths && r.heights == s.heights
  {
    var headed := AppendRow(AppendRow(TitleRow(s, conv, index), []), Headers);
    StyleRowCounters(headed, headed.maxRow, headed.maxCol);
  }

  /** The cells a block head writes: chat number and client phone in the
      title row `t`, the column headers in row `t + 2`. */
  predicate HeadCell(t: int, a: int, b: int)
  {
    (a == t && 1 <= b <= 2) || (a == t + 2 && 1 <= b <= |Headers|)
  }

  /** Cell (a, b) after the title row is written. */
  lemma TitleRowAt(s: Sheet, conv: Conversation, index: nat, a: int, b: int)
    ensures var r := TitleRow(s, conv, index).cells; var t := s.maxRow + 3;
      && ((a, b) in r <==> (a, b) in s.cells || (a == t && 1 <= b <= 2))
      && ((a, b) in s.cells && !(a == t && 1 <= b <= 2) ==> r[(a, b)] == s.cells[(a, b)])
      && (a == t && b == 1 ==> r[(a, b)] == CellAt(s.cells, (a, b)).(value := ChatTitle(index), bold := true))
      && (a == t && b == 2 ==> r[(a, b)] == CellAt(s.cells, (a, b)).(value := ClientTitle(conv.clientPhone), bold := true))
  {
  }

  /** Cell (a, b) after the head of a block: the title cells hold the chat
      number and the client phone in bold, the header row the bold headers;
      every other cell is left as it was. */
  lemma HeadCells(s: Sheet, conv: Conversation, index: nat, a: int, b: int)
    requires s.current <= s.maxRow + 3 && s.maxCol <= |Headers|
    ensures var r := BlockHead(s, conv, index).cells; var t := s.maxRow + 3;
      && ((a, b) in r <==> (a, b) in s.cells || HeadCell(t, a, b))
      && ((a, b) in s.cells && !HeadCell(t, a, b) ==> r[(a, b)] == s.cells[(a, b)])
      && (a == t && b == 1 ==> r[(a, b)] == CellAt(s.cells, (a, b)).(value := ChatTitle(index), bold := true))
      && (a == t && b == 2 ==> r[(a, b)] == CellAt(s.cells, (a, b)).(value := ClientTitle(conv.clientPhone), bold := true))
      && (a == t + 2 && 1 <= b <= |Headers| ==> r[(a, b)] == Cell(Headers[b - 1], true, false))
  {
    var t := s.maxRow + 3;
    var titled := TitleRow(s, conv, index);
    TitleRowAt(s, conv, index, a, b);
    var blank := AppendRow(titled, []);
    assert blank.cells == titled.cells;
    var headed := AppendRow(blank, Headers);
    PutRowAt(blank.cells, t + 2, Styled(Headers, false, false), a, b);
    if a == t + 2 && 1 <= b <= |Headers| {
      StyledAt(Headers, false, false, b - 1);
    }
    EmboldenRowAt(headed, t + 2, |Headers|, a, b);
  }

  // ---------------------------------------------------------------------
  // One block

  /** The cells of a block with `n` messages whose title row is `t`. */
  predicate BlockCell(t: int, n: nat, a: int, b: int)
  {
    (a == t && 1 <= b <= 2) || (t + 2 <= a <= t + 2 + n && 1 <= b <= |Headers|)
  }

  /** A block ends with its last message row, and leaves the cursor two
      rows below it. */
  lemma BlockCursor(s: Sheet, conv: Conversation, index: nat, stamps: seq<string>)
    requires conv.messages != [] && |stamps| == |conv.messages|
    requires s.current <= s.maxRow + 3 && s.maxCol <= |Headers|
    ensures var r := WriteBlock(s, conv, index, stamps); var n := |conv.messages|;
      && r.maxRow == s.maxRow + 5 + n && r.current == s.maxRow + 7 + n && r.maxCol == |Headers|
      && r.widths == s.widths && r.heights == s.heights
  {
    var head := BlockHead(s, conv, index);
    HeadCursor(s, conv, index);
    MessagesCursor(head, conv, BlockLanguage(conv), stamps);
  }

  // ---------------------------------------------------------------------
  // The block as a whole

  /** Cell (a, b) of `r` is what a block whose title row is `t` makes of
      the cells `cells`: the bold chat number and client phone in row `t`,
      the bold headers in row `t + 2`, message `i` wrapped in row
      `t + 3 + i`, and every other cell as it was. */
  ghost predicate ShapedAt(r: map<(int, int), Cell>, cells: map<(int, int), Cell>, t: int, conv: Conversation, index: nat, stamps: seq<string>, a: int, b: int)
    requires conv.messages != [] && |stamps| == |conv.messages|
  {
    var n := |conv.messages|;
    && ((a, b) in r <==> (a, b) in cells || BlockCell(t, n, a, b))
    && ((a, b) in cells && !BlockCell(t, n, a, b) ==> r[(a, b)] == cells[(a, b)])
    && (a == t && b == 1 ==> r[(a, b)] == CellAt(cells, (a, b)).(value := ChatTitle(index), bold := true))
    && (a == t && b == 2 ==> r[(a, b)] == CellAt(cells, (a, b)).(value := ClientTitle(conv.clientPhone), bold := true))
    && (a == t + 2 && 1 <= b <= |Headers| ==> r[(a, b)] == Cell(Headers[b - 1], true, false))
    && (t + 3 <= a <= t + 2 + n && 1 <= b <= |Headers| ==>
          var i := a - t - 3;
          r[(a, b)] == Cell(MessageRow(conv.messages[i], conv.clientPhone, BlockLanguage(conv), stamps[i])[b - 1], false, true))
  }

  /** The calls the exporter makes for one block shape the cells below the
      last occupied row. */
  lemma WriteBlockAt(s: Sheet, conv: Conversation, index: nat, stamps: seq<string>, a: int, b: int)
    requires conv.messages != [] && |stamps| == |conv.messages|
    requires s.current <= s.maxRow + 3 && s.maxCol <= |Headers|
    ensures ShapedAt(WriteBlock(s, conv, index, stamps).cells, s.cells, s.maxRow + 3, conv, index, stamps, a, b)
  {
    var head := BlockHead(s, conv, index);
    var filled := WriteMessages(head, conv, BlockLanguage(conv), stamps);
    HeadCursor(s, conv, index);
    HeadCells(s, conv, index, a, b);
    MessagesCells(head, conv, BlockLanguage(conv), stamps, a, b);
    assert WriteBlock(s, conv, index, stamps).cells == filled.cells;
  }

  /** The cells a block occupies: those there before, and its title,
      header and message cells; the others are left as they were. */
  lemma LayoutCells(cells: map<(int, int), Cell>, t: int, conv: Conversation, index: nat, stamps: seq<string>, a: int, b: int)
    requires conv.messages != [] && |stamps| == |conv.messages|
    ensures var r := BlockCells(cells, t, conv, index, stamps); var n := |conv.messages|;
      && ((a, b) in r <==> (a, b) in cells || BlockCell(t, n, a, b))
      && ((a, b) in cells && !BlockCell(t, n, a, b) ==> r[(a, b)] == cells[(a, b)])
  {
    var titled := cells[(t, 1) := CellAt(cells, (t, 1)).(value := ChatTitle(index), bold := true)]
                       [(t, 2) := CellAt(cells, (t, 2)).(value := ClientTitle(conv.clientPhone), bold := true)];
    var table := [Styled(Headers, true, false)] + MessageTable(conv, BlockLanguage(conv), stamps);
    PutRowsAt(titled, t + 2, table, a, b);
    if t + 2 <= a <= t + 2 + |conv.messages| {
      assert |table[a - t - 2]| == |Headers|;
    }
  }

  /** The title row of a block holds the chat number and the client phone
      in bold, and the row two below it the bold headers. */
  lemma LayoutHead(cells: map<(int, int), Cell>, t: int, conv: Conversation, index: nat, stamps: seq<string>, b: int)
    requires conv.messages != [] && |stamps| == |conv.messages|
    ensures var r := BlockCells(cells, t, conv, index, stamps);
      && (b == 1 ==> (t, b) in r && r[(t, b)] == CellAt(cells, (t, b)).(value := ChatTitle(index), bold := true))
      && (b == 2 ==> (t, b) in r && r[(t, b)] == CellAt(cells, (t, b)).(value := ClientTitle(conv.clientPhone), bold := true))
      && (1 <= b <= |Headers| ==> (t + 2, b) in r && r[(t + 2, b)] == Cell(Headers[b - 1], true, false))
  {
    var titled := cells[(t, 1) := CellAt(cells, (t, 1)).(value := ChatTitle(index), bold := true)]
                       [(t, 2) := CellAt(cells, (t, 2)).(value := ClientTitle(conv.clientPhone), bold := true)];
    var table := [Styled(Headers, true, false)] + MessageTable(conv, BlockLanguage(conv), stamps);
    PutRowsAt(titled, t + 2, table, t, b);
    PutRowsAt(titled, t + 2, table, t + 2, b);
    assert table[0] == Styled(Headers, true, false);
    if 1 <= b <= |Headers| {
      StyledAt(Headers, true, false, b - 1);
    }
  }

  /** Row `t + 3 + i` of a block holds message `i`, wrapped. */
  lemma LayoutMessage(cells: map<(int, int), Cell>, t: int, conv: Conversation, index: nat, stamps: seq<string>, i: int, b: int)
    requires conv.messages != [] && |stamps| == |conv.messages|
    requires 0 <= i < |conv.messages| && 1 <= b <= |Headers|
    ensures var r := BlockCells(cells, t, conv, index, stamps);
      && (t + 3 + i, b) in r
      && r[(t + 3 + i, b)] == Cell(MessageRow(conv.messages[i], conv.clientPhone, BlockLanguage(conv), stamps[i])[b - 1], false, true)
  {
    var titled := cells[(t, 1) := CellAt(cells, (t, 1)).(value := ChatTitle(index), bold := true)]
                       [(t, 2) := CellAt(cells, (t, 2)).(value := ClientTitle(conv.clientPhone), bold := true)];
    var rows := MessageTable(conv, BlockLanguage(conv), stamps);
    var table := [Styled(Headers, true, false)] + rows;
    PutRowsAt(titled, t + 2, table, t + 3 + i, b);
    assert table[i + 1] == rows[i];
    StyledAt(MessageRow(conv.messages[i], conv.clientPhone, BlockLanguage(conv), stamps[i]), false, true, b - 1);
  }

  /** `BlockCells` shapes the cells as a block does. */
  lemma BlockCellsAt(cells: map<(int, int), Cell>, t: int, conv: Conversation, index: nat, stamps: seq<string>, a: int, b: int)
    requires conv.messages != [] && |stamps| == |conv.messages|
    ensures ShapedAt(BlockCells(cells, t, conv, index, stamps), cells, t, conv, index, stamps, a, b)
  {
    LayoutCells(cells, t, conv, index, stamps, a, b);
    LayoutHead(cells, t, conv, index, stamps, b);
    if t + 3 <= a <= t + 2 + |conv.messages| && 1 <= b <= |Headers| {
      LayoutMessage(cells, t, conv, index, stamps, a - t - 3, b);
    }
  }

  /** Two maps shaped alike from the same cells agree at (a, b). */
  lemma ShapedAlike(r: map<(int, int), Cell>, l: map<(int, int), Cell>, cells: map<(int, int), Cell>, t: int, conv: Conversation, index: nat, stamps: seq<string>, a: int, b: int)
    requires conv.messages != [] && |stamps| == |conv.messages|
    requires ShapedAt(r, cells, t, conv, index, stamps, a, b) && ShapedAt(l, cells, t, conv, index, stamps, a, b)
    ensures ((a, b) in r <==> (a, b) in l) && ((a, b) in r ==> r[(a, b)] == l[(a, b)])
  {
  }

  /** Cell maps that agree at every position are equal. */
  lemma SameCells(w: map<(int, int), Cell>, l: map<(int, int), Cell>)
    requires forall p :: (p in w <==> p in l) && (p in w ==> w[p] == l[p])
    ensures w == l
  {
  }

  lemma BlockLayoutCells(s: Sheet, conv: Conversation, index: nat, stamps: seq<string>)
    requires conv.messages != [] && |stamps| == |conv.messages|
    ensures BlockLayout(s, conv, index, stamps).cells == BlockCells(s.cells, s.maxRow + 3, conv, index, stamps)
  {
  }

  /** Sheets that agree field by field are equal. */
  lemma SameSheet(w: Sheet, l: Sheet)
    requires w.cells == l.cells && w.current == l.current && w.maxRow == l.maxRow && w.maxCol == l.maxCol
    requires w.widths == l.widths && w.heights == l.heights
    ensures w == l
  {
  }

  /** Cell (a, b) is the same whether the block is written call by call
      or laid out as a whole. */
  lemma BlockMatchesAt(s: Sheet, conv: Conversation, index: nat, stamps: seq<string>, a: int, b: int)
    requires conv.messages != [] && |stamps| == |conv.messages|
    requires s.current <= s.maxRow + 3 && s.maxCol <= |Headers|
    ensures var w := WriteBlock(s, conv, index, stamps).cells; var l := BlockCells(s.cells, s.maxRow + 3, conv, index, stamps);
      && ((a, b) in w <==> (a, b) in l)
      && ((a, b) in w ==> w[(a, b)] == l[(a, b)])
  {
    var t := s.maxRow + 3;
    var w := WriteBlock(s, conv, index, stamps).cells;
    var l := BlockCells(s.cells, t, conv, index, stamps);
    WriteBlockAt(s, conv, index, stamps, a, b);
    BlockCellsAt(s.cells, t, conv, index, stamps, a, b);
    ShapedAlike(w, l, s.cells, t, conv, index, stamps, a, b);
  }

  lemma BlockMatchesCells(s: Sheet, conv: Conversation, index: nat, stamps: seq<string>)
    requires conv.messages != [] && |stamps| == |conv.messages|
    requires s.current <= s.maxRow + 3 && s.maxCol <= |Headers|
    ensures WriteBlock(s, conv, index, stamps).cells == BlockCells(s.cells, s.maxRow + 3, conv, index, stamps)
  {
    var w := WriteBlock(s, conv, index, stamps).cells;
    var l := BlockCells(s.cells, s.maxRow + 3, conv, index, stamps);
    forall p: (int, int) | true
      ensures (p in w <==> p in l) && (p in w ==> w[p] == l[p])
    {
      BlockMatchesAt(s, conv, index, stamps, p.0, p.1);
    }
    SameCells(w, l);
  }

  /** The calls the exporter makes for one block lay it out as
      `BlockLayout` describes, whenever the cursor is at most three rows
      below the last occupied row and no column beyond the fourth is used. */
  lemma BlockMatchesLayout(s: Sheet, conv: Conversation, index: nat, stamps: seq<string>)
    requires conv.messages != [] && |stamps| == |conv.messages|
    requires s.current <= s.maxRow + 3 && s.maxCol <= |Headers|
    ensures WriteBlock(s, conv, index, stamps) == BlockLayout(s, conv, index, stamps)
  {
    BlockCursor(s, conv, index, stamps);
    BlockMatchesCells(s, conv, index, stamps);
    BlockLayoutCells(s, conv, index, stamps);
    SameSheet(WriteBlock(s, conv, index, stamps), BlockLayout(s, conv, index, stamps));
  }

  // ---------------------------------------------------------------------
  // All blocks

  /** The last occupied row once the first `k` blocks are written: row 1
      holds the period title, and each block adds three rows up to its
      title, two more up to its header row and one per message. */
  function LastRow(convs: seq<Conversation>, k: nat): (row: nat)
    requires k <= |convs|
    ensures row >= 1
  {
    if k == 0 then 1 else LastRow(convs, k - 1) + 5 + |convs[k - 1].messages|
  }

  /** Each block takes at least five rows. */
  lemma {:induction false} LastRowGrows(convs: seq<Conversation>, j: nat, k: nat)
    requires j <= k <= |convs|
    ensures LastRow(convs, j) + 5 * (k - j) <= LastRow(convs, k)
  {
    if j < k {
      LastRowGrows(convs, j, k - 1);
    }
  }

  /** The sheet once the period title and the first `|stamps|` blocks are
      written. */
  function Laid(period: string, convs: seq<Conversation>, stamps: seq<seq<string>>): Sheet
    requires Stamped(convs, stamps)
  {
    WriteBlocks(StartSheet(period), convs, stamps)
  }

  /** The sheet before block `k` is the one with the first `k` blocks. */
  lemma LaidStep(period: string, convs: seq<Conversation>, stamps: seq<seq<string>>, k: nat)
    requires Stamped(convs, stamps) && k < |stamps|
    ensures Stamped(convs, stamps[..k]) && Stamped(convs, stamps[..k + 1])
    ensures Laid(period, convs, stamps[..k + 1]) == BlockLayout(Laid(period, convs, stamps[..k]), convs[k], k + 1, stamps[k])
  {
    assert stamps[..k + 1][..k] == stamps[..k];
  }

  lemma PrefixOfPrefix(stamps: seq<seq<string>>, k: nat, j: nat)
    requires j <= k <= |stamps|
    ensures stamps[..k][..j] == stamps[..j]
  {
  }

  /** The sheet with the first `|stamps|` blocks is the one with one block
      fewer and the last block laid out below it. */
  lemma LaidLast(period: string, convs: seq<Conversation>, stamps: seq<seq<string>>)
    requires Stamped(convs, stamps) && stamps != []
    ensures Stamped(convs, stamps[..|stamps| - 1])
    ensures var k := |stamps| - 1;
      Laid(period, convs, stamps) == BlockLayout(Laid(period, convs, stamps[..k]), convs[k], k + 1, stamps[k])
  {
  }

  /** A block leaves the rows up to the last occupied row as they were. */
  lemma LayoutKeeps(s: Sheet, conv: Conversation, index: nat, stamps: seq<string>, a: int, b: int)
    requires conv.messages != [] && |stamps| == |conv.messages| && a <= s.maxRow
    ensures var r := BlockLayout(s, conv, index, stamps).cells;
      && ((a, b) in r <==> (a, b) in s.cells)
      && ((a, b) in s.cells ==> r[(a, b)] == s.cells[(a, b)])
  {
    BlockLayoutCells(s, conv, index, stamps);
    LayoutCells(s.cells, s.maxRow + 3, conv, index, stamps, a, b);
  }

  /** A block writes only below the last occupied row, within its rows and
      the first four columns. */
  lemma LayoutBound(s: Sheet, conv: Conversation, index: nat, stamps: seq<string>, a: int, b: int)
    requires conv.messages != [] && |stamps| == |conv.messages|
    ensures var r := BlockLayout(s, conv, index, stamps).cells;
      (a, b) in r ==> (a, b) in s.cells || (s.maxRow + 3 <= a <= s.maxRow + 5 + |conv.messages| && 1 <= b <= |Headers|)
  {
    BlockLayoutCells(s, conv, index, stamps);
    LayoutCells(s.cells, s.maxRow + 3, conv, index, stamps, a, b);
  }

  /** After `k` blocks the last occupied row is `LastRow(convs, k)`, the
      cursor two rows below it, and no width or height is set. */
  lemma {:induction false} BlocksCursor(period: string, convs: seq<Conversation>, stamps: seq<seq<string>>)
    requires Stamped(convs, stamps)
    ensures var r := Laid(period, convs, stamps); var k := |stamps|;
      && r.maxRow == LastRow(convs, k)
      && r.current == (if k == 0 then 1 else LastRow(convs, k) + 2)
      && r.maxCol == (if k == 0 then 1 else |Headers|)
      && r.widths == map[] && r.heights == map[]
  {
    if stamps != [] {
      var k := |stamps| - 1;
      LaidStep(period, convs, stamps, k);
      BlocksCursor(period, convs, stamps[..k]);
      assert stamps[..k + 1] == stamps;
    }
  }

  /** Every cell of the sheet laid out so far lies within rows 1 to the
      last row and columns 1 to `maxCol`. */
  lemma {:induction false} BlocksBound(period: string, convs: seq<Conversation>, stamps: seq<seq<string>>, a: int, b: int)
    requires Stamped(convs, stamps)
    ensures var r := Laid(period, convs, stamps);
      (a, b) in r.cells ==> 1 <= a <= LastRow(convs, |stamps|) && 1 <= b <= r.maxCol
  {
    if stamps != [] {
      var k := |stamps| - 1;
      LaidLast(period, convs, stamps);
      var prev := Laid(period, convs, stamps[..k]);
      BlocksBound(period, convs, stamps[..k], a, b);
      BlocksCursor(period, convs, stamps[..k]);
      BlocksCursor(period, convs, stamps);
      LayoutBound(prev, convs[k], k + 1, stamps[k], a, b);
    }
  }

  /** The last block leaves the rows up to the last row of the blocks
      before it as they were. */
  lemma LaidKeeps(period: string, convs: seq<Conversation>, stamps: seq<seq<string>>, a: int, b: int)
    requires Stamped(convs, stamps) && stamps != [] && a <= LastRow(convs, |stamps| - 1)
    ensures Stamped(convs, stamps[..|stamps| - 1])
    ensures var r := Laid(period, convs, stamps).cells; var q := Laid(period, convs, stamps[..|stamps| - 1]).cells;
      && ((a, b) in r <==> (a, b) in q)
      && ((a, b) in q ==> r[(a, b)] == q[(a, b)])
  {
    var k := |stamps| - 1;
    LaidLast(period, convs, stamps);
    BlocksCursor(period, convs, stamps[..k]);
    LayoutKeeps(Laid(period, convs, stamps[..k]), convs[k], k + 1, stamps[k], a, b);
  }

  /** Writing blocks `j` onwards adds no cell to rows 1 to
      `LastRow(convs, j)` and removes none. */
  lemma {:induction false} BlocksKeepDomain(period: string, convs: seq<Conversation>, stamps: seq<seq<string>>, j: nat, a: int, b: int)
    requires Stamped(convs, stamps) && j <= |stamps| && a <= LastRow(convs, j)
    ensures Stamped(convs, stamps[..j])
    ensures (a, b) in Laid(period, convs, stamps).cells <==> (a, b) in Laid(period, convs, stamps[..j]).cells
    decreases |stamps|
  {
    if j == |stamps| {
      assert stamps[..j] == stamps;
    } else {
      var k := |stamps| - 1;
      LastRowGrows(convs, j, k);
      LaidKeeps(period, convs, stamps, a, b);
      PrefixOfPrefix(stamps, k, j);
      BlocksKeepDomain(period, convs, stamps[..k], j, a, b);
    }
  }

  /** Writing blocks `j` onwards keeps every cell of rows 1 to
      `LastRow(convs, j)` that the first `j` blocks wrote. */
  lemma {:induction false} BlocksKeepValue(period: string, convs: seq<Conversation>, stamps: seq<seq<string>>, j: nat, a: int, b: int)
    requires Stamped(convs, stamps) && j <= |stamps| && a <= LastRow(convs, j)
    ensures Stamped(convs, stamps[..j])
    ensures var r := Laid(period, convs, stamps).cells; var q := Laid(period, convs, stamps[..j]).cells;
      (a, b) in q ==> (a, b) in r && r[(a, b)] == q[(a, b)]
    decreases |stamps|
  {
    if j == |stamps| {
      assert stamps[..j] == stamps;
    } else {
      var k := |stamps| - 1;
      LastRowGrows(convs, j, k);
      LaidKeeps(period, convs, stamps, a, b);
      PrefixOfPrefix(stamps, k, j);
      BlocksKeepValue(period, convs, stamps[..k], j, a, b);
    }
  }

  /** Writing blocks `j` onwards leaves every cell of rows 1 to
      `LastRow(convs, j)` as the first `j` blocks left it. */
  lemma BlocksKeep(period: string, convs: seq<Conversation>, stamps: seq<seq<string>>, j: nat, a: int, b: int)
    requires Stamped(convs, stamps) && j <= |stamps| && a <= LastRow(convs, j)
    ensures Stamped(convs, stamps[..j])
    ensures var r := Laid(period, convs, stamps).cells; var q := Laid(period, convs, stamps[..j]).cells;
      && ((a, b) in r <==> (a, b) in q)
      && ((a, b) in q ==> r[(a, b)] == q[(a, b)])
  {
    BlocksKeepDomain(period, convs, stamps, j, a, b);
    BlocksKeepValue(period, convs, stamps, j, a, b);
  }

  /** Block `i` is laid out below the first `i` blocks as `BlockCells`
      shapes it. */
  lemma BlockShapedInLaid(period: string, convs: seq<Conversation>, stamps: seq<seq<string>>, i: nat, a: int, b: int)
    requires Stamped(convs, stamps) && i < |stamps|
    ensures Stamped(convs, stamps[..i]) && Stamped(convs, stamps[..i + 1])
    ensures ShapedAt(Laid(period, convs, stamps[..i + 1]).cells, Laid(period, convs, stamps[..i]).cells,
                     LastRow(convs, i) + 3, convs[i], i + 1, stamps[i], a, b)
  {
    LaidStep(period, convs, stamps, i);
    var prev := Laid(period, convs, stamps[..i]);
    var t := LastRow(convs, i) + 3;
    BlocksCursor(period, convs, stamps[..i]);
    BlockLayoutCells(prev, convs[i], i + 1, stamps[i]);
    assert Laid(period, convs, stamps[..i + 1]).cells == BlockCells(prev.cells, t, convs[i], i + 1, stamps[i]);
    BlockCellsAt(prev.cells, t, convs[i], i + 1, stamps[i], a, b);
  }

  /** Cell (a, b) of `r` is what block `index` puts there when its title
      row is `t`: the chat number and client phone in bold in row `t`, a
      blank row, the bold headers, and one wrapped row per message, and
      nothing else in the rows of the block. */
  ghost predicate BlockAt(r: map<(int, int), Cell>, t: int, conv: Conversation, index: nat, stamps: seq<string>, a: int, b: int)
    requires conv.messages != [] && |stamps| == |conv.messages|
  {
    var n := |conv.messages|;
    && ((a, b) in r <==> BlockCell(t, n, a, b))
    && (a == t && b == 1 ==> r[(a, b)] == Cell(ChatTitle(index), true, false))
    && (a == t && b == 2 ==> r[(a, b)] == Cell(ClientTitle(conv.clientPhone), true, false))
    && (a == t + 2 && 1 <= b <= |Headers| ==> r[(a, b)] == Cell(Headers[b - 1], true, false))
    && (t + 3 <= a <= t + 2 + n && 1 <= b <= |Headers| ==>
          var k := a - t - 3;
          r[(a, b)] == Cell(MessageRow(conv.messages[k], conv.clientPhone, BlockLanguage(conv), stamps[k])[b - 1], false, true))
  }

  /** A map that agrees at (a, b) with one the block shaped from cells
      without (a, b) holds there what the block puts there. */
  lemma ShapedFresh(r: map<(int, int), Cell>, q: map<(int, int), Cell>, prev: map<(int, int), Cell>,
                    t: int, conv: Conversation, index: nat, stamps: seq<string>, a: int, b: int)
    requires conv.messages != [] && |stamps| == |conv.messages|
    requires ShapedAt(q, prev, t, conv, index, stamps, a, b) && (a, b) !in prev
    requires ((a, b) in r <==> (a, b) in q) && ((a, b) in q ==> r[(a, b)] == q[(a, b)])
    ensures BlockAt(r, t, conv, index, stamps, a, b)
  {
  }

  /** The rows of block `i`, from the one after the last row of block
      `i - 1` to its last message row, hold what the block puts there, with
      its title row three rows below the previous block. */
  lemma BlockInPlace(period: string, convs: seq<Conversation>, stamps: seq<seq<string>>, i: nat, a: int, b: int)
    requires Stamped(convs, stamps) && i < |stamps|
    requires LastRow(convs, i) < a <= LastRow(convs, i + 1)
    ensures convs[i].messages != [] && |stamps[i]| == |convs[i].messages|
    ensures BlockAt(Laid(period, convs, stamps).cells, LastRow(convs, i) + 3, convs[i], i + 1, stamps[i], a, b)
  {
    BlocksKeep(period, convs, stamps, i + 1, a, b);
    BlockShapedInLaid(period, convs, stamps, i, a, b);
    BlocksBound(period, convs, stamps[..i], a, b);
    ShapedFresh(Laid(period, convs, stamps).cells, Laid(period, convs, stamps[..i + 1]).cells, Laid(period, convs, stamps[..i]).cells,
                LastRow(convs, i) + 3, convs[i], i + 1, stamps[i], a, b);
  }

  /** Every cell of row `a` of `r` is what the block puts there. */
  ghost predicate RowAt(r: map<(int, int), Cell>, t: int, conv: Conversation, index: nat, stamps: seq<string>, a: int)
    requires conv.messages != [] && |stamps| == |conv.messages|
  {
    forall b :: BlockAt(r, t, conv, index, stamps, a, b)
  }

  /** Every cell of a row of block `i` is what the block puts there. */
  lemma RowInPlace(period: string, convs: seq<Conversation>, stamps: seq<seq<string>>, i: nat, a: int)
    requires Stamped(convs, stamps) && i < |stamps|
    requires LastRow(convs, i) < a <= LastRow(convs, i + 1)
    ensures convs[i].messages != [] && |stamps[i]| == |convs[i].messages|
    ensures RowAt(Laid(period, convs, stamps).cells, LastRow(convs, i) + 3, convs[i], i + 1, stamps[i], a)
  {
    var r, t, index := Laid(period, convs, stamps).cells, LastRow(convs, i) + 3, i + 1;
    forall b
      ensures BlockAt(r, t, convs[i], index, stamps[i], a, b)
    {
      BlockInPlace(period, convs, stamps, i, a, b);
    }
  }

  /** The row of message `k` of a block, read off the block's cells in
      its five first columns. */
  lemma MessageCellsAt(r: map<(int, int), Cell>, t: int, conv: Conversation, index: nat, stamps: seq<string>, k: nat, a: int)
    requires conv.messages != [] && |stamps| == |conv.messages| && k < |stamps| && a == t + 3 + k
    requires RowAt(r, t, conv, index, stamps, a)
    ensures var row := MessageRow(conv.messages[k], conv.clientPhone, BlockLanguage(conv), stamps[k]);
      && (a, 1) in r && r[(a, 1)] == Cell(row[0], false, true)
      && (a, 2) in r && r[(a, 2)] == Cell(row[1], false, true)
      && (a, 3) in r && r[(a, 3)] == Cell(row[2], false, true)
      && (a, 4) in r && r[(a, 4)] == Cell(row[3], false, true)
      && (a, 5) !in r
  {
    assert BlockAt(r, t, conv, index, stamps, a, 1);
    assert BlockAt(r, t, conv, index, stamps, a, 2);
    assert BlockAt(r, t, conv, index, stamps, a, 3);
    assert BlockAt(r, t, conv, index, stamps, a, 4);
    assert BlockAt(r, t, conv, index, stamps, a, 5);
  }

  /** Message `k` of block `i` sits in row `LastRow(convs, i) + 6 + k`:
      its four wrapped cells, and no fifth. */
  lemma MessageInPlace(period: string, convs: seq<Conversation>, stamps: seq<seq<string>>, i: nat, k: nat)
    requires Stamped(convs, stamps) && i < |stamps| && k < |stamps[i]|
    ensures convs[i].messages != [] && |stamps[i]| == |convs[i].messages|
    ensures var r := Laid(period, convs, stamps).cells; var t := LastRow(convs, i) + 3; var conv := convs[i];
      var row := MessageRow(conv.messages[k], conv.clientPhone, BlockLanguage(conv), stamps[i][k]);
      && (t + 3 + k, 1) in r && r[(t + 3 + k, 1)] == Cell(row[0], false, true)
      && (t + 3 + k, 2) in r && r[(t + 3 + k, 2)] == Cell(row[1], false, true)
      && (t + 3 + k, 3) in r && r[(t + 3 + k, 3)] == Cell(row[2], false, true)
      && (t + 3 + k, 4) in r && r[(t + 3 + k, 4)] == Cell(row[3], false, true)
      && (t + 3 + k, 5) !in r
  {
    var t := LastRow(convs, i) + 3;
    RowInPlace(period, convs, stamps, i, t + 3 + k);
    MessageCellsAt(Laid(period, convs, stamps).cells, t, convs[i], i + 1, stamps[i], k, t + 3 + k);
  }

  /** Row 1 holds the period title in bold and nothing else. */
  lemma BlocksTitle(period: string, convs: seq<Conversation>, stamps: seq<seq<string>>, b: int)
    requires Stamped(convs, stamps)
    ensures var r := Laid(period, convs, stamps).cells;
      && ((1, b) in r <==> b == 1)
      && (1, 1) in r && r[(1, 1)] == Cell(PeriodTitle(period), true, false)
  {
    BlocksKeep(period, convs, stamps, 0, 1, b);
    BlocksKeep(period, convs, stamps, 0, 1, 1);
    assert stamps[..0] == [];
    assert Laid(period, convs, []).cells == map[(1, 1) := Cell(PeriodTitle(period), true, false)];
  }
}
