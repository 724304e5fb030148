/** The part of an openpyxl worksheet that the report uses: cells at
    (row, column) positions counted from 1, each with its value and the two
    style flags the report sets (a bold font, wrapped text), column widths
    and row heights, and the two row counters the layout reads.

    `current` is openpyxl's append cursor: creating a cell in row `row`
    raises it to `row`, and `ws.append(values)` writes fresh cells to row
    `current + 1` and moves the cursor there even when `values` is empty.
    `maxRow` and `maxCol` are `ws.max_row` and `ws.max_column`: the last row
    and column holding a cell, or 1 on an empty sheet. A cell whose value
    is None holds the empty string here. */
module Sheets {
  import opened Text

  datatype Cell = Cell(value: string, bold: bool, wrapped: bool)

  /** A cell as `ws.cell` or `ws.append` creates it: default font and
      alignment. */
  function Plain(v: string): Cell { Cell(v, false, false) }

  datatype Sheet = Sheet(
    cells: map<(int, int), Cell>,
    current: nat,
    maxRow: nat,
    maxCol: nat,
    widths: map<int, nat>,
    heights: map<int, nat>)

  /** A new workbook's active sheet. */
  const Blank: Sheet := Sheet(map[], 0, 1, 1, map[], map[])

  /** `maxRow` and `maxCol` are what openpyxl computes from the cells, and
      the cursor is at or below every cell. The `Sheet` operations keep the
      extent incrementally; `BlankWellFormed`, `PutCellWellFormed` and
      `AppendRowWellFormed` justify that bookkeeping, showing that the
      incremental `maxRow` and `maxCol` are the ones openpyxl computes. The
      other contracts state only the `maxRow`/`maxCol` bounds they need. */
  ghost predicate WellFormed(s: Sheet)
  {
    && s.maxRow >= 1 && s.maxCol >= 1
    && (forall r, c :: (r, c) in s.cells ==> 1 <= r <= s.maxRow && 1 <= c <= s.maxCol)
    && (s.cells == map[] ==> s.maxRow == 1 && s.maxCol == 1)
    && (s.cells != map[] ==>
          && s.maxRow <= s.current
          && (exists c :: (s.maxRow, c) in s.cells)
          && (exists r :: (r, s.maxCol) in s.cells))
  }

  /** The cell at `p`, as `ws.cell` finds or creates it. */
  function CellAt(cells: map<(int, int), Cell>, p: (int, int)): Cell
  {
    if p in cells then cells[p] else Plain("")
  }

  /** `cs` written to columns 1.. of `row` as fresh cells. */
  function PutRow(cells: map<(int, int), Cell>, row: int, cs: seq<Cell>): map<(int, int), Cell>
  {
    if cs == [] then cells
    else PutRow(cells, row, cs[..|cs| - 1])[(row, |cs|) := cs[|cs| - 1]]
  }

  /** `PutRow` for consecutive rows from `first` on, one per entry of `table`. */
  function PutRows(cells: map<(int, int), Cell>, first: int, table: seq<seq<Cell>>): map<(int, int), Cell>
  {
    if table == [] then cells
    else
      var k := |table| - 1;
      PutRow(PutRows(cells, first, table[..k]), first + k, table[k])
  }

  /** Cells holding `vals`, all with the same style. */
  function Styled(vals: seq<string>, bold: bool, wrapped: bool): (cs: seq<Cell>)
    ensures |cs| == |vals|
  {
    if vals == [] then [] else Styled(vals[..|vals| - 1], bold, wrapped) + [Cell(vals[|vals| - 1], bold, wrapped)]
  }

  /** Cell `i` of `Styled(vals, bold, wrapped)` holds `vals[i]`. */
  lemma {:induction false} StyledAt(vals: seq<string>, bold: bool, wrapped: bool, i: int)
    requires 0 <= i < |vals|
    ensures Styled(vals, bold, wrapped)[i] == Cell(vals[i], bold, wrapped)
  {
    if i < |vals| - 1 {
      StyledAt(vals[..|vals| - 1], bold, wrapped, i);
    }
  }

  /** One more value adds one more cell to the row `PutRow` writes. */
  lemma StyledStep(cells: map<(int, int), Cell>, row: int, vals: seq<string>, i: nat)
    requires i < |vals|
    ensures PutRow(cells, row, Styled(vals[..i + 1], false, false))
         == PutRow(cells, row, Styled(vals[..i], false, false))[(row, i + 1) := Plain(vals[i])]
  {
    var cs := Styled(vals[..i + 1], false, false);
    assert vals[..i + 1][..i] == vals[..i];
    assert cs == Styled(vals[..i], false, false) + [Plain(vals[i])];
    assert cs[..i] == Styled(vals[..i], false, false);
  }

  /** Cell (row, col) replaced by `c`, found or created as `ws.cell(row,
      col)` does: creating it raises the cursor and the extent. */
  function PutCell(s: Sheet, row: int, col: int, c: Cell): Sheet
  {
    s.(cells := s.cells[(row, col) := c],
       current := Max(s.current, row),
       maxRow := Max(s.maxRow, row),
       maxCol := Max(s.maxCol, col))
  }

  /** `ws.cell(row=row, column=col, value=v)`: sets the value and keeps the
      style of an existing cell. */
  function WriteCell(s: Sheet, row: int, col: int, v: string): Sheet
  {
    PutCell(s, row, col, CellAt(s.cells, (row, col)).(value := v))
  }

  /** `ws.append(vals)`: writes fresh cells to the row after the cursor and
      moves the cursor there. */
  function AppendRow(s: Sheet, vals: seq<string>): Sheet
  {
    var row := s.current + 1;
    s.(cells := PutRow(s.cells, row, Styled(vals, false, false)),
       current := row,
       maxRow := if vals == [] then s.maxRow else Max(s.maxRow, row),
       maxCol := if vals == [] then s.maxCol else Max(s.maxCol, |vals|))
  }

  /** `ws.cell(row, col).font = Font(bold=True)`. */
  function Embolden(s: Sheet, row: int, col: int): Sheet
  {
    PutCell(s, row, col, CellAt(s.cells, (row, col)).(bold := true))
  }

  /** `ws.cell(row, col).alignment = Alignment(wrap_text=True, vertical="top")`. */
  function Wrap(s: Sheet, row: int, col: int): Sheet
  {
    PutCell(s, row, col, CellAt(s.cells, (row, col)).(wrapped := true))
  }

  /** Columns 1 to `n` of `row` made bold, one cell after the other. */
  function EmboldenRow(s: Sheet, row: int, n: int): Sheet
  {
    if n <= 0 then s else Embolden(EmboldenRow(s, row, n - 1), row, n)
  }

  /** Columns 1 to `n` of `row` wrapped, one cell after the other. */
  function WrapRow(s: Sheet, row: int, n: int): Sheet
  {
    if n <= 0 then s else Wrap(WrapRow(s, row, n - 1), row, n)
  }

  /** Cell (a, b) after `PutRow`. */
  lemma {:induction false} PutRowAt(cells: map<(int, int), Cell>, row: int, cs: seq<Cell>, a: int, b: int)
    ensures var m := PutRow(cells, row, cs);
      && ((a, b) in m <==> (a, b) in cells || (a == row && 1 <= b <= |cs|))
      && (a == row && 1 <= b <= |cs| ==> m[(a, b)] == cs[b - 1])
      && ((a, b) in cells && !(a == row && 1 <= b <= |cs|) ==> m[(a, b)] == cells[(a, b)])
  {
    if cs != [] {
      PutRowAt(cells, row, cs[..|cs| - 1], a, b);
    }
  }

  /** Cell (a, b) after `PutRows`: row `first + i` holds `table[i]`, every
      other cell is left as it was. */
  lemma {:induction false} PutRowsAt(cells: map<(int, int), Cell>, first: int, table: seq<seq<Cell>>, a: int, b: int)
    ensures var m := PutRows(cells, first, table);
      var inTable := first <= a < first + |table| && 1 <= b <= |table[a - first]|;
      && ((a, b) in m <==> (a, b) in cells || inTable)
      && (inTable ==> m[(a, b)] == table[a - first][b - 1])
      && ((a, b) in cells && !inTable ==> m[(a, b)] == cells[(a, b)])
  {
    if table != [] {
      var k := |table| - 1;
      PutRowsAt(cells, first, table[..k], a, b);
      PutRowAt(PutRows(cells, first, table[..k]), first + k, table[k], a, b);
    }
  }

  /** Styling columns 1 to `n` of a row moves the counters as `ws.cell`
      does and changes nothing else but the cells. */
  lemma {:induction false} StyleRowCounters(s: Sheet, row: int, n: int)
    requires n >= 1
    ensures var e := EmboldenRow(s, row, n); var w := WrapRow(s, row, n);
      && e.current == w.current == Max(s.current, row)
      && e.maxRow == w.maxRow == Max(s.maxRow, row)
      && e.maxCol == w.maxCol == Max(s.maxCol, n)
      && e.widths == w.widths == s.widths && e.heights == w.heights == s.heights
  {
    if n > 1 {
      StyleRowCounters(s, row, n - 1);
    }
  }

  /** Making columns 1 to `n` of a row bold changes only the font of those
      cells, creating the missing ones. */
  lemma {:induction false} EmboldenRowAt(s: Sheet, row: int, n: int, a: int, b: int)
    ensures var e := EmboldenRow(s, row, n).cells; var styled := a == row && 1 <= b <= n;
      && ((a, b) in e <==> (a, b) in s.cells || styled)
      && (styled ==> e[(a, b)] == CellAt(s.cells, (a, b)).(bold := true))
      && ((a, b) in s.cells && !styled ==> e[(a, b)] == s.cells[(a, b)])
  {
    if n > 0 {
      EmboldenRowAt(s, row, n - 1, a, b);
    }
  }

  /** Wrapping columns 1 to `n` of a row changes only the alignment of
      those cells, creating the missing ones. */
  lemma {:induction false} WrapRowAt(s: Sheet, row: int, n: int, a: int, b: int)
    ensures var w := WrapRow(s, row, n).cells; var styled := a == row && 1 <= b <= n;
      && ((a, b) in w <==> (a, b) in s.cells || styled)
      && (styled ==> w[(a, b)] == CellAt(s.cells, (a, b)).(wrapped := true))
      && ((a, b) in s.cells && !styled ==> w[(a, b)] == s.cells[(a, b)])
  {
    if n > 0 {
      WrapRowAt(s, row, n - 1, a, b);
    }
  }

  lemma BlankWellFormed()
    ensures WellFormed(Blank)
  {
  }

  /** Writing or styling one cell keeps a sheet well formed. */
  lemma PutCellWellFormed(s: Sheet, row: int, col: int, c: Cell)
    requires WellFormed(s) && row >= 1 && col >= 1
    ensures WellFormed(PutCell(s, row, col, c))
  {
    var r := PutCell(s, row, col, c);
    if r.maxRow == row {
      assert (r.maxRow, col) in r.cells;
    }
    if r.maxCol == col {
      assert (row, r.maxCol) in r.cells;
    }
  }

  /** The row `ws.append` writes lies below every cell of a well-formed
      sheet, so the sheet stays well formed and no cell is replaced. */
  lemma AppendRowWellFormed(s: Sheet, vals: seq<string>)
    requires WellFormed(s)
    ensures WellFormed(AppendRow(s, vals))
    ensures forall a, b :: (a, b) in s.cells ==> (a, b) in AppendRow(s, vals).cells && AppendRow(s, vals).cells[(a, b)] == s.cells[(a, b)]
  {
    var row := s.current + 1;
    var m := AppendRow(s, vals).cells;
    forall a, b
      ensures (a, b) in m <==> (a, b) in s.cells || (a == row && 1 <= b <= |vals|)
      ensures (a, b) in s.cells ==> m[(a, b)] == s.cells[(a, b)]
    {
      PutRowAt(s.cells, row, Styled(vals, false, false), a, b);
    }
    if vals != [] {
      assert (row, 1) in m && (row, |vals|) in m;
    }
  }

  /** The worksheet object the report fills in place. */
  class Worksheet {
    var cells: map<(int, int), Cell>
    var current: nat
    var maxRow: nat
    var maxCol: nat
    var widths: map<int, nat>
    var heights: map<int, nat>

    function State(): Sheet
      reads this
    {
      Sheet(cells, current, maxRow, maxCol, widths, heights)
    }

    constructor ()
      ensures State() == Blank
    {
      cells := map[];
      current, maxRow, maxCol := 0, 1, 1;
      widths, heights := map[], map[];
    }

    /** `ws.cell(row=row, column=col, value=v)`. */
    method Cell(row: int, col: int, v: string)
      modifies this
      ensures State() == WriteCell(old(State()), row, col, v)
    {
      cells := cells[(row, col) := CellAt(cells, (row, col)).(value := v)];
      current := Max(current, row);
      maxRow := Max(maxRow, row);
      maxCol := Max(maxCol, col);
    }

    /** `ws.append(vals)`. */
    method Append(vals: seq<string>)
      modifies this
      ensures State() == AppendRow(old(State()), vals)
    {
      var row := current + 1;
      var written := cells;
      assert Styled([], false, false) == [];
      var i := 0;
      while i < |vals|
        invariant 0 <= i <= |vals|
        invariant written == PutRow(old(cells), row, Styled(vals[..i], false, false))
        invariant unchanged(this)
      {
        StyledStep(old(cells), row, vals, i);
        written := written[(row, i + 1) := Plain(vals[i])];
        i := i + 1;
      }
      assert vals[..i] == vals;
      cells := written;
      current := row;
      if vals != [] {
        maxRow := Max(maxRow, row);
        maxCol := Max(maxCol, |vals|);
      }
    }

    /** `ws.cell(row, col).font = Font(bold=True)`. */
    method SetBold(row: int, col: int)
      modifies this
      ensures State() == Embolden(old(State()), row, col)
    {
      cells := cells[(row, col) := CellAt(cells, (row, col)).(bold := true)];
      current := Max(current, row);
      maxRow := Max(maxRow, row);
      maxCol := Max(maxCol, col);
    }

    /** `ws.cell(row, col).alignment = Alignment(wrap_text=True, vertical="top")`. */
    method SetWrap(row: int, col: int)
      modifies this
      ensures State() == Wrap(old(State()), row, col)
    {
      cells := cells[(row, col) := CellAt(cells, (row, col)).(wrapped := true)];
      current := Max(current, row);
      maxRow := Max(maxRow, row);
      maxCol := Max(maxCol, col);
    }

    method SetWidth(col: int, w: nat)
      modifies this
      ensures State() == old(State()).(widths := old(widths)[col := w])
    {
      widths := widths[col := w];
    }

    method SetHeight(row: int, h: nat)
      modifies this
      ensures State() == old(State()).(heights := old(heights)[row := h])
    {
      heights := heights[row := h];
    }
  }
}
