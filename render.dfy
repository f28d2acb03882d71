/**
 * One leaf's metadata row, as `drawMetadata` paints it: columns left to
 * right, one block per column the leaf has a value for, a cursor that
 * advances for every column, and a hit-test cell for every block.
 */
module Render {
  import opened Wrappers
  import opened Numbers
  import opened Model
  import opened Layout

  /** What stays fixed while one leaf's columns are painted. */
  datatype LeafLayout = LeafLayout(
    leaf: Leaf,
    top: real,                  // ty: the block's top, relative to the leaf
    size: real,                 // the resolved block size
    stepCorrection: real,       // extra height per column index
    blockLength: real,
    padding: real,
    showLabels: bool,
    widths: map<string, real>,  // _maxLabelWidth
    fillStyle: string,
    font: string)

  /** How far the cursor moves past column `c`, whether or not it is drawn. */
  function Advance(L: LeafLayout, c: string): Num
  {
    if L.showLabels then Plus(Finite(L.blockLength + L.padding), WidthOf(L.widths, c))
    else Finite(L.blockLength + L.padding)
  }

  /** The cursor movement over a run of columns. */
  function SumAdvance(L: LeafLayout, cols: seq<string>): Num
  {
    if cols == [] then Finite(0.0) else Plus(Advance(L, cols[0]), SumAdvance(L, cols[1..]))
  }

  /** Column `c` gets a block: the leaf has a value for it and is not transparent. */
  predicate Shown(L: LeafLayout, c: string)
  {
    Lookup(L.leaf.data, c).Some? && !L.leaf.transparent
  }

  /** `value.colour || value`; `None` when the assigned value is not a string. */
  function FillStyleOf(v: ColumnValue): Option<string>
  {
    match v
    case Colour(c) => Some(c)
    case Labelled(c, _) => if c != "" then Some(c) else None
  }

  /** The cell recorded for column `c` drawn at cursor `x` as the `i`-th column. */
  function CellFor(L: LeafLayout, c: string, x: Num, i: int): Cell
    requires Shown(L, c)
  {
    Cell(Plus(x, Finite(L.leaf.centerX)), L.top + L.leaf.centerY, L.blockLength,
         L.size + (i as real) * L.stepCorrection, c, Lookup(L.leaf.data, c).value, L.leaf.id)
  }

  /** The cell column `c` records: one when it is shown, none otherwise. */
  function HereCells(L: LeafLayout, c: string, x: Num, i: int): seq<Cell>
  {
    if Shown(L, c) then [CellFor(L, c, x, i)] else []
  }

  /** The cells recorded for `cols`, the first drawn at cursor `x` as the `i`-th column. */
  function RowCells(L: LeafLayout, cols: seq<string>, x: Num, i: int): seq<Cell>
  {
    if cols == [] then []
    else HereCells(L, cols[0], x, i) + RowCells(L, cols[1..], Plus(x, Advance(L, cols[0])), i + 1)
  }

  /** The block, and the label when one is due, painted for a shown column. */
  function ColumnOps(L: LeafLayout, c: string, x: Num, i: int): seq<Op>
    requires Shown(L, c)
  {
    var v := Lookup(L.leaf.data, c).value;
    [Block(x, L.top, L.blockLength, L.size + (i as real) * L.stepCorrection, FillStyleOf(v))]
    + (if L.showLabels && v.Labelled? && v.text.Some?
       then [Label(v.text.value, Plus(x, Finite(L.blockLength + L.padding / 4.0)), L.top + L.size / 2.0,
                   L.font, L.fillStyle)]
       else [])
  }

  /** The operations column `c` paints: its block and label when it is shown, nothing otherwise. */
  function HereOps(L: LeafLayout, c: string, x: Num, i: int): seq<Op>
  {
    if Shown(L, c) then ColumnOps(L, c, x, i) else []
  }

  /** The paint operations issued for `cols`. */
  function RowOps(L: LeafLayout, cols: seq<string>, x: Num, i: int): seq<Op>
  {
    if cols == [] then []
    else HereOps(L, cols[0], x, i) + RowOps(L, cols[1..], Plus(x, Advance(L, cols[0])), i + 1)
  }

  /** `SumAdvance` over a prefix, extended by one column. */
  lemma {:induction false} SumAdvanceSnoc(L: LeafLayout, cols: seq<string>, j: nat)
    requires j < |cols|
    ensures SumAdvance(L, cols[..j + 1]) == Plus(SumAdvance(L, cols[..j]), Advance(L, cols[j]))
  {
    if j == 0 {
      assert cols[..1][1..] == [];
      PlusZero(Advance(L, cols[0]));
    } else {
      assert cols[..j + 1][1..] == cols[1..][..j];
      assert cols[..j][1..] == cols[1..][..j - 1];
      SumAdvanceSnoc(L, cols[1..], j - 1);
      PlusAssoc(Advance(L, cols[0]), SumAdvance(L, cols[1..][..j - 1]), Advance(L, cols[j]));
    }
  }

  /**
   * The cells of a row stated column by column, from column `j` on: column
   * `k` is drawn, when shown, at the start plus the advance over ALL earlier
   * columns (drawn or not), as the `(i + k)`-th column.
   */
  function CellsFrom(L: LeafLayout, cols: seq<string>, x: Num, i: int, j: nat): seq<Cell>
    decreases |cols| - j
  {
    if j >= |cols| then []
    else
      (if Shown(L, cols[j]) then [CellFor(L, cols[j], Plus(x, SumAdvance(L, cols[..j])), i + j)] else [])
      + CellsFrom(L, cols, x, i, j + 1)
  }

  lemma {:induction false} RowCellsSuffix(L: LeafLayout, cols: seq<string>, x: Num, i: int, j: nat)
    requires j <= |cols|
    ensures RowCells(L, cols[j..], Plus(x, SumAdvance(L, cols[..j])), i + j) == CellsFrom(L, cols, x, i, j)
    decreases |cols| - j
  {
    if j < |cols| {
      RowCellsSuffix(L, cols, x, i, j + 1);
      assert cols[j..][1..] == cols[j + 1..];
      SumAdvanceSnoc(L, cols, j);
      PlusAssoc(x, SumAdvance(L, cols[..j]), Advance(L, cols[j]));
    }
  }

  /**
   * The cells `drawMetadata` records for a leaf, column by column: exactly
   * one per shown column, in column order, with the cursor of that column.
   */
  lemma RowCellsClosedForm(L: LeafLayout, cols: seq<string>, x: Num, i: int)
    ensures RowCells(L, cols, x, i) == CellsFrom(L, cols, x, i, 0)
  {
    RowCellsSuffix(L, cols, x, i, 0);
    assert cols[0..] == cols && cols[..0] == [];
    PlusZero(x);
  }

  /** The columns of `cols` that get a block, in order. */
  function ShownColumns(L: LeafLayout, cols: seq<string>): (shown: seq<string>)
    ensures forall c :: c in shown <==> c in cols && Shown(L, c)
  {
    if cols == [] then []
    else (if Shown(L, cols[0]) then [cols[0]] else []) + ShownColumns(L, cols[1..])
  }

  /** The column names of a sequence of cells, in order. */
  function ColumnsOf(cells: seq<Cell>): (names: seq<string>)
    ensures |names| == |cells|
    ensures forall k :: 0 <= k < |cells| ==> names[k] == cells[k].columnName
  {
    if cells == [] then [] else [cells[0].columnName] + ColumnsOf(cells[1..])
  }

  lemma {:induction false} ColumnsOfAppend(a: seq<Cell>, b: seq<Cell>)
    ensures ColumnsOf(a + b) == ColumnsOf(a) + ColumnsOf(b)
  {
    if a == [] {
      assert a + b == b;
    } else {
      assert (a + b)[1..] == a[1..] + b;
      ColumnsOfAppend(a[1..], b);
    }
  }

  /** A row records exactly one cell per shown column, in column order. */
  lemma {:induction false} RowCellsColumns(L: LeafLayout, cols: seq<string>, x: Num, i: int)
    ensures ColumnsOf(RowCells(L, cols, x, i)) == ShownColumns(L, cols)
  {
    if cols != [] {
      var next := Plus(x, Advance(L, cols[0]));
      RowCellsColumns(L, cols[1..], next, i + 1);
      ColumnsOfAppend(HereCells(L, cols[0], x, i), RowCells(L, cols[1..], next, i + 1));
    }
  }

  /** Every recorded cell is one block wide, belongs to the leaf and carries that column's value. */
  lemma {:induction false} RowCellsShape(L: LeafLayout, cols: seq<string>, x: Num, i: int)
    ensures forall c :: c in RowCells(L, cols, x, i) ==>
              && c.w == L.blockLength
              && c.leaf == L.leaf.id
              && c.columnName in cols
              && Shown(L, c.columnName)
              && Lookup(L.leaf.data, c.columnName) == Some(c.data)
              && c.y == L.top + L.leaf.centerY
    ensures |RowCells(L, cols, x, i)| <= |cols|
    ensures L.leaf.transparent ==> RowCells(L, cols, x, i) == []
  {
    if cols != [] {
      RowCellsShape(L, cols[1..], Plus(x, Advance(L, cols[0])), i + 1);
    }
  }

  /** The cursor movement in closed form: every column moves it, drawn or not. */
  lemma {:induction false} SumAdvanceClosedForm(L: LeafLayout, cols: seq<string>)
    ensures !L.showLabels ==> SumAdvance(L, cols) == Finite(Span(|cols|, L.blockLength + L.padding))
    ensures L.showLabels && (forall c :: c in cols ==> c in L.widths) ==>
              SumAdvance(L, cols) == Finite(Span(|cols|, L.blockLength + L.padding) + WidthSum(L.widths, cols))
    ensures L.showLabels && (exists c :: c in cols && c !in L.widths) ==> SumAdvance(L, cols) == NaN
  {
    if cols != [] {
      SumAdvanceClosedForm(L, cols[1..]);
      SpanStep(|cols[1..]|, L.blockLength + L.padding);
      assert forall c :: c in cols[1..] ==> c in cols;
      if L.showLabels && (exists c :: c in cols && c !in L.widths) && cols[0] in L.widths {
        var c :| c in cols && c !in L.widths;
        assert c in cols[1..];
      }
    }
  }

  /** The sum of the measured widths of `cols`. */
  function WidthSum(widths: map<string, real>, cols: seq<string>): real
    requires forall c :: c in cols ==> c in widths
  {
    if cols == [] then 0.0 else widths[cols[0]] + WidthSum(widths, cols[1..])
  }

  /** The last width splits off the end of the sum. */
  lemma {:induction false} WidthSumSnoc(widths: map<string, real>, cols: seq<string>)
    requires cols != []
    requires forall c :: c in cols ==> c in widths
    ensures forall c :: c in cols[..|cols| - 1] ==> c in widths
    ensures WidthSum(widths, cols) == WidthSum(widths, cols[..|cols| - 1]) + widths[cols[|cols| - 1]]
  {
    assert forall c :: c in cols[..|cols| - 1] ==> c in cols;
    if |cols| > 1 {
      var rest := cols[1..];
      WidthSumSnoc(widths, rest);
      assert rest[..|rest| - 1] == cols[..|cols| - 1][1..];
      assert rest[|rest| - 1] == cols[|cols| - 1];
    }
  }

  /** A row paints blocks and labels only, never a heading. */
  lemma {:induction false} RowOpsNoHeading(L: LeafLayout, cols: seq<string>, x: Num, i: int)
    ensures forall op :: op in RowOps(L, cols, x, i) ==> !op.Heading?
  {
    if cols != [] {
      RowOpsNoHeading(L, cols[1..], Plus(x, Advance(L, cols[0])), i + 1);
    }
  }

  /** The recorded cells stay on track when one column's cells are appended. */
  lemma CellsStep(L: LeafLayout, cols: seq<string>, n: nat, x: Num, i: int, cells: seq<Cell>, whole: seq<Cell>)
    requires n < |cols|
    requires cells + RowCells(L, cols[n..], x, i) == whole
    ensures (cells + HereCells(L, cols[n], x, i)) + RowCells(L, cols[n + 1..], Plus(x, Advance(L, cols[n])), i + 1) == whole
  {
    assert cols[n..][1..] == cols[n + 1..];
  }

  /** The issued operations stay on track when one column's operations are appended. */
  lemma OpsStep(L: LeafLayout, cols: seq<string>, n: nat, x: Num, i: int, ops: seq<Op>, whole: seq<Op>)
    requires n < |cols|
    requires ops + RowOps(L, cols[n..], x, i) == whole
    ensures (ops + HereOps(L, cols[n], x, i)) + RowOps(L, cols[n + 1..], Plus(x, Advance(L, cols[n])), i + 1) == whole
  {
    assert cols[n..][1..] == cols[n + 1..];
  }

  /** The cursor stays on track when it advances past one column. */
  lemma CursorStep(L: LeafLayout, cols: seq<string>, n: nat, x: Num, whole: Num)
    requires n < |cols|
    requires Plus(x, SumAdvance(L, cols[n..])) == whole
    ensures Plus(Plus(x, Advance(L, cols[n])), SumAdvance(L, cols[n + 1..])) == whole
  {
    assert cols[n..][1..] == cols[n + 1..];
    PlusAssoc(x, Advance(L, cols[n]), SumAdvance(L, cols[n + 1..]));
  }

  /**
   * The body of the column loop for the column at cursor `tx` with counter
   * `i`: when the leaf has a value and is not transparent, a block (and the
   * label, if due) is painted and a cell recorded.
   */
  method PaintColumn(L: LeafLayout, columnName: string, tx: Num, i: int) returns (cells: seq<Cell>, ops: seq<Op>)
    ensures cells == HereCells(L, columnName, tx, i)
    ensures ops == HereOps(L, columnName, tx, i)
  {
    cells, ops := [], [];
    var v := Lookup(L.leaf.data, columnName);
    if v.Some? && !L.leaf.transparent {
      var h := L.size + (i as real) * L.stepCorrection;
      ops := [Block(tx, L.top, L.blockLength, h, FillStyleOf(v.value))];
      var cell := Cell(Plus(tx, Finite(L.leaf.centerX)), L.top + L.leaf.centerY, L.blockLength, h,
                       columnName, v.value, L.leaf.id);
      assert cell == CellFor(L, columnName, tx, i);
      cells := [cell];
      if L.showLabels && v.value.Labelled? && v.value.text.Some? {
        ops := ops + [Label(v.value.text.value, Plus(tx, Finite(L.blockLength + L.padding / 4.0)),
                            L.top + L.size / 2.0, L.font, L.fillStyle)];
      }
    }
  }

  /** The cursor step at the end of the loop body: the block, the padding, and the label width when labels show. */
  method StepCursor(L: LeafLayout, columnName: string, tx: Num) returns (next: Num)
    ensures next == Plus(tx, Advance(L, columnName))
  {
    next := Plus(tx, Finite(L.blockLength + L.padding));
    if L.showLabels {
      PlusAssoc(tx, Finite(L.blockLength + L.padding), WidthOf(L.widths, columnName));
      next := Plus(next, WidthOf(L.widths, columnName));
    }
  }

  /**
   * The column loop of `drawMetadata`: the cursor `tx` and the counter `i`
   * (from 1) step through `cols`, and every column advances the cursor.
   * Returns the cells, the paint operations and the final cursor.
   */
  method PaintRow(L: LeafLayout, cols: seq<string>, start: Num) returns (cells: seq<Cell>, ops: seq<Op>, tx: Num)
    ensures cells == RowCells(L, cols, start, 1)
    ensures ops == RowOps(L, cols, start, 1)
    ensures tx == Plus(start, SumAdvance(L, cols))
  {
    cells, ops, tx := [], [], start;
    var i := 1;
    var n := 0;
    while n < |cols|
      invariant 0 <= n <= |cols|
      invariant i == n + 1
      invariant cells + RowCells(L, cols[n..], tx, i) == RowCells(L, cols, start, 1)
      invariant ops + RowOps(L, cols[n..], tx, i) == RowOps(L, cols, start, 1)
      invariant Plus(tx, SumAdvance(L, cols[n..])) == Plus(start, SumAdvance(L, cols))
    {
      CellsStep(L, cols, n, tx, i, cells, RowCells(L, cols, start, 1));
      OpsStep(L, cols, n, tx, i, ops, RowOps(L, cols, start, 1));
      CursorStep(L, cols, n, tx, Plus(start, SumAdvance(L, cols)));
      var cellsHere, opsHere := PaintColumn(L, cols[n], tx, i);
      var next := StepCursor(L, cols[n], tx);
      cells := cells + cellsHere;
      ops := ops + opsHere;
      tx := next;
      i := i + 1;
      n := n + 1;
    }
    assert cols[n..] == [];
    PlusZero(tx);
  }
}
