/** `findMetadataBlock`: the first recorded cell whose closed rectangle holds a point. */
module HitTest {
  import opened Wrappers
  import opened Model
  import opened BlockIndex

  /** The closed rectangle of the cell holds the point; a cell whose x is NaN holds none. */
  predicate Contains(cell: Cell, x: real, y: real)
  {
    && cell.x.Finite?
    && x >= cell.x.val && x <= cell.x.val + cell.w
    && y >= cell.y && y <= cell.y + cell.h
  }

  /** Every cell of the index, leaf by leaf in enumeration order. */
  function AllCells(b: seq<Row>): seq<Cell>
  {
    if b == [] then [] else b[0].cells + AllCells(b[1..])
  }

  /** The first cell, in order, that holds the point. */
  function FirstHit(cells: seq<Cell>, x: real, y: real): Option<Cell>
  {
    if cells == [] then None
    else if Contains(cells[0], x, y) then Some(cells[0])
    else FirstHit(cells[1..], x, y)
  }

  /**
   * The first hit is a cell of the sequence that holds the point and no
   * earlier cell holds it; there is no hit exactly when no cell holds it.
   */
  lemma {:induction false} FirstHitSpec(cells: seq<Cell>, x: real, y: real)
    ensures FirstHit(cells, x, y).None? <==> forall k :: 0 <= k < |cells| ==> !Contains(cells[k], x, y)
    ensures FirstHit(cells, x, y).Some? ==>
              exists k :: 0 <= k < |cells| && cells[k] == FirstHit(cells, x, y).value
                          && Contains(cells[k], x, y)
                          && forall j :: 0 <= j < k ==> !Contains(cells[j], x, y)
  {
    if cells != [] && !Contains(cells[0], x, y) {
      FirstHitSpec(cells[1..], x, y);
      assert forall k :: 1 <= k < |cells| ==> cells[k] == cells[1..][k - 1];
      if FirstHit(cells, x, y).Some? {
        var k :| 0 <= k < |cells[1..]| && cells[1..][k] == FirstHit(cells, x, y).value
                 && Contains(cells[1..][k], x, y)
                 && forall j :: 0 <= j < k ==> !Contains(cells[1..][j], x, y);
        assert cells[k + 1] == cells[1..][k];
        assert forall j :: 1 <= j < k + 1 ==> cells[j] == cells[1..][j - 1];
      }
    } else if cells != [] {
      assert cells[0] == FirstHit(cells, x, y).value;
    }
  }

  lemma {:induction false} FirstHitAppend(a: seq<Cell>, b: seq<Cell>, x: real, y: real)
    ensures FirstHit(a + b, x, y) == if FirstHit(a, x, y).Some? then FirstHit(a, x, y) else FirstHit(b, x, y)
  {
    if a == [] {
      assert a + b == b;
    } else {
      assert (a + b)[0] == a[0];
      assert (a + b)[1..] == a[1..] + b;
      FirstHitAppend(a[1..], b, x, y);
    }
  }

  /** The linear scan: rows in enumeration order, cells in drawing order, return on the first hit. */
  method FindMetadataBlock(blocks: seq<Row>, x: real, y: real) returns (r: Option<Cell>)
    ensures r == FirstHit(AllCells(blocks), x, y)
  {
    var n := 0;
    while n < |blocks|
      invariant 0 <= n <= |blocks|
      invariant FirstHit(AllCells(blocks), x, y) == FirstHit(AllCells(blocks[n..]), x, y)
    {
      var row := blocks[n].cells;
      assert blocks[n..][1..] == blocks[n + 1..];
      FirstHitAppend(row, AllCells(blocks[n + 1..]), x, y);
      var j := 0;
      while j < |row|
        invariant 0 <= j <= |row|
        invariant FirstHit(row, x, y) == FirstHit(row[j..], x, y)
      {
        var cell := row[j];
        if Contains(cell, x, y) {
          return Some(cell);
        }
        assert row[j..][1..] == row[j + 1..];
        j := j + 1;
      }
      n := n + 1;
    }
    return None;
  }
}
