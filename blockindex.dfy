/**
 * The hit-test index `_blockCoords`: an object whose own properties map a
 * leaf id to the cells drawn for that leaf, kept in the order the
 * properties were first created.
 */
module BlockIndex {
  import opened Wrappers
  import opened Model

  /** One own property of the index: a leaf id and that leaf's cells. */
  datatype Row = Row(id: string, cells: seq<Cell>)

  /** The property names, in enumeration order. */
  function Ids(b: seq<Row>): (ids: seq<string>)
    ensures |ids| == |b|
    ensures forall i :: 0 <= i < |b| ==> ids[i] == b[i].id
  {
    if b == [] then [] else [b[0].id] + Ids(b[1..])
  }

  /** Property names are unique. */
  predicate DistinctIds(b: seq<Row>)
  {
    var ids := Ids(b);
    forall i, j :: 0 <= i < j < |ids| ==> ids[i] != ids[j]
  }

  /** `blocks[id]`; `None` for `undefined`. */
  function Get(b: seq<Row>, id: string): (r: Option<seq<Cell>>)
    ensures r.None? <==> id !in Ids(b)
  {
    if b == [] then None
    else if b[0].id == id then Some(b[0].cells)
    else Get(b[1..], id)
  }

  /** `blocks[id] = cells`: an existing property keeps its place, a new one goes last. */
  function Put(b: seq<Row>, id: string, cells: seq<Cell>): (r: seq<Row>)
    ensures |r| == if id in Ids(b) then |b| else |b| + 1
  {
    if b == [] then [Row(id, cells)]
    else if b[0].id == id then [Row(id, cells)] + b[1..]
    else
      assert Ids(b) == [b[0].id] + Ids(b[1..]);
      [b[0]] + Put(b[1..], id, cells)
  }

  /** After `blocks[id] = cells`, `blocks[id]` is `cells` and every other property reads as before. */
  lemma {:induction false} PutGet(b: seq<Row>, id: string, cells: seq<Cell>)
    ensures Get(Put(b, id, cells), id) == Some(cells)
    ensures forall other :: other != id ==> Get(Put(b, id, cells), other) == Get(b, other)
  {
    if b != [] && b[0].id != id {
      PutGet(b[1..], id, cells);
      var r := Put(b, id, cells);
      assert r[0] == b[0] && r[1..] == Put(b[1..], id, cells);
    }
  }

  /** `blocks[id] = cells` keeps the order of the properties and adds a new one last. */
  lemma {:induction false} PutIds(b: seq<Row>, id: string, cells: seq<Cell>)
    ensures Ids(Put(b, id, cells)) == if id in Ids(b) then Ids(b) else Ids(b) + [id]
  {
    if b == [] {
    } else if b[0].id == id {
      var r := Put(b, id, cells);
      assert Ids(r) == [id] + Ids(b[1..]);
      assert Ids(b) == [id] + Ids(b[1..]);
    } else {
      PutIds(b[1..], id, cells);
      var r := Put(b, id, cells);
      var rest := Put(b[1..], id, cells);
      assert r[0] == b[0] && r[1..] == rest;
      assert Ids(b) == [b[0].id] + Ids(b[1..]);
      assert Ids(r) == [b[0].id] + Ids(rest);
    }
  }

  /** Property names stay unique. */
  lemma PutDistinct(b: seq<Row>, id: string, cells: seq<Cell>)
    requires DistinctIds(b)
    ensures DistinctIds(Put(b, id, cells))
  {
    PutIds(b, id, cells);
  }

  /** Writing a property twice leaves only the second write. */
  lemma {:induction false} PutPut(b: seq<Row>, id: string, first: seq<Cell>, second: seq<Cell>)
    ensures Put(Put(b, id, first), id, second) == Put(b, id, second)
  {
    if b != [] && b[0].id != id {
      PutPut(b[1..], id, first, second);
      var once := Put(b, id, first);
      assert once[0] == b[0] && once[1..] == Put(b[1..], id, first);
    }
  }
}
