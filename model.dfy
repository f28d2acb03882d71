/**
 * The values the metadata plugin reads from its host tree and the records it
 * produces: leaf metadata, the tree's geometry, the plugin's options, the
 * hit-test cells and the paint operations it issues on the canvas.
 */
module Model {
  import opened Wrappers
  import opened Numbers

  /** The tree projections of the host library (`tree.treeType`). */
  datatype TreeType = Rectangular | Circular | Radial | Diagonal | Hierarchical

  /** Circular and radial trees lay leaves out by angle. */
  predicate IsCircular(t: TreeType)
  {
    t == Circular || t == Radial
  }

  /**
   * The value of one metadata column on a leaf: a bare colour string, or an
   * object with a `colour` field and a `label` field (here `text`). `text` is `None` when
   * the object's label is not a string; a missing or empty `colour` is "".
   */
  datatype ColumnValue =
    | Colour(colour: string)
    | Labelled(colour: string, text: Option<string>)

  /** One own property of a leaf's metadata object. */
  datatype Entry = Entry(name: string, value: ColumnValue)

  predicate DistinctNames(r: seq<Entry>)
  {
    forall i, j :: 0 <= i < j < |r| ==> r[i].name != r[j].name
  }

  /**
   * A leaf's metadata object (`leaf[propertyName]`), its properties listed in
   * the order `Object.keys` enumerates them; property names are distinct.
   */
  type Record = r: seq<Entry> | DistinctNames(r) witness []

  /** `Object.keys(r)`. */
  function Keys(r: seq<Entry>): (ks: seq<string>)
    ensures |ks| == |r|
    ensures forall i :: 0 <= i < |r| ==> ks[i] == r[i].name
  {
    if r == [] then [] else [r[0].name] + Keys(r[1..])
  }

  /** `r[name]`: the value of a property, `None` for `undefined`. */
  function Lookup(r: seq<Entry>, name: string): Option<ColumnValue>
  {
    if r == [] then None
    else if r[0].name == name then Some(r[0].value)
    else Lookup(r[1..], name)
  }

  /** A property is defined exactly when it is one of the keys, and then it has that entry's value. */
  lemma {:induction false} LookupSpec(r: Record, name: string)
    ensures Lookup(r, name).Some? <==> name in Keys(r)
    ensures forall i :: 0 <= i < |r| && r[i].name == name ==> Lookup(r, name) == Some(r[i].value)
  {
    if r != [] {
      var tail: Record := r[1..];
      LookupSpec(tail, name);
      assert Keys(r) == [r[0].name] + Keys(tail);
      forall i | 0 <= i < |r| && r[i].name == name
        ensures Lookup(r, name) == Some(r[i].value)
      {
        if i > 0 {
          assert tail[i - 1] == r[i];
        }
      }
    }
  }

  /** A leaf branch as the plugin sees it while drawing. */
  datatype Leaf = Leaf(
    id: string,           // branch.id
    data: Record,         // branch[propertyName]
    labelStartX: real,    // branch.getLabelStartX()
    highlighted: bool,    // branch.highlighted
    labelOffset: real,    // tree.labelAlign.getLabelOffset(branch)
    centerX: real,        // branch.centerx
    centerY: real,        // branch.centery
    transparent: bool)    // branch.leafStyle.fillStyle === 'transparent'

  /** The host tree's state that the plugin reads. */
  datatype TreeView = TreeView(
    treeType: TreeType,
    alignLabels: bool,       // the (patched) tree.alignLabels getter
    showLabels: bool,        // tree.showLabels
    hoverLabel: bool,        // tree.hoverLabel
    maxLabelLength: real,    // tree.maxLabelLength[tree.treeType]
    step: real,              // tree.step
    textSize: real,          // tree.textSize
    font: string,            // tree.font
    circularMaxSize: real,   // the angular block size a circular tree computes from its leaves
    leaves: seq<Leaf>)       // tree.leaves

  /** The user-settable options of `tree.metadata`. */
  datatype Config = Config(
    active: bool,
    showHeaders: bool,
    showLabels: bool,
    blockLength: real,
    blockSize: Option<real>,  // null when no size is configured
    padding: real,
    columns: seq<string>,
    fillStyle: string,
    font: Option<string>,     // null when the font is derived from the tree
    headerAngle: real)        // degrees

  /** The option values a tree's metadata starts from when the user overrides none. */
  function Defaults(): Config
  {
    Config(true, true, true, 32.0, None, 8.0, [], "black", None, 90.0)
  }

  /**
   * The options a user passes as `tree.metadata` before the tree is
   * created: `None` for a property the object does not have.
   */
  datatype Overrides = Overrides(
    active: Option<bool>,
    showHeaders: Option<bool>,
    showLabels: Option<bool>,
    blockLength: Option<real>,
    blockSize: Option<Option<real>>,
    padding: Option<real>,
    columns: Option<seq<string>>,
    fillStyle: Option<string>,
    font: Option<Option<string>>,
    headerAngle: Option<real>)

  /** No `tree.metadata` at all: `tree.metadata || {}`. */
  function NoOverrides(): Overrides
  {
    Overrides(None, None, None, None, None, None, None, None, None, None)
  }

  /** A property the user set wins over the default. */
  function Override<T>(given: Option<T>, fallback: T): T
  {
    if given.Some? then given.value else fallback
  }

  /** `Object.assign({}, DEFAULTS, tree.metadata || {})`: the user's options merged over the defaults. */
  function Merge(o: Overrides): Config
  {
    var d := Defaults();
    Config(Override(o.active, d.active), Override(o.showHeaders, d.showHeaders),
           Override(o.showLabels, d.showLabels), Override(o.blockLength, d.blockLength),
           Override(o.blockSize, d.blockSize), Override(o.padding, d.padding),
           Override(o.columns, d.columns), Override(o.fillStyle, d.fillStyle),
           Override(o.font, d.font), Override(o.headerAngle, d.headerAngle))
  }

  /** Without user options a tree gets exactly the defaults. */
  lemma MergeNothing()
    ensures Merge(NoOverrides()) == Defaults()
  {
  }

  /** Every option the user sets is taken as given; every other one is the default. */
  lemma MergeTakesOverrides(o: Overrides)
    ensures var c := Merge(o);
            && (o.active.Some? ==> c.active == o.active.value)
            && (o.active.None? ==> c.active == Defaults().active)
            && (o.showHeaders.Some? ==> c.showHeaders == o.showHeaders.value)
            && (o.showHeaders.None? ==> c.showHeaders == Defaults().showHeaders)
            && (o.showLabels.Some? ==> c.showLabels == o.showLabels.value)
            && (o.showLabels.None? ==> c.showLabels == Defaults().showLabels)
            && (o.blockLength.Some? ==> c.blockLength == o.blockLength.value)
            && (o.blockLength.None? ==> c.blockLength == Defaults().blockLength)
            && (o.blockSize.Some? ==> c.blockSize == o.blockSize.value)
            && (o.blockSize.None? ==> c.blockSize == Defaults().blockSize)
            && (o.padding.Some? ==> c.padding == o.padding.value)
            && (o.padding.None? ==> c.padding == Defaults().padding)
            && (o.columns.Some? ==> c.columns == o.columns.value)
            && (o.columns.None? ==> c.columns == Defaults().columns)
            && (o.fillStyle.Some? ==> c.fillStyle == o.fillStyle.value)
            && (o.fillStyle.None? ==> c.fillStyle == Defaults().fillStyle)
            && (o.font.Some? ==> c.font == o.font.value)
            && (o.font.None? ==> c.font == Defaults().font)
            && (o.headerAngle.Some? ==> c.headerAngle == o.headerAngle.value)
            && (o.headerAngle.None? ==> c.headerAngle == Defaults().headerAngle)
  {
  }

  /**
   * The host services the plugin calls and that are outside this model:
   * `ctx.measureText(text).width` under a font, `Math.cos`, and the
   * conversion of a number to its decimal string.
   */
  datatype Host = Host(
    measure: (string, string) -> real,
    cos: real -> real,
    numeral: real -> string)

  /** One hit-test rectangle, in tree coordinates, recorded while drawing. */
  datatype Cell = Cell(x: Num, y: real, w: real, h: real,
                       columnName: string, data: ColumnValue, leaf: string)

  /**
   * One canvas operation issued by the plugin: the heading row started at a
   * point, a filled block (`style` is `None` when the value assigned to
   * `fillStyle` is not a string, which the canvas ignores), or a label.
   */
  datatype Op =
    | Heading(x: Num, y: real)
    | Block(x: Num, y: real, w: real, h: real, style: Option<string>)
    | Label(text: string, x: Num, y: real, font: string, colour: string)

  /** An axis-aligned bounding box `[[minx, miny], [maxx, maxy]]`. */
  datatype Bounds = Bounds(minX: Num, minY: Num, maxX: Num, maxY: Num)

  /** `n * step`: the room `n` columns of `step` each take. */
  function Span(n: nat, step: real): real
  {
    n as real * step
  }

  /** One more column adds one more step. */
  lemma SpanStep(n: nat, step: real)
    ensures Span(n + 1, step) == step + Span(n, step)
  {
  }

  /** The number of heading rows among a sequence of paint operations. */
  function HeadingCount(ops: seq<Op>): nat
  {
    if ops == [] then 0
    else (if ops[0].Heading? then 1 else 0) + HeadingCount(ops[1..])
  }

  lemma {:induction false} HeadingCountAppend(a: seq<Op>, b: seq<Op>)
    ensures HeadingCount(a + b) == HeadingCount(a) + HeadingCount(b)
  {
    if a == [] {
      assert a + b == b;
    } else {
      assert (a + b)[1..] == a[1..] + b;
      HeadingCountAppend(a[1..], b);
    }
  }

  lemma {:induction false} HeadingCountNone(ops: seq<Op>)
    requires forall op :: op in ops ==> !op.Heading?
    ensures HeadingCount(ops) == 0
  {
    if ops != [] {
      assert forall op :: op in ops[1..] ==> op in ops;
      HeadingCountNone(ops[1..]);
    }
  }
}
