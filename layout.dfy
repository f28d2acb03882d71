/**
 * The pure layout rules of the metadata plugin: which columns are drawn,
 * whether a heading row is drawn, how long a metadata row is, how big a block
 * may be, where a leaf's row starts and how the tree's bounds grow.
 */
module Layout {
  import opened Wrappers
  import opened Numbers
  import opened Model

  /** `Angles.FULL` of the host library: a full turn in radians, as a double. */
  const FullTurn: real := 6.283185307179586

  /** `Math.PI` as a double. */
  const Pi: real := 3.141592653589793

  /** `headerAngle / 180 * Math.PI`: degrees to radians. */
  function Radians(degrees: real): real
  {
    degrees / 180.0 * Pi
  }

  /** `Math.min(tree.textSize, blockLength)`: the point size of the derived font. */
  function FontSize(tree: TreeView, cfg: Config): (pt: real)
    ensures pt <= tree.textSize && pt <= cfg.blockLength
    ensures pt == tree.textSize || pt == cfg.blockLength
  {
    if tree.textSize < cfg.blockLength then tree.textSize else cfg.blockLength
  }

  /** `getFontString`: a configured (truthy) font wins; otherwise "<size>pt <tree font>". */
  function FontString(tree: TreeView, cfg: Config, host: Host): (s: string)
    ensures cfg.font.Some? && cfg.font.value != "" ==> s == cfg.font.value
    ensures (cfg.font.None? || cfg.font.value == "") ==>
              s == host.numeral(FontSize(tree, cfg)) + "pt " + tree.font
  {
    match cfg.font
    case Some(f) => if f != "" then f else host.numeral(FontSize(tree, cfg)) + "pt " + tree.font
    case None => host.numeral(FontSize(tree, cfg)) + "pt " + tree.font
  }

  /**
   * `getMetadataColumnNames`: the configured columns when there are any,
   * otherwise the property names of the FIRST leaf's metadata, in order.
   * `None` stands for the TypeError the source raises when there is no
   * first leaf to read.
   */
  function ColumnNames(cfg: Config, leaves: seq<Leaf>): (r: Option<seq<string>>)
    ensures cfg.columns != [] ==> r == Some(cfg.columns)
    ensures r.None? <==> cfg.columns == [] && leaves == []
    ensures cfg.columns == [] && leaves != [] ==> r == Some(Keys(leaves[0].data))
  {
    if |cfg.columns| > 0 then Some(cfg.columns)
    else if leaves == [] then None
    else Some(Keys(leaves[0].data))
  }

  /**
   * Without configured columns, the resolved columns are the property names
   * of the first leaf, each once, in enumeration order, and a column is
   * resolved exactly when the first leaf has a value for it.
   */
  lemma ColumnNamesFromFirstLeaf(cfg: Config, leaves: seq<Leaf>)
    requires cfg.columns == [] && leaves != []
    ensures var r := ColumnNames(cfg, leaves);
            && r.Some?
            && |r.value| == |leaves[0].data|
            && (forall i :: 0 <= i < |r.value| ==> r.value[i] == leaves[0].data[i].name)
            && (forall c :: c in r.value <==> Lookup(leaves[0].data, c).Some?)
            && (forall i, j :: 0 <= i < j < |r.value| ==> r.value[i] != r.value[j])
  {
    forall c ensures Lookup(leaves[0].data, c).Some? <==> c in Keys(leaves[0].data) {
      LookupSpec(leaves[0].data, c);
    }
  }

  /** The columns one leaf draws: the configured ones, or that leaf's own property names. */
  function LeafColumns(cfg: Config, leaf: Leaf): seq<string>
  {
    if |cfg.columns| > 0 then cfg.columns else Keys(leaf.data)
  }

  /**
   * `hasMetadataHeadings`. The source writes `diagonal || (alignLabels &&
   * rectangular || hierarchical)`; `&&` binds tighter than `||`, so a
   * hierarchical tree qualifies whatever `alignLabels` is.
   */
  function HasHeadings(showHeaders: bool, treeType: TreeType, alignLabels: bool): (r: bool)
    ensures !showHeaders ==> !r
    ensures showHeaders && treeType == Diagonal ==> r
    ensures showHeaders && treeType == Hierarchical ==> r
    ensures showHeaders && treeType == Rectangular ==> (r <==> alignLabels)
    ensures IsCircular(treeType) ==> !r
  {
    if !showHeaders then false
    else treeType == Diagonal || ((alignLabels && treeType == Rectangular) || treeType == Hierarchical)
  }

  /** `_maxLabelWidth[c]`: `NaN` when the column was never measured (`undefined`). */
  function WidthOf(widths: map<string, real>, c: string): (n: Num)
    ensures n.Finite? <==> c in widths
    ensures c in widths ==> n.val == widths[c]
  {
    if c in widths then Finite(widths[c]) else NaN
  }

  /** `cols.reduce((pre, cur) => widths[cur], acc)`: the callback ignores `pre`. */
  function ReduceLast(widths: map<string, real>, cols: seq<string>, acc: Num): Num
  {
    if cols == [] then acc else ReduceLast(widths, cols[1..], WidthOf(widths, cols[0]))
  }

  /** The reduce keeps only the width of the last column. */
  lemma {:induction false} ReduceLastIsLast(widths: map<string, real>, cols: seq<string>, acc: Num)
    ensures ReduceLast(widths, cols, acc) == if cols == [] then acc else WidthOf(widths, cols[|cols| - 1])
  {
    if cols != [] {
      ReduceLastIsLast(widths, cols[1..], WidthOf(widths, cols[0]));
      if |cols| > 1 {
        assert cols[1..][|cols[1..]| - 1] == cols[|cols| - 1];
      }
    }
  }

  /** The label-width share of `getMetadataLength`: only the last column's width. */
  function LabelShare(cfg: Config, widths: map<string, real>, cols: seq<string>): (n: Num)
    ensures !cfg.showLabels || cols == [] ==> n == Finite(0.0)
    ensures cfg.showLabels && cols != [] ==> n == WidthOf(widths, cols[|cols| - 1])
  {
    ReduceLastIsLast(widths, cols, Finite(0.0));
    if cfg.showLabels then ReduceLast(widths, cols, Finite(0.0)) else Finite(0.0)
  }

  /**
   * `getMetadataLength`: the label share plus `cols.length * (blockLength +
   * padding)`; `None` when resolving the columns throws.
   */
  function MetadataLength(cfg: Config, widths: map<string, real>, leaves: seq<Leaf>): (r: Option<Num>)
    ensures r.None? <==> ColumnNames(cfg, leaves).None?
    ensures r.Some? ==>
              var cols := ColumnNames(cfg, leaves).value;
              var blocks := Finite(Span(|cols|, cfg.blockLength + cfg.padding));
              r.value == if cfg.showLabels && cols != []
                         then Plus(WidthOf(widths, cols[|cols| - 1]), blocks)
                         else blocks
  {
    match ColumnNames(cfg, leaves)
    case None => None
    case Some(cols) =>
      Some(Plus(LabelShare(cfg, widths, cols), Finite(Span(|cols|, cfg.blockLength + cfg.padding))))
  }

  /** The `getTotalLength` wrapper: the branch's own length, plus the metadata length while active. */
  function TotalLength(base: Num, cfg: Config, widths: map<string, real>, leaves: seq<Leaf>): (r: Option<Num>)
    ensures !cfg.active ==> r == Some(base)
    ensures cfg.active ==> (r.None? <==> MetadataLength(cfg, widths, leaves).None?)
    ensures cfg.active && r.Some? ==> r.value == Plus(base, MetadataLength(cfg, widths, leaves).value)
  {
    if !cfg.active then Some(base)
    else match MetadataLength(cfg, widths, leaves)
         case None => None
         case Some(len) => Some(Plus(base, len))
  }

  /** `blockSize !== null ? Math.min(maxSize, blockSize) : maxSize`. */
  function ResolveSize(maxSize: real, blockSize: Option<real>): (size: real)
    ensures size <= maxSize
    ensures blockSize.None? ==> size == maxSize
    ensures blockSize.Some? ==> size <= blockSize.value && (size == maxSize || size == blockSize.value)
  {
    match blockSize
    case None => maxSize
    case Some(b) => if b < maxSize then b else maxSize
  }

  /** Whether a memoised `_maxBlockSize` is truthy (non-null and non-zero). */
  predicate Memoised(memo: Option<real>)
  {
    memo.Some? && memo.value != 0.0
  }

  /**
   * The value `getMetadataMaxBlockSize` returns given the memo it finds: a
   * truthy memo; else, for circular trees, the size computed from the
   * leaves; else the tree step.
   */
  function MaxSize(memo: Option<real>, tree: TreeView): (r: real)
    ensures Memoised(memo) ==> r == memo.value
    ensures !Memoised(memo) && IsCircular(tree.treeType) ==> r == tree.circularMaxSize
    ensures !Memoised(memo) && !IsCircular(tree.treeType) ==> r == tree.step
  {
    if Memoised(memo) then memo.value
    else if IsCircular(tree.treeType) then tree.circularMaxSize
    else tree.step
  }

  /** The memo after `getMetadataMaxBlockSize`: only circular trees store their size. */
  function MemoAfter(memo: Option<real>, tree: TreeView): (m: Option<real>)
    ensures Memoised(memo) ==> m == memo
    ensures !Memoised(memo) && IsCircular(tree.treeType) ==> m == Some(tree.circularMaxSize)
    ensures !Memoised(memo) && !IsCircular(tree.treeType) ==> m == memo
  {
    if Memoised(memo) then memo
    else if IsCircular(tree.treeType) then Some(tree.circularMaxSize)
    else memo
  }

  /**
   * Once a non-zero size has been stored, every later call returns it
   * whatever the tree looks like by then, until prerender clears the memo;
   * and the value returned is the one the first call returned.
   */
  lemma MemoIsSticky(memo: Option<real>, tree: TreeView, later: TreeView)
    requires Memoised(MemoAfter(memo, tree))
    ensures MaxSize(MemoAfter(memo, tree), later) == MaxSize(memo, tree)
    ensures MemoAfter(MemoAfter(memo, tree), later) == MemoAfter(memo, tree)
  {
  }

  /**
   * Asking a second time over the same tree changes nothing: the memo a call
   * leaves behind yields the same maximum and is left as it is.
   */
  lemma MemoAfterStable(memo: Option<real>, tree: TreeView)
    ensures MaxSize(MemoAfter(memo, tree), tree) == MaxSize(memo, tree)
    ensures MemoAfter(MemoAfter(memo, tree), tree) == MemoAfter(memo, tree)
  {
  }

  /** Without a memo, a non-circular tree uses its step and stores nothing. */
  lemma StepWithoutMemo(tree: TreeView)
    requires !IsCircular(tree.treeType)
    ensures MaxSize(None, tree) == tree.step
    ensures MemoAfter(None, tree) == None
  {
  }

  /** The block size of a leaf never exceeds the maximum the tree allows. */
  lemma SizeWithinMax(memo: Option<real>, tree: TreeView, cfg: Config)
    ensures ResolveSize(MaxSize(memo, tree), cfg.blockSize) <= MaxSize(memo, tree)
    ensures cfg.blockSize.Some? ==> ResolveSize(MaxSize(memo, tree), cfg.blockSize) <= cfg.blockSize.value
  {
  }

  /**
   * The extra block height per column index: used for circular trees with
   * aligned labels, so that blocks further out cover their wider slot.
   * The drawn leaf belongs to the tree, so the tree has leaves.
   */
  function StepCorrection(tree: TreeView, cfg: Config): (s: real)
    requires |tree.leaves| > 0
    ensures !(IsCircular(tree.treeType) && tree.alignLabels) ==> s == 0.0
    ensures IsCircular(tree.treeType) && tree.alignLabels ==>
              s * (|tree.leaves| as real) == FullTurn * cfg.blockLength
  {
    if IsCircular(tree.treeType) && tree.alignLabels
    then FullTurn * cfg.blockLength / (|tree.leaves| as real)
    else 0.0
  }

  /**
   * The x where a leaf's first block starts: the label start, plus the label
   * length when labels show (or the hovered leaf is highlighted), plus the
   * label-alignment offset, plus the padding.
   */
  function StartX(tree: TreeView, cfg: Config, leaf: Leaf): (x: real)
    ensures x == leaf.labelStartX
                 + (if tree.showLabels || (tree.hoverLabel && leaf.highlighted) then tree.maxLabelLength else 0.0)
                 + (if tree.alignLabels then leaf.labelOffset else 0.0)
                 + cfg.padding
  {
    var x0 := leaf.labelStartX;
    var x1 := if tree.showLabels || (tree.hoverLabel && leaf.highlighted) then x0 + tree.maxLabelLength else x0;
    var x2 := if tree.alignLabels then x1 + leaf.labelOffset else x1;
    x2 + cfg.padding
  }

  /**
   * The `getBounds` wrapper: while active, the min corner gives up room for
   * the headings on one axis (x for hierarchical trees, y for rectangular
   * and diagonal ones); the max corner is never touched.
   */
  function ExtendBounds(base: Bounds, active: bool, treeType: TreeType, headerWidth: Num, headerHeight: Num): (b: Bounds)
    ensures b.maxX == base.maxX && b.maxY == base.maxY
    ensures !active ==> b == base
    ensures active && treeType == Hierarchical ==>
              b.minX == Minus(base.minX, Plus(headerWidth, headerHeight)) && b.minY == base.minY
    ensures active && (treeType == Rectangular || treeType == Diagonal) ==>
              b.minX == base.minX && b.minY == Minus(base.minY, Plus(headerWidth, headerHeight))
    ensures IsCircular(treeType) ==> b == base
  {
    if active then
      var labelsOnY := treeType == Rectangular || treeType == Diagonal;
      var labelsOnX := treeType == Hierarchical;
      var room := Plus(headerWidth, headerHeight);
      Bounds(Minus(base.minX, if labelsOnX then room else Finite(0.0)),
             Minus(base.minY, if labelsOnY then room else Finite(0.0)),
             base.maxX, base.maxY)
    else base
  }

  /** With finite, non-negative header dimensions the bounds only grow. */
  lemma ExtendBoundsOnlyGrows(base: Bounds, active: bool, treeType: TreeType, w: real, h: real)
    requires base.minX.Finite? && base.minY.Finite?
    requires w >= 0.0 && h >= 0.0
    ensures var b := ExtendBounds(base, active, treeType, Finite(w), Finite(h));
            && b.minX.Finite? && b.minY.Finite?
            && b.minX.val <= base.minX.val && b.minY.val <= base.minY.val
            && (b.minX.val < base.minX.val ==> active && treeType == Hierarchical)
            && (b.minY.val < base.minY.val ==> active && (treeType == Rectangular || treeType == Diagonal))
  {
  }
}
