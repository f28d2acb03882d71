/**
 * The per-tree metadata state `tree.metadata` and the plugin's hooks into
 * the host's lifecycle: tree creation, prerender, draw, per-leaf drawing.
 */
module Plugin {
  import opened Wrappers
  import opened Numbers
  import opened Model
  import opened Layout
  import opened Render
  import opened BlockIndex
  import opened Measure

  /** The block size a leaf is drawn with, given the memo found at the start of its drawing. */
  function DrawSize(cfg: Config, memo: Option<real>, tree: TreeView): real
  {
    ResolveSize(MaxSize(memo, tree), cfg.blockSize)
  }

  /** What stays fixed while leaf `k`'s columns are painted. */
  function LayoutOf(cfg: Config, memo: Option<real>, widths: map<string, real>,
                    tree: TreeView, host: Host, k: nat): LeafLayout
    requires k < |tree.leaves|
  {
    var size := DrawSize(cfg, memo, tree);
    LeafLayout(tree.leaves[k], 0.0 - size / 2.0, size, StepCorrection(tree, cfg), cfg.blockLength,
               cfg.padding, cfg.showLabels, widths, cfg.fillStyle, FontString(tree, cfg, host))
  }

  /** The cells recorded for leaf `k`: none when its metadata object is empty. */
  function DrawnCells(cfg: Config, memo: Option<real>, widths: map<string, real>,
                      tree: TreeView, host: Host, k: nat): seq<Cell>
    requires k < |tree.leaves|
  {
    var leaf := tree.leaves[k];
    if |leaf.data| > 0
    then RowCells(LayoutOf(cfg, memo, widths, tree, host, k), LeafColumns(cfg, leaf),
                  Finite(StartX(tree, cfg, leaf)), 1)
    else []
  }

  /** The blocks and labels painted for leaf `k`. */
  function DrawnOps(cfg: Config, memo: Option<real>, widths: map<string, real>,
                    tree: TreeView, host: Host, k: nat): seq<Op>
    requires k < |tree.leaves|
  {
    var leaf := tree.leaves[k];
    if |leaf.data| > 0
    then RowOps(LayoutOf(cfg, memo, widths, tree, host, k), LeafColumns(cfg, leaf),
                Finite(StartX(tree, cfg, leaf)), 1)
    else []
  }

  /** The heading row painted before leaf `k`'s blocks, when one is still due this draw. */
  function HeadingOps(cfg: Config, memo: Option<real>, drawn: bool, tree: TreeView, k: nat): seq<Op>
    requires k < |tree.leaves|
  {
    if !drawn && HasHeadings(cfg.showHeaders, tree.treeType, tree.alignLabels)
    then [Heading(Finite(StartX(tree, cfg, tree.leaves[k])), DrawSize(cfg, memo, tree) / 2.0 + cfg.padding)]
    else []
  }

  /** A memo the first leaf left behind resolves every later leaf to the same cells and paint. */
  lemma DrawnCellsAfterMemo(cfg: Config, memo: Option<real>, widths: map<string, real>,
                            tree: TreeView, host: Host, k: nat)
    requires k < |tree.leaves|
    ensures DrawnCells(cfg, MemoAfter(memo, tree), widths, tree, host, k)
            == DrawnCells(cfg, memo, widths, tree, host, k)
    ensures DrawnOps(cfg, MemoAfter(memo, tree), widths, tree, host, k)
            == DrawnOps(cfg, memo, widths, tree, host, k)
    ensures forall drawn :: HeadingOps(cfg, MemoAfter(memo, tree), drawn, tree, k)
                            == HeadingOps(cfg, memo, drawn, tree, k)
  {
    MemoAfterStable(memo, tree);
    assert LayoutOf(cfg, MemoAfter(memo, tree), widths, tree, host, k) == LayoutOf(cfg, memo, widths, tree, host, k);
  }

  /**
   * What the plugin paints over one active draw of the first `n` leaves:
   * before each leaf the heading row when it is due and no earlier leaf
   * was drawn, then the leaf's blocks and labels.
   */
  function DrawLog(cfg: Config, memo: Option<real>, widths: map<string, real>,
                   tree: TreeView, host: Host, n: nat): seq<Op>
    requires n <= |tree.leaves|
  {
    if n == 0 then []
    else DrawLog(cfg, memo, widths, tree, host, n - 1)
         + HeadingOps(cfg, memo, n - 1 > 0, tree, n - 1)
         + DrawnOps(cfg, memo, widths, tree, host, n - 1)
  }

  /**
   * The order in which `_blockCoords` enumerates its ids once the first `n`
   * leaves have been drawn over an index enumerating `ids`: a leaf id not
   * yet present is added last, one already present keeps its place.
   */
  function IdsAfter(ids: seq<string>, leaves: seq<Leaf>, n: nat): seq<string>
    requires n <= |leaves|
  {
    if n == 0 then ids
    else
      var before := IdsAfter(ids, leaves, n - 1);
      if leaves[n - 1].id in before then before else before + [leaves[n - 1].id]
  }

  /** The ids enumerated after drawing are the old ones, in their old order, then new ones. */
  lemma {:induction false} IdsAfterMembers(ids: seq<string>, leaves: seq<Leaf>, n: nat)
    requires n <= |leaves|
    ensures |ids| <= |IdsAfter(ids, leaves, n)|
    ensures IdsAfter(ids, leaves, n)[..|ids|] == ids
    ensures forall id :: id in IdsAfter(ids, leaves, n) <==> id in ids || AmongFirst(leaves, n, id)
  {
    if n > 0 {
      IdsAfterMembers(ids, leaves, n - 1);
      var before := IdsAfter(ids, leaves, n - 1);
      if leaves[n - 1].id !in before {
        assert (before + [leaves[n - 1].id])[..|ids|] == before[..|ids|];
      }
      forall id | AmongFirst(leaves, n, id)
        ensures id in ids || AmongFirst(leaves, n - 1, id) || id == leaves[n - 1].id
      {
        var k :| 0 <= k < n && leaves[k].id == id;
        if k < n - 1 {
          assert AmongFirst(leaves, n - 1, id);
        }
      }
      forall id | AmongFirst(leaves, n - 1, id)
        ensures AmongFirst(leaves, n, id)
      {
        var k :| 0 <= k < n - 1 && leaves[k].id == id;
        assert 0 <= k < n && leaves[k].id == id;
      }
      assert AmongFirst(leaves, n, leaves[n - 1].id);
    }
  }

  /** The heading part of one leaf's paint holds the heading row exactly when it is due and not yet drawn. */
  lemma HeadingOpsCount(cfg: Config, memo: Option<real>, drawn: bool, tree: TreeView, k: nat)
    requires k < |tree.leaves|
    ensures HeadingCount(HeadingOps(cfg, memo, drawn, tree, k))
            == if !drawn && HasHeadings(cfg.showHeaders, tree.treeType, tree.alignLabels) then 1 else 0
  {
    var h := HeadingOps(cfg, memo, drawn, tree, k);
    if h != [] {
      assert h[1..] == [];
    }
  }

  /** A leaf's blocks and labels hold no heading. */
  lemma DrawnOpsCount(cfg: Config, memo: Option<real>, widths: map<string, real>,
                      tree: TreeView, host: Host, k: nat)
    requires k < |tree.leaves|
    ensures HeadingCount(DrawnOps(cfg, memo, widths, tree, host, k)) == 0
  {
    var leaf := tree.leaves[k];
    if |leaf.data| > 0 {
      RowOpsNoHeading(LayoutOf(cfg, memo, widths, tree, host, k), LeafColumns(cfg, leaf),
                      Finite(StartX(tree, cfg, leaf)), 1);
    }
    HeadingCountNone(DrawnOps(cfg, memo, widths, tree, host, k));
  }

  /** A whole draw paints the heading row once when it is due and the tree has a leaf, and never otherwise. */
  lemma {:induction false} DrawLogHeadingCount(cfg: Config, memo: Option<real>, widths: map<string, real>,
                                               tree: TreeView, host: Host, n: nat)
    requires n <= |tree.leaves|
    ensures HeadingCount(DrawLog(cfg, memo, widths, tree, host, n))
            == if n > 0 && HasHeadings(cfg.showHeaders, tree.treeType, tree.alignLabels) then 1 else 0
  {
    if n > 0 {
      DrawLogHeadingCount(cfg, memo, widths, tree, host, n - 1);
      var prefix := DrawLog(cfg, memo, widths, tree, host, n - 1);
      var heading := HeadingOps(cfg, memo, n - 1 > 0, tree, n - 1);
      var row := DrawnOps(cfg, memo, widths, tree, host, n - 1);
      HeadingOpsCount(cfg, memo, n - 1 > 0, tree, n - 1);
      DrawnOpsCount(cfg, memo, widths, tree, host, n - 1);
      HeadingCountAppend(prefix, heading);
      HeadingCountAppend(prefix + heading, row);
    }
  }

  /**
   * One active `drawLeaf` of leaf `n`, with the memo and heading flag the
   * earlier leaves left, extends the draw's paint from `n` leaves to `n + 1`.
   */
  lemma DrawLogStep(cfg: Config, m0: Option<real>, memo: Option<real>, drawn: bool,
                    widths: map<string, real>, tree: TreeView, host: Host, n: nat)
    requires n < |tree.leaves|
    requires memo == if n > 0 then MemoAfter(m0, tree) else m0
    requires drawn == (HasHeadings(cfg.showHeaders, tree.treeType, tree.alignLabels) && n > 0)
    ensures DrawLog(cfg, m0, widths, tree, host, n)
            + HeadingOps(cfg, memo, drawn, tree, n) + DrawnOps(cfg, memo, widths, tree, host, n)
            == DrawLog(cfg, m0, widths, tree, host, n + 1)
  {
    DrawnCellsAfterMemo(cfg, m0, widths, tree, host, n);
    assert HeadingOps(cfg, m0, drawn, tree, n) == HeadingOps(cfg, m0, n > 0, tree, n);
  }

  /** Leaf `k` is the last of the first `n` leaves to carry its id. */
  ghost predicate LastWithId(leaves: seq<Leaf>, k: nat, n: nat)
    requires k < n <= |leaves|
  {
    forall j :: k < j < n ==> leaves[j].id != leaves[k].id
  }

  /** One of the first `n` leaves carries `id`. */
  ghost predicate AmongFirst(leaves: seq<Leaf>, n: nat, id: string)
    requires n <= |leaves|
  {
    exists k :: 0 <= k < n && leaves[k].id == id
  }

  /**
   * `_blockCoords` once the first `n` leaves have been drawn over `b0`: each
   * id reads as the cells of the last of those leaves that carries it, and
   * an id none of them carries reads as in `b0`.
   */
  ghost predicate IndexDrawn(b0: seq<Row>, b: seq<Row>, cfg: Config, memo: Option<real>,
                             widths: map<string, real>, tree: TreeView, host: Host, n: nat)
    requires n <= |tree.leaves|
  {
    && (forall k :: 0 <= k < n && LastWithId(tree.leaves, k, n) ==>
          Get(b, tree.leaves[k].id) == Some(DrawnCells(cfg, memo, widths, tree, host, k)))
    && (forall id :: !AmongFirst(tree.leaves, n, id) ==> Get(b, id) == Get(b0, id))
  }

  /** Recording leaf `n`'s cells extends the index from the first `n` leaves to the first `n + 1`. */
  lemma IndexDrawnStep(b0: seq<Row>, b: seq<Row>, cfg: Config, memo: Option<real>,
                       widths: map<string, real>, tree: TreeView, host: Host, n: nat)
    requires n < |tree.leaves|
    requires IndexDrawn(b0, b, cfg, memo, widths, tree, host, n)
    ensures IndexDrawn(b0, Put(b, tree.leaves[n].id, DrawnCells(cfg, memo, widths, tree, host, n)),
                       cfg, memo, widths, tree, host, n + 1)
  {
    var id := tree.leaves[n].id;
    var b' := Put(b, id, DrawnCells(cfg, memo, widths, tree, host, n));
    PutGet(b, id, DrawnCells(cfg, memo, widths, tree, host, n));
    forall k | 0 <= k < n + 1 && LastWithId(tree.leaves, k, n + 1)
      ensures Get(b', tree.leaves[k].id) == Some(DrawnCells(cfg, memo, widths, tree, host, k))
    {
      if k < n {
        assert tree.leaves[n].id != tree.leaves[k].id;
        assert LastWithId(tree.leaves, k, n);
      }
    }
    forall i | !AmongFirst(tree.leaves, n + 1, i)
      ensures Get(b', i) == Get(b0, i)
    {
      assert i != id;
      assert !AmongFirst(tree.leaves, n, i);
    }
  }

  /**
   * The plugin's state once an active draw has drawn the first `n` leaves,
   * starting from index `b0` and memo `m0`: the memo the first leaf left,
   * the heading flag set when headings are due and a leaf was drawn, the
   * paint of `DrawLog`, and the index as `IndexDrawn` and `IdsAfter` say.
   */
  ghost predicate DrawnSoFar(b0: seq<Row>, m0: Option<real>, b: seq<Row>, log: seq<Op>, memo: Option<real>,
                             drawn: bool, cfg: Config, widths: map<string, real>, tree: TreeView, host: Host, n: nat)
    requires n <= |tree.leaves|
  {
    && memo == (if n > 0 then MemoAfter(m0, tree) else m0)
    && drawn == (HasHeadings(cfg.showHeaders, tree.treeType, tree.alignLabels) && n > 0)
    && log == DrawLog(cfg, m0, widths, tree, host, n)
    && IndexDrawn(b0, b, cfg, m0, widths, tree, host, n)
    && Ids(b) == IdsAfter(Ids(b0), tree.leaves, n)
  }

  /** One active `drawLeaf` of leaf `n` carries `DrawnSoFar` from `n` leaves to `n + 1`. */
  lemma DrawnSoFarStep(b0: seq<Row>, m0: Option<real>, b: seq<Row>, log: seq<Op>, memo: Option<real>,
                       drawn: bool, cfg: Config, widths: map<string, real>, tree: TreeView, host: Host, n: nat,
                       b': seq<Row>, log': seq<Op>, memo': Option<real>, drawn': bool)
    requires n < |tree.leaves|
    requires DrawnSoFar(b0, m0, b, log, memo, drawn, cfg, widths, tree, host, n)
    requires b' == Put(b, tree.leaves[n].id, DrawnCells(cfg, memo, widths, tree, host, n))
    requires log' == log + HeadingOps(cfg, memo, drawn, tree, n) + DrawnOps(cfg, memo, widths, tree, host, n)
    requires drawn' == (drawn || HasHeadings(cfg.showHeaders, tree.treeType, tree.alignLabels))
    requires memo' == MemoAfter(memo, tree)
    ensures DrawnSoFar(b0, m0, b', log', memo', drawn', cfg, widths, tree, host, n + 1)
  {
    DrawLogStep(cfg, m0, memo, drawn, widths, tree, host, n);
    DrawnCellsAfterMemo(cfg, m0, widths, tree, host, n);
    IndexDrawnStep(b0, b, cfg, m0, widths, tree, host, n);
    PutIds(b, tree.leaves[n].id, DrawnCells(cfg, m0, widths, tree, host, n));
    MemoAfterStable(m0, tree);
  }

  /** Without labels, `getMetadataLength` is exactly how far a row moves the cursor. */
  lemma LengthWithoutLabels(cfg: Config, widths: map<string, real>, leaves: seq<Leaf>, L: LeafLayout)
    requires ColumnNames(cfg, leaves).Some? && !cfg.showLabels
    requires L.blockLength == cfg.blockLength && L.padding == cfg.padding && !L.showLabels
    ensures MetadataLength(cfg, widths, leaves) == Some(SumAdvance(L, ColumnNames(cfg, leaves).value))
  {
    SumAdvanceClosedForm(L, ColumnNames(cfg, leaves).value);
  }

  /**
   * With labels and every column measured, a row moves the cursor by
   * `getMetadataLength` plus the label widths of every column but the last:
   * the `reduce` keeps only the last column's width.
   */
  lemma LengthWithLabels(cfg: Config, widths: map<string, real>, leaves: seq<Leaf>, L: LeafLayout)
    requires ColumnNames(cfg, leaves).Some? && ColumnNames(cfg, leaves).value != [] && cfg.showLabels
    requires forall c :: c in ColumnNames(cfg, leaves).value ==> c in widths
    requires L.blockLength == cfg.blockLength && L.padding == cfg.padding && L.showLabels && L.widths == widths
    ensures var cols := ColumnNames(cfg, leaves).value;
            && (forall c :: c in cols[..|cols| - 1] ==> c in widths)
            && SumAdvance(L, cols) == Plus(MetadataLength(cfg, widths, leaves).value,
                                           Finite(WidthSum(widths, cols[..|cols| - 1])))
  {
    var cols := ColumnNames(cfg, leaves).value;
    SumAdvanceClosedForm(L, cols);
    WidthSumSnoc(widths, cols);
  }

  /**
   * Where a leaf's row begins: after its label (when labels are shown, or it
   * is hovered and highlighted), after the alignment offset, and after one
   * padding.
   */
  method RowStart(tree: TreeView, cfg: Config, leaf: Leaf) returns (tx: real)
    ensures tx == StartX(tree, cfg, leaf)
  {
    tx := leaf.labelStartX;
    if tree.showLabels || (tree.hoverLabel && leaf.highlighted) {
      tx := tx + tree.maxLabelLength;
    }
    if tree.alignLabels {
      tx := tx + leaf.labelOffset;
    }
    tx := tx + cfg.padding;
  }

  class Metadata {
    var config: Config
    var headingDrawn: bool              // _headingDrawn
    var maxLabelWidth: map<string, real> // _maxLabelWidth
    var maxHeaderWidth: Num             // _maxHeaderWidth
    var maxHeaderHeight: Num            // _maxHeaderHeight
    var maxBlockSize: Option<real>      // _maxBlockSize
    var blockCoords: seq<Row>           // _blockCoords
    var log: seq<Op>                    // the plugin's paint operations since the current draw began

    /** Leaf ids in the index are distinct; at most one heading row per draw, and none before the flag is set. */
    ghost predicate Valid()
      reads this
    {
      && DistinctIds(blockCoords)
      && HeadingCount(log) <= (if headingDrawn then 1 else 0)
    }

    /**
     * The `createTree` wrapper: the user's options merged over the defaults,
     * with the caches empty (`_maxHeaderWidth` and `_maxHeaderHeight` are
     * not among the defaults: they start `undefined`).
     */
    constructor (options: Overrides)
      ensures Valid()
      ensures config == Merge(options)
      ensures !headingDrawn && maxLabelWidth == map[] && blockCoords == [] && maxBlockSize == None
      ensures maxHeaderWidth == NaN && maxHeaderHeight == NaN && log == []
    {
      config := Merge(options);
      headingDrawn := false;
      maxLabelWidth := map[];
      maxHeaderWidth := NaN;
      maxHeaderHeight := NaN;
      maxBlockSize := None;
      blockCoords := [];
      log := [];
    }

    /** `getMetadataMaxBlockSize`: a truthy memo wins; circular trees compute and store their size. */
    method MaxBlockSize(tree: TreeView) returns (size: real)
      modifies this`maxBlockSize
      ensures size == MaxSize(old(maxBlockSize), tree)
      ensures maxBlockSize == MemoAfter(old(maxBlockSize), tree)
    {
      if maxBlockSize.Some? && maxBlockSize.value != 0.0 {
        return maxBlockSize.value;
      }
      if IsCircular(tree.treeType) {
        maxBlockSize := Some(tree.circularMaxSize);
        return tree.circularMaxSize;
      }
      return tree.step;
    }

    /**
     * `setMaxLabelWidths`. When resolving the columns throws, nothing is
     * changed and `ok` is false.
     */
    method SetMaxLabelWidths(tree: TreeView, host: Host) returns (ok: bool)
      modifies this`maxLabelWidth, this`maxHeaderWidth, this`maxHeaderHeight
      ensures ok <==> ColumnNames(config, tree.leaves).Some?
      ensures !ok ==> unchanged(this)
      ensures ok ==>
                var cols := ColumnNames(config, tree.leaves).value;
                var font := FontString(tree, config, host);
                var cosine := host.cos(Radians(config.headerAngle));
                && maxLabelWidth == LabelWidths(host, font, cosine, config.showLabels, cols, tree.leaves)
                && maxHeaderWidth == Finite(if config.showLabels then HeaderMax(host, font, cols) else 0.0)
                && maxHeaderHeight == Finite(host.measure(font, "W"))
    {
      var names := ColumnNames(config, tree.leaves);
      if names.None? {
        return false;
      }
      var columnNames := names.value;
      var angle := Radians(config.headerAngle);
      var font := FontString(tree, config, host);
      maxHeaderWidth := Finite(0.0);
      maxHeaderHeight := Finite(host.measure(font, "W"));
      var widths, headerWidth := MeasureColumns(host, font, host.cos(angle), config.showLabels, columnNames, tree.leaves);
      maxHeaderWidth := Finite(headerWidth);
      maxLabelWidth := widths;
      return true;
    }

    /** The `Prerenderer.run` wrapper: measure, then clear the block-size memo. */
    method Prerender(tree: TreeView, host: Host) returns (ok: bool)
      requires Valid()
      modifies this
      ensures Valid()
      ensures ok <==> ColumnNames(config, tree.leaves).Some?
      ensures ok ==> maxBlockSize == None
      ensures !ok ==> maxBlockSize == old(maxBlockSize)
      ensures ok ==>
                var cols := ColumnNames(config, tree.leaves).value;
                var font := FontString(tree, config, host);
                var cosine := host.cos(Radians(config.headerAngle));
                && maxLabelWidth == LabelWidths(host, font, cosine, config.showLabels, cols, tree.leaves)
                && maxHeaderWidth == Finite(if config.showLabels then HeaderMax(host, font, cols) else 0.0)
                && maxHeaderHeight == Finite(host.measure(font, "W"))
      ensures !ok ==> maxLabelWidth == old(maxLabelWidth) && maxHeaderWidth == old(maxHeaderWidth)
                      && maxHeaderHeight == old(maxHeaderHeight)
      ensures config == old(config) && headingDrawn == old(headingDrawn)
      ensures blockCoords == old(blockCoords) && log == old(log)
    {
      ok := SetMaxLabelWidths(tree, host);
      if ok {
        maxBlockSize := None;
      }
    }

    /** The `draw` wrapper, before the host draws: a new draw may paint the heading again. */
    method DrawStart()
      requires Valid()
      modifies this`headingDrawn, this`log
      ensures Valid()
      ensures headingDrawn == (old(headingDrawn) && !config.active)
      ensures log == []
    {
      if config.active {
        headingDrawn := false;
      }
      log := [];
    }

    /** `_blockCoords[id] = cells`. */
    method SetCells(id: string, cells: seq<Cell>)
      requires Valid()
      modifies this`blockCoords
      ensures Valid()
      ensures blockCoords == Put(old(blockCoords), id, cells)
    {
      PutDistinct(blockCoords, id, cells);
      blockCoords := Put(blockCoords, id, cells);
    }

    /** Paint the heading row at (x, y) when it is due and not yet painted this draw, and remember that it was. */
    method HeadingOnce(x: Num, y: real, due: bool)
      requires Valid()
      modifies this`log, this`headingDrawn
      ensures Valid()
      ensures log == old(log) + (if !old(headingDrawn) && due then [Heading(x, y)] else [])
      ensures headingDrawn == (old(headingDrawn) || due)
    {
      if !headingDrawn && due {
        HeadingCountAppend(log, [Heading(x, y)]);
        log := log + [Heading(x, y)];
        headingDrawn := true;
      }
    }

    /** Paint one leaf's row starting at `tx` and record its cells under `id`. */
    method PaintLeaf(L: LeafLayout, cols: seq<string>, tx: real, id: string)
      requires Valid()
      modifies this`blockCoords, this`log
      ensures Valid()
      ensures blockCoords == Put(old(blockCoords), id, RowCells(L, cols, Finite(tx), 1))
      ensures log == old(log) + RowOps(L, cols, Finite(tx), 1)
      ensures HeadingCount(log) == HeadingCount(old(log))
    {
      var cells, ops, _ := PaintRow(L, cols, Finite(tx));
      RowOpsNoHeading(L, cols, Finite(tx), 1);
      SetCells(id, cells);
      HeadingCountNone(ops);
      HeadingCountAppend(log, ops);
      log := log + ops;
    }

    /**
     * The first half of `drawMetadata` for leaf `k`: resets the leaf's
     * cells, finds where its row starts and the block size, and paints the
     * heading when it is due and not yet painted this draw.
     */
    method BeginLeaf(tree: TreeView, host: Host, k: nat) returns (tx: real, size: real)
      requires Valid()
      requires k < |tree.leaves|
      modifies this`blockCoords, this`maxBlockSize, this`log, this`headingDrawn
      ensures Valid()
      ensures tx == StartX(tree, config, tree.leaves[k])
      ensures size == DrawSize(config, old(maxBlockSize), tree)
      ensures blockCoords == Put(old(blockCoords), tree.leaves[k].id, [])
      ensures log == old(log) + HeadingOps(config, old(maxBlockSize), old(headingDrawn), tree, k)
      ensures HeadingCount(log) == HeadingCount(old(log))
                + (if !old(headingDrawn) && HasHeadings(config.showHeaders, tree.treeType, tree.alignLabels) then 1 else 0)
      ensures headingDrawn == (old(headingDrawn) || HasHeadings(config.showHeaders, tree.treeType, tree.alignLabels))
      ensures maxBlockSize == MemoAfter(old(maxBlockSize), tree)
    {
      var leaf := tree.leaves[k];
      ghost var memo, drawn, log0 := maxBlockSize, headingDrawn, log;
      SetCells(leaf.id, []);
      tx := RowStart(tree, config, leaf);
      var maxSize := MaxBlockSize(tree);
      size := ResolveSize(maxSize, config.blockSize);
      var due := HasHeadings(config.showHeaders, tree.treeType, tree.alignLabels);
      HeadingOnce(Finite(tx), size / 2.0 + config.padding, due);
      HeadingCountAppend(log0, HeadingOps(config, memo, drawn, tree, k));
      assert headingDrawn == (drawn || due);
    }

    /**
     * `drawMetadata` for leaf `k`: resets the leaf's cells, resolves the
     * block size, paints the heading when it is due and not yet painted this
     * draw, then paints the leaf's row and records its cells.
     */
    method DrawMetadata(tree: TreeView, host: Host, k: nat)
      requires Valid()
      requires k < |tree.leaves|
      modifies this`blockCoords, this`maxBlockSize, this`log, this`headingDrawn
      ensures Valid()
      ensures blockCoords == Put(old(blockCoords), tree.leaves[k].id,
                                 DrawnCells(old(config), old(maxBlockSize), old(maxLabelWidth), tree, host, k))
      ensures log == old(log) + HeadingOps(old(config), old(maxBlockSize), old(headingDrawn), tree, k)
                              + DrawnOps(old(config), old(maxBlockSize), old(maxLabelWidth), tree, host, k)
      ensures HeadingCount(log) == HeadingCount(old(log))
                + (if !old(headingDrawn) && HasHeadings(config.showHeaders, tree.treeType, tree.alignLabels) then 1 else 0)
      ensures headingDrawn == (old(headingDrawn) || HasHeadings(config.showHeaders, tree.treeType, tree.alignLabels))
      ensures maxBlockSize == MemoAfter(old(maxBlockSize), tree)
    {
      var leaf := tree.leaves[k];
      ghost var memo, b0 := maxBlockSize, blockCoords;
      var tx, size := BeginLeaf(tree, host, k);
      DrawRow(tree, host, k, tx, size, memo);
      if |leaf.data| > 0 {
        PutPut(b0, leaf.id, [], DrawnCells(config, memo, maxLabelWidth, tree, host, k));
      }
    }

    /** The second half of `drawMetadata` for leaf `k`: its row, when its metadata object is not empty. */
    method DrawRow(tree: TreeView, host: Host, k: nat, tx: real, size: real, ghost memo: Option<real>)
      requires Valid()
      requires k < |tree.leaves|
      requires tx == StartX(tree, config, tree.leaves[k])
      requires size == DrawSize(config, memo, tree)
      modifies this`blockCoords, this`log
      ensures Valid()
      ensures blockCoords == if |tree.leaves[k].data| > 0
                             then Put(old(blockCoords), tree.leaves[k].id, DrawnCells(config, memo, maxLabelWidth, tree, host, k))
                             else old(blockCoords)
      ensures log == old(log) + DrawnOps(config, memo, maxLabelWidth, tree, host, k)
      ensures HeadingCount(log) == HeadingCount(old(log))
    {
      var leaf := tree.leaves[k];
      var ty := 0.0 - size / 2.0;
      if |leaf.data| > 0 {
        var columnNames := LeafColumns(config, leaf);
        var stepCorrection := StepCorrection(tree, config);
        var font := FontString(tree, config, host);
        var L := LeafLayout(leaf, ty, size, stepCorrection, config.blockLength, config.padding,
                            config.showLabels, maxLabelWidth, config.fillStyle, font);
        assert L == LayoutOf(config, memo, maxLabelWidth, tree, host, k);
        PaintLeaf(L, columnNames, tx, leaf.id);
      }
    }

    /** The `drawLeaf` wrapper: after the host draws the leaf, its metadata while active. */
    method DrawLeaf(tree: TreeView, host: Host, k: nat)
      requires Valid()
      requires k < |tree.leaves|
      modifies this`blockCoords, this`maxBlockSize, this`log, this`headingDrawn
      ensures Valid()
      ensures !config.active ==> unchanged(this)
      ensures config.active ==>
                && log == old(log) + HeadingOps(old(config), old(maxBlockSize), old(headingDrawn), tree, k)
                                   + DrawnOps(old(config), old(maxBlockSize), old(maxLabelWidth), tree, host, k)
                && headingDrawn == (old(headingDrawn) || HasHeadings(config.showHeaders, tree.treeType, tree.alignLabels))
                && HeadingCount(log) == HeadingCount(old(log))
                     + (if !old(headingDrawn) && HasHeadings(config.showHeaders, tree.treeType, tree.alignLabels) then 1 else 0)
                && blockCoords == Put(old(blockCoords), tree.leaves[k].id,
                                      DrawnCells(old(config), old(maxBlockSize), old(maxLabelWidth), tree, host, k))
                && maxBlockSize == MemoAfter(old(maxBlockSize), tree)
    {
      if config.active {
        DrawMetadata(tree, host, k);
      }
    }

    /** One leaf of an active draw, carrying what the earlier leaves left. */
    method DrawNext(tree: TreeView, host: Host, k: nat, ghost b0: seq<Row>, ghost m0: Option<real>)
      requires Valid() && config.active
      requires k < |tree.leaves|
      requires DrawnSoFar(b0, m0, blockCoords, log, maxBlockSize, headingDrawn, config, maxLabelWidth, tree, host, k)
      modifies this`blockCoords, this`maxBlockSize, this`log, this`headingDrawn
      ensures Valid()
      ensures DrawnSoFar(b0, m0, blockCoords, log, maxBlockSize, headingDrawn, config, maxLabelWidth, tree, host, k + 1)
    {
      ghost var before, log0, memo, drawn := blockCoords, log, maxBlockSize, headingDrawn;
      DrawLeaf(tree, host, k);
      DrawnSoFarStep(b0, m0, before, log0, memo, drawn, config, maxLabelWidth, tree, host, k,
                     blockCoords, log, maxBlockSize, headingDrawn);
    }

    /**
     * The `draw` wrapper around the host's leaf loop: every leaf is drawn in
     * order, and the heading row is painted exactly once when metadata is
     * active, headings are due and the tree has a leaf; otherwise never.
     * While active, the plugin paints `DrawLog`: each leaf's heading when
     * due and its blocks and labels, leaf by leaf. Each leaf's id ends up
     * holding the cells of the last leaf with that id, ids new to the index
     * are enumerated after the old ones in the order their leaves come,
     * every other id is left as it was, and the block size memo is what the
     * first leaf left behind; while inactive nothing is painted or changed.
     */
    method Draw(tree: TreeView, host: Host)
      requires Valid()
      modifies this`blockCoords, this`maxBlockSize, this`log, this`headingDrawn
      ensures Valid()
      ensures HeadingCount(log) == if config.active && |tree.leaves| > 0
                                      && HasHeadings(config.showHeaders, tree.treeType, tree.alignLabels)
                                   then 1 else 0
      ensures config.active ==> log == DrawLog(config, old(maxBlockSize), maxLabelWidth, tree, host, |tree.leaves|)
      ensures config.active ==>
                IndexDrawn(old(blockCoords), blockCoords, config, old(maxBlockSize), maxLabelWidth,
                           tree, host, |tree.leaves|)
      ensures config.active ==> Ids(blockCoords) == IdsAfter(Ids(old(blockCoords)), tree.leaves, |tree.leaves|)
      ensures config.active ==>
                maxBlockSize == if |tree.leaves| > 0 then MemoAfter(old(maxBlockSize), tree) else old(maxBlockSize)
      ensures config.active ==>
                headingDrawn == (|tree.leaves| > 0 && HasHeadings(config.showHeaders, tree.treeType, tree.alignLabels))
      ensures !config.active ==>
                && log == []
                && blockCoords == old(blockCoords)
                && maxBlockSize == old(maxBlockSize)
                && headingDrawn == old(headingDrawn)
    {
      ghost var b0, m0 := blockCoords, maxBlockSize;
      DrawStart();
      DrawLeaves(tree, host, b0, m0);
      if config.active {
        DrawLogHeadingCount(config, m0, maxLabelWidth, tree, host, |tree.leaves|);
      }
    }

    /** The host's leaf loop: `drawLeaf` for every leaf in order. */
    method DrawLeaves(tree: TreeView, host: Host, ghost b0: seq<Row>, ghost m0: Option<real>)
      requires Valid()
      requires config.active ==> DrawnSoFar(b0, m0, blockCoords, log, maxBlockSize, headingDrawn,
                                            config, maxLabelWidth, tree, host, 0)
      modifies this`blockCoords, this`maxBlockSize, this`log, this`headingDrawn
      ensures Valid()
      ensures config.active ==> DrawnSoFar(b0, m0, blockCoords, log, maxBlockSize, headingDrawn,
                                           config, maxLabelWidth, tree, host, |tree.leaves|)
      ensures !config.active ==> unchanged(this)
    {
      var k := 0;
      while k < |tree.leaves|
        invariant 0 <= k <= |tree.leaves|
        invariant Valid()
        invariant !config.active ==> unchanged(this)
        invariant config.active ==>
                    DrawnSoFar(b0, m0, blockCoords, log, maxBlockSize, headingDrawn, config, maxLabelWidth, tree, host, k)
      {
        if config.active {
          DrawNext(tree, host, k, b0, m0);
        } else {
          DrawLeaf(tree, host, k);
        }
        k := k + 1;
      }
    }
  }
}
