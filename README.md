# Metadata blocks for phylogenetic trees — a Dafny model

This project models the layout core of the phylocanvas metadata plugin
(`src/index.js`). The plugin paints one row of coloured blocks next to every
leaf of a tree, one block per metadata column. It can also paint a label in
each block and a heading row above the first leaf. It records a hit-test
rectangle ("cell") for every block it paints, and it reports how much room
the rows take so that the host can size the tree.

The model has nine modules:

- `Wrappers`: the `Option` type. `None` stands for a `TypeError` the source
  would throw, or for a property that is not set.
- `Numbers`: JavaScript numbers that may become `NaN`. The source produces
  `NaN` by adding `undefined`, for example a column width that was never
  measured.
- `Model`: the values the plugin reads and produces. These are the leaf
  metadata objects (a sequence of properties in `Object.keys` order), the
  tree, the options, the cells and the paint operations.
- `Layout`: the pure rules: `getFontString`, `getMetadataColumnNames`,
  `hasMetadataHeadings`, `getMetadataLength`, the block-size choice, where a
  row starts, and the `getBounds` and `getTotalLength` wrappers.
- `Render`: one leaf's row as `drawMetadata` paints it. The column loop
  (cursor `tx`, counter `i` from 1) is a method proved against recursive
  functions that describe the whole row.
- `BlockIndex`: the hit-test index `_blockCoords`, an object from leaf id to
  cells, kept as an ordered association list.
- `Measure`: `setMaxLabelWidths`. Its loops are methods proved against the
  per-column maximum and the widest heading.
- `HitTest`: `findMetadataBlock`. Its nested loop with early return is proved
  to find the first cell that holds the point.
- `Plugin`: the per-tree state `tree.metadata` as a class with the fields
  the source updates. Its methods are `getMetadataMaxBlockSize`,
  `setMaxLabelWidths`, `drawMetadata` and the `createTree`,
  `Prerenderer.run`, `draw` and `drawLeaf` wrappers.

Each call to a host service is a parameter of type `Host`: text measurement
(`ctx.measureText`), `Math.cos`, and number-to-string conversion. Canvas
painting is an append-only log of operations (`Heading`, `Block`, `Label`)
in the field `log`. The log is emptied when a draw starts.

Things the code does differently from what its documentation suggests. The
model follows the code in each case:

- Column names come from `tree.leaves[0]` only, not from the first leaf that
  has metadata. When there are no configured columns and no leaves, the
  source throws; that case is `None`.
- `Prerenderer.run` measures labels even while the plugin is inactive.
- A leaf's entry in `_blockCoords` is reset when that leaf is drawn again. An
  entry for a leaf that is no longer drawn stays in the index.
- `_maxHeaderWidth` is updated only when `showLabels` holds. Otherwise it
  stays 0.
- `getMetadataLength` adds only the LAST column's label width, because its
  `reduce` callback ignores the accumulator. A row painted with labels moves
  the cursor further than that: by the label widths of all the other columns
  too (`Plugin.LengthWithLabels`).
- `hasMetadataHeadings` reads `diagonal || (alignLabels && rectangular ||
  hierarchical)`. So a hierarchical tree gets headings whatever
  `alignLabels` is.
- The block-size memo `_maxBlockSize` is cleared only in the `Prerenderer.run`
  wrapper (src/index.js:355), not when a draw starts: the `draw` wrapper
  (src/index.js:358-363) leaves it. So a size stored by one draw is reused by
  every later draw until the next prerender (`Layout.MemoIsSticky`).
- `getTotalLength` (src/index.js:392-399) reserves room for the columns of
  `tree.leaves[0]` only, while `drawMetadata` (src/index.js:174) paints each
  leaf's own properties when no columns are configured. A leaf with more
  properties than the first leaf then paints a longer row than the room
  reserved for it.

## Model

| member | source | states |
|---|---|---|
| Layout.FontSize | src/index.js:38 | the derived point size is `min(textSize, blockLength)`: at most both and equal to one of them |
| Layout.FontString | src/index.js:34-39 | a truthy configured font is used as is; otherwise the font is "<size>pt <tree font>" |
| Layout.ColumnNames | src/index.js:41-47 | configured columns are returned verbatim; a missing first leaf (the TypeError) happens exactly when there are no columns and no leaves; otherwise the first leaf's keys |
| Layout.ColumnNamesFromFirstLeaf | src/index.js:41-47 | derived columns are the first leaf's property names in enumeration order, each once, and a name is a column exactly when that leaf defines it |
| Model.LookupSpec | src/index.js:183 | `data[name]` is defined exactly when `name` is a key, and then it is that property's value |
| Layout.HasHeadings | src/index.js:49-56 | no headings without `showHeaders`; with it, diagonal and hierarchical always, rectangular exactly when labels are aligned, circular and radial never |
| Layout.ReduceLastIsLast | src/index.js:61 | the `reduce` yields the width of the last column only, or its start value for no columns |
| Layout.LabelShare | src/index.js:61 | the label share of the length is 0 without labels or columns, else the last column's width |
| Layout.MetadataLength | src/index.js:58-63 | `cols.length * (blockLength + padding)`, plus the last column's width when labels show and there is a column; fails exactly when the columns cannot be resolved |
| Layout.TotalLength | src/index.js:392-399 | the branch length is unchanged while inactive; while active the metadata length is added, and the call fails when that length does |
| Plugin.LengthWithoutLabels | src/index.js:58-63 | without labels the metadata length equals the cursor movement of a row painted over the resolved columns |
| Plugin.LengthWithLabels | src/index.js:58-63 | with labels and every column measured, a row painted over the resolved columns moves the cursor by the metadata length plus the widths of all columns but the last |
| Layout.ResolveSize | src/index.js:154 | the block size is `min(maxSize, blockSize)` when a size is configured, else `maxSize` |
| Layout.MaxSize | src/index.js:65-89 | a truthy memo is returned; else circular and radial trees use their computed size; else the tree step |
| Layout.MemoAfter | src/index.js:65-89 | only circular and radial trees without a truthy memo store their size |
| Layout.MemoIsSticky | src/index.js:66-68 | once a non-zero size is stored, every later call returns it and keeps it, whatever the tree |
| Layout.StepWithoutMemo | src/index.js:87-88 | a non-circular tree without a memo uses its step and stores nothing |
| Layout.SizeWithinMax | src/index.js:152-154 | the resolved block size never exceeds the maximum size or the configured size |
| Layout.StepCorrection | src/index.js:177-180 | the height step per column is 0 unless the tree is circular with aligned labels; then it is a full turn times `blockLength` shared among the leaves |
| Layout.StartX | src/index.js:142-160 | a row starts at the label start, plus the label length when labels show or the leaf is hovered and highlighted, plus the alignment offset, plus the padding |
| Layout.ExtendBounds | src/index.js:365-383 | the max corner never changes; nothing changes while inactive; min-x gives up header width plus height for hierarchical trees, min-y for rectangular and diagonal ones |
| Layout.ExtendBoundsOnlyGrows | src/index.js:365-383 | with finite, non-negative header dimensions the bounds only grow, and only on the axis the tree type picks |
| Render.PaintColumn | src/index.js:183-204 | a column with a defined value on a non-transparent leaf records one cell and paints its block and, when due, its label; other columns record and paint nothing |
| Render.StepCursor | src/index.js:205-208 | every column advances the cursor by `blockLength + padding`, plus its width when labels show |
| Render.PaintRow | src/index.js:176-210 | the column loop records exactly the row's cells and paints exactly its operations, and the final cursor is the start plus the movement over all columns |
| Render.RowCellsClosedForm | src/index.js:182-210 | column `k` is recorded, when shown, at the start plus the advance over ALL earlier columns (drawn or not), with counter `k + 1` |
| Render.RowCellsColumns | src/index.js:182-195 | a row records exactly one cell per shown column, in column order |
| Render.ShownColumns | src/index.js:183 | a column is shown exactly when the leaf defines it and the leaf is not transparent |
| Render.RowCellsShape | src/index.js:187-195 | every cell is `blockLength` wide, belongs to the leaf, carries its column's value and sits at the row's top plus the leaf's y; none on a transparent leaf |
| Render.SumAdvanceClosedForm | src/index.js:205-208 | the cursor moves by `cols.length * (blockLength + padding)`, plus the sum of the widths when labels show; by `NaN` when a shown label's column was never measured |
| Render.RowOpsNoHeading | src/index.js:182-210 | the column loop never paints a heading |
| BlockIndex.Get | src/index.js:146 | a leaf id is absent exactly when it is not a property of the index |
| BlockIndex.PutGet | src/index.js:146 | after `blocks[id] = cells`, `blocks[id]` is `cells` and every other id reads as before |
| BlockIndex.PutIds | src/index.js:146 | an existing id keeps its place and a new one is enumerated last |
| BlockIndex.PutDistinct | src/index.js:146 | ids in the index stay distinct |
| BlockIndex.PutPut | src/index.js:146 | resetting an entry and then writing it leaves only the second write |
| Measure.LabelWidth | src/index.js:239-240 | a leaf contributes a width for a column exactly when its value there carries a string label |
| Measure.ColumnMaxIsMax | src/index.js:228-245 | a column's entry is at least its projected heading width and every label width found in it, and it equals one of those |
| Measure.LabelWidths | src/index.js:226-250 | the measured columns are exactly the resolved ones; without labels every entry is 0 |
| Measure.HeaderMaxIsMax | src/index.js:223-234 | the widest heading is at least 0 and every heading's width, and it is 0 or one of them |
| Measure.MeasureHeadings | src/index.js:228-234 | the heading loop maps every column to its projected heading width and tracks the widest heading |
| Measure.RaiseByLeaf | src/index.js:237-244 | the inner loop raises every column's entry to that leaf's label width when it is larger |
| Measure.MeasureColumns | src/index.js:226-250 | the loops compute exactly the per-column maxima (or zeros without labels), and the widest heading (or 0 without labels) |
| HitTest.FirstHitSpec | src/index.js:264-274 | the search result holds the point and no earlier cell does; there is no result exactly when no cell holds the point |
| HitTest.FirstHitAppend | src/index.js:265-272 | searching two runs of cells is searching the first and then the second |
| HitTest.FindMetadataBlock | src/index.js:264-274 | the nested scan with early return finds the first cell, leaf by leaf, that holds the point |
| Model.HeadingCountNone | src/index.js:164-166 | a log without heading operations counts no headings |
| Model.HeadingCountAppend | src/index.js:164-166 | heading counts add up over concatenated logs |
| Numbers.PlusAssoc | src/index.js:205-208 | addition of the model's numbers (reals and `NaN`) is associative, so the cursor may add block and label widths in either grouping |
| Numbers.PlusZero | src/index.js:205-208 | adding 0 leaves a number, `NaN` included, as it is |
| Model.MergeNothing | src/index.js:8-29 | a tree without user options gets exactly the default options |
| Model.MergeTakesOverrides | src/index.js:338 | every option the user sets is taken as given and every other one is the default |
| Layout.MemoAfterStable | src/index.js:65-89 | asking again over the same tree gives the same maximum and leaves the memo as it is |
| Plugin.DrawnCellsAfterMemo | src/index.js:65-89 | a leaf resolves to the same cells, blocks, labels and heading whether the memo is the one before the first leaf or the one it left behind |
| Plugin.HeadingOpsCount | src/index.js:164-167 | the heading part of a leaf's paint holds one heading exactly when it is due and not yet drawn |
| Plugin.DrawnOpsCount | src/index.js:169-212 | a leaf's blocks and labels hold no heading |
| Plugin.DrawLogHeadingCount | src/index.js:164-167 | a whole draw's paint holds the heading row once when it is due and the tree has a leaf, and never otherwise |
| Plugin.IdsAfterMembers | src/index.js:146 | after a draw the index enumerates its old ids first, in their old order, and holds exactly the old ids and the drawn leaves' ids |
| Plugin.DrawLogStep | src/index.js:135-213 | one more active leaf, with the memo and flag the earlier leaves left, appends exactly that leaf's part of the draw's paint |
| Plugin.DrawnSoFarStep | src/index.js:135-213 | one more active leaf carries the whole-draw state (memo, flag, paint, index contents and order) from `n` leaves to `n + 1` |
| Plugin.IndexDrawnStep | src/index.js:146 | writing leaf `n`'s cells makes each id of the first `n + 1` leaves read as the cells of the last of them with that id, and leaves every other id as before |
| Plugin.RowStart | src/index.js:142-160 | the cursor steps before the first block compute the row's start |
| Plugin.Metadata.constructor | src/index.js:335-341 | a new tree's options are the user's options merged over the defaults; no heading is drawn, the width map, index and memo are empty, and the header dimensions are `undefined` (NaN) |
| Plugin.Metadata.MaxBlockSize | src/index.js:65-89 | returns the maximum block size and updates the memo as `MaxSize` and `MemoAfter` say |
| Plugin.Metadata.SetMaxLabelWidths | src/index.js:215-254 | fails with nothing changed exactly when the columns cannot be resolved; otherwise the width map is the per-column maxima, the header width the widest heading (0 without labels), the header height the width of "W" |
| Plugin.Metadata.Prerender | src/index.js:351-356 | measures as above and, when that succeeds, clears the block-size memo; nothing else changes |
| Plugin.Metadata.DrawStart | src/index.js:358-363 | while active a draw clears the heading flag; the log of the new draw starts empty |
| Plugin.Metadata.SetCells | src/index.js:146 | the leaf's entry is replaced and ids stay distinct |
| Plugin.Metadata.HeadingOnce | src/index.js:164-167 | the heading is painted and the flag set exactly when it is due and not yet painted |
| Plugin.Metadata.BeginLeaf | src/index.js:142-167 | the leaf's entry is reset to empty, the row start and block size are computed, the memo is updated and the heading is painted at most once |
| Plugin.Metadata.DrawRow | src/index.js:169-212 | a leaf with metadata records its row's cells and paints its row; a leaf without metadata keeps the empty entry and paints nothing |
| Plugin.Metadata.PaintLeaf | src/index.js:170-212 | the row's cells replace the leaf's entry and its operations are appended to the log, with no heading among them |
| Plugin.Metadata.DrawMetadata | src/index.js:135-213 | the leaf's entry becomes exactly its row's cells (empty without metadata) and no other entry changes; the log gains the due heading and the row's operations |
| Plugin.Metadata.DrawLeaf | src/index.js:385-390 | while active a leaf is drawn as `DrawMetadata` says; while inactive nothing changes |
| Plugin.Metadata.DrawNext | src/index.js:385-390 | one leaf of an active draw carries the whole-draw state from `k` leaves to `k + 1` |
| Plugin.Metadata.DrawLeaves | src/index.js:385-390 | `drawLeaf` over every leaf in order yields the whole-draw state for all leaves while active, and changes nothing while inactive |
| Plugin.Metadata.Draw | src/index.js:358-363 | while active the plugin paints exactly `DrawLog`: per leaf, the heading when due and not yet painted, then the leaf's blocks and labels; the heading is painted once when due and the tree has a leaf, and never otherwise; each drawn id reads as the cells of the last leaf with that id, new ids are enumerated after the old ones in first-drawn order, every other id reads as before, the memo is the one the first leaf left (unchanged for a tree without leaves), and the heading flag is set exactly when headings are due and the tree has a leaf; while inactive nothing is painted and the index, memo and flag are unchanged |

## Left out

- Canvas primitives (`fillRect`, `fillText`, `rotate`, `beginPath`, `stroke`, and the canvas state they set) are foreign calls. They are kept only as the operations `Heading`, `Block` and `Label` in the log.
- `drawMetadataHeading` (src/index.js:91-133) is text placement by sine and cosine plus underlining. It is recorded as one `Heading` operation at the point it is called with. `strokeStyle`, `lineWidth` and `underlineHeaders` matter only there.
- The circular maximum block size (src/index.js:70-85) uses `Math.hypot` and floating-point division. It is the opaque input `circularMaxSize` of the tree.
- `Math.cos`, text measurement and number-to-string conversion are host parameters. Floating-point rounding is not modelled: coordinates are reals. The closed forms of the cursor (`Render.SumAdvance`, `Render.Advance`) regroup the source's successive `tx +=` steps (src/index.js:205-208) and the label position `tx + blockLength + padding / 4` (src/index.js:202) into sums of pre-added steps; that is sound only because reals, unlike IEEE-754 doubles, add associatively, and in JavaScript the two groupings can differ in the last bit.
- Infinite JavaScript numbers are not modelled. `Num` covers finite values and `NaN`.
- The pixel ratio, mouse-event translation, the tooltip DOM code and the `drag` wrapper (src/index.js:277-332 and 401-412) are browser code outside the layout. `showTooltip` and `tooltipFunc` are used only there.
- The `decorate`, `__lookupGetter__` and `__defineGetter__` plumbing is not modelled. Only the logic inside each wrapper is, and the host delegate's result is an input.
- `Object.assign({}, DEFAULTS, ...)` copies the options shallowly, so every tree shares the same `_blockCoords` object. The model gives each `Metadata` object its own index.
- JavaScript enumerates integer-like property names in numeric order before the others. The model keeps every property in insertion order.
- `propertyName` is not modelled: a leaf's metadata object is its `data` field. A leaf without a metadata object, and metadata values that are `null` or neither string nor object, are not modelled (the source would throw or read garbage).
- Plugin.Metadata.constructor: takes only the documented options. A user object that also sets the internal `_headingDrawn`, `_maxLabelWidth` or `_blockCoords`, or an option other than those in `Overrides`, or an option whose value is `undefined`, is not modelled; the state starts from the defaults.
- The patched `alignLabels` getter (src/index.js:343-349) is not modelled as a function. `TreeView.alignLabels` is the value that getter returns, taken as an input: while metadata is active that is `labelAlign && labelAlignEnabled`.
- Plugin.Metadata.Draw: the host's own `draw` (the delegate at src/index.js:362) is modelled as one `drawLeaf` per element of `tree.leaves`, in order, over a tree that does not change during the draw; what the host itself paints (branches, labels) is not in the log.
- Plugin.Metadata.Prerender: the host's own `Prerenderer.run` step that runs before it is not modelled; only the plugin's part is.
- webpack.config.js and dev/index.js are not part of this model: they are build configuration and a demo page.
