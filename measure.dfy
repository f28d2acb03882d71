/**
 * The measurement pass `setMaxLabelWidths`: the widest heading, and per
 * column the widest of its projected heading width and its leaves' labels.
 */
module Measure {
  import opened Wrappers
  import opened Model

  /** The width of leaf's label in column `c`, when its value carries a string label. */
  function LabelWidth(host: Host, font: string, leaf: Leaf, c: string): (t: Option<real>)
    ensures t.Some? <==> Lookup(leaf.data, c).Some? && Lookup(leaf.data, c).value.Labelled?
                         && Lookup(leaf.data, c).value.text.Some?
  {
    match Lookup(leaf.data, c)
    case Some(Labelled(_, Some(s))) => Some(host.measure(font, s))
    case _ => None
  }

  /** `if (t > m) m = t`, for a width `t` that may be absent. */
  function Raise(m: real, t: Option<real>): real
  {
    if t.Some? && t.value > m then t.value else m
  }

  /**
   * The entry of column `c` once the leaves `ls` have been scanned: it starts
   * at the heading's width projected by `cosine` and is raised by every
   * label of the column, leaf by leaf.
   */
  function ColumnMax(host: Host, font: string, cosine: real, ls: seq<Leaf>, c: string): real
  {
    if ls == [] then cosine * host.measure(font, c)
    else Raise(ColumnMax(host, font, cosine, ls[..|ls| - 1], c), LabelWidth(host, font, ls[|ls| - 1], c))
  }

  /**
   * A column's entry is at least its projected heading width and at least
   * every label found in it, and it is one of those widths.
   */
  lemma {:induction false} ColumnMaxIsMax(host: Host, font: string, cosine: real, ls: seq<Leaf>, c: string)
    ensures cosine * host.measure(font, c) <= ColumnMax(host, font, cosine, ls, c)
    ensures forall k :: 0 <= k < |ls| && LabelWidth(host, font, ls[k], c).Some? ==>
              LabelWidth(host, font, ls[k], c).value <= ColumnMax(host, font, cosine, ls, c)
    ensures || ColumnMax(host, font, cosine, ls, c) == cosine * host.measure(font, c)
            || exists k :: 0 <= k < |ls| && LabelWidth(host, font, ls[k], c) == Some(ColumnMax(host, font, cosine, ls, c))
  {
    if ls != [] {
      var init := ls[..|ls| - 1];
      ColumnMaxIsMax(host, font, cosine, init, c);
      assert forall k :: 0 <= k < |init| ==> init[k] == ls[k];
      var m := ColumnMax(host, font, cosine, init, c);
      if m != cosine * host.measure(font, c) && ColumnMax(host, font, cosine, ls, c) == m {
        var k :| 0 <= k < |init| && LabelWidth(host, font, init[k], c) == Some(m);
        assert LabelWidth(host, font, ls[k], c) == Some(m);
      }
    }
  }

  /** The per-column map of the measurement pass. */
  function LabelWidths(host: Host, font: string, cosine: real, showLabels: bool,
                       cols: seq<string>, leaves: seq<Leaf>): (m: map<string, real>)
    ensures forall c :: c in m <==> c in cols
    ensures !showLabels ==> forall c :: c in m ==> m[c] == 0.0
  {
    map c | c in cols :: if showLabels then ColumnMax(host, font, cosine, leaves, c) else 0.0
  }

  /** The widest heading among `cols`, starting from 0. */
  function HeaderMax(host: Host, font: string, cols: seq<string>): real
  {
    if cols == [] then 0.0
    else
      var m := HeaderMax(host, font, cols[..|cols| - 1]);
      var w := host.measure(font, cols[|cols| - 1]);
      if w > m then w else m
  }

  /** The widest heading is at least 0 and every heading's width, and it is 0 or one of them. */
  lemma {:induction false} HeaderMaxIsMax(host: Host, font: string, cols: seq<string>)
    ensures HeaderMax(host, font, cols) >= 0.0
    ensures forall c :: c in cols ==> host.measure(font, c) <= HeaderMax(host, font, cols)
    ensures HeaderMax(host, font, cols) == 0.0
            || exists c :: c in cols && host.measure(font, c) == HeaderMax(host, font, cols)
  {
    if cols != [] {
      var init := cols[..|cols| - 1];
      HeaderMaxIsMax(host, font, init);
      assert cols == init + [cols[|cols| - 1]];
      assert forall c :: c in init ==> c in cols;
    }
  }

  /** What the heading loop knows after its first `j` columns. */
  ghost predicate HeadingsDone(host: Host, font: string, cosine: real, cols: seq<string>, j: nat,
                               widths: map<string, real>, headerWidth: real)
    requires j <= |cols|
  {
    && (forall c :: c in widths <==> c in cols[..j])
    && (forall c :: c in widths ==> widths[c] == ColumnMax(host, font, cosine, [], c))
    && headerWidth == HeaderMax(host, font, cols[..j])
  }

  /** One more heading: its entry is its projected width, and the widest so far is raised by its width. */
  lemma HeadingStep(host: Host, font: string, cosine: real, cols: seq<string>, j: nat,
                    widths: map<string, real>, headerWidth: real)
    requires j < |cols|
    requires HeadingsDone(host, font, cosine, cols, j, widths, headerWidth)
    ensures var w := host.measure(font, cols[j]);
            HeadingsDone(host, font, cosine, cols, j + 1, widths[cols[j] := cosine * w],
                         if w > headerWidth then w else headerWidth)
  {
    var next := cols[..j + 1];
    assert next[..|next| - 1] == cols[..j] && next[|next| - 1] == cols[j];
    assert next == cols[..j] + [cols[j]];
  }

  /** The heading loop: every column starts at its projected heading width; the widest heading is tracked. */
  method MeasureHeadings(host: Host, font: string, cosine: real, cols: seq<string>)
    returns (widths: map<string, real>, headerWidth: real)
    ensures forall c :: c in widths <==> c in cols
    ensures forall c :: c in widths ==> widths[c] == ColumnMax(host, font, cosine, [], c)
    ensures headerWidth == HeaderMax(host, font, cols)
  {
    headerWidth := 0.0;
    widths := map[];
    var j := 0;
    while j < |cols|
      invariant 0 <= j <= |cols|
      invariant HeadingsDone(host, font, cosine, cols, j, widths, headerWidth)
    {
      HeadingStep(host, font, cosine, cols, j, widths, headerWidth);
      var col := cols[j];
      var labelWidth := host.measure(font, col);
      widths := widths[col := cosine * labelWidth];
      if labelWidth > headerWidth {
        headerWidth := labelWidth;
      }
      j := j + 1;
    }
    assert cols[..j] == cols;
  }

  /** The inner loop over the columns for one more leaf: each entry is raised by that leaf's label. */
  method RaiseByLeaf(host: Host, font: string, cosine: real, cols: seq<string>, leaves: seq<Leaf>, n: nat,
                     widths0: map<string, real>)
    returns (widths: map<string, real>)
    requires n < |leaves|
    requires forall c :: c in widths0 <==> c in cols
    requires forall c :: c in widths0 ==> widths0[c] == ColumnMax(host, font, cosine, leaves[..n], c)
    ensures forall c :: c in widths <==> c in cols
    ensures forall c :: c in widths ==> widths[c] == ColumnMax(host, font, cosine, leaves[..n + 1], c)
  {
    widths := widths0;
    var leaf := leaves[n];
    assert leaves[..n + 1][..n] == leaves[..n];
    assert leaves[..n + 1][n] == leaf;
    var k := 0;
    while k < |cols|
      invariant 0 <= k <= |cols|
      invariant forall c :: c in widths <==> c in cols
      invariant forall c :: c in widths ==>
                  widths[c] == if c in cols[..k] then ColumnMax(host, font, cosine, leaves[..n + 1], c)
                               else ColumnMax(host, font, cosine, leaves[..n], c)
    {
      var columnName := cols[k];
      var v := Lookup(leaf.data, columnName);
      if v.Some? && v.value.Labelled? && v.value.text.Some? {
        var textWidth := host.measure(font, v.value.text.value);
        if textWidth > widths[columnName] {
          widths := widths[columnName := textWidth];
        }
      }
      assert cols[..k + 1] == cols[..k] + [columnName];
      k := k + 1;
    }
    assert cols[..k] == cols;
  }

  /**
   * The two loops of `setMaxLabelWidths`: with labels shown, the headings
   * first (tracking the widest), then every leaf's labels column by column;
   * without labels, every column maps to 0 and no heading is measured.
   */
  method MeasureColumns(host: Host, font: string, cosine: real, showLabels: bool,
                        cols: seq<string>, leaves: seq<Leaf>)
    returns (widths: map<string, real>, headerWidth: real)
    ensures widths == LabelWidths(host, font, cosine, showLabels, cols, leaves)
    ensures headerWidth == if showLabels then HeaderMax(host, font, cols) else 0.0
  {
    headerWidth := 0.0;
    widths := map[];
    if showLabels {
      widths, headerWidth := MeasureHeadings(host, font, cosine, cols);
      var n := 0;
      assert leaves[..0] == [];
      while n < |leaves|
        invariant 0 <= n <= |leaves|
        invariant forall c :: c in widths <==> c in cols
        invariant forall c :: c in widths ==> widths[c] == ColumnMax(host, font, cosine, leaves[..n], c)
      {
        widths := RaiseByLeaf(host, font, cosine, cols, leaves, n, widths);
        n := n + 1;
      }
      assert leaves[..n] == leaves;
    } else {
      var j := 0;
      while j < |cols|
        invariant 0 <= j <= |cols|
        invariant forall c :: c in widths <==> c in cols[..j]
        invariant forall c :: c in widths ==> widths[c] == 0.0
      {
        widths := widths[cols[j] := 0.0];
        assert cols[..j + 1] == cols[..j] + [cols[j]];
        j := j + 1;
      }
      assert cols[..j] == cols;
    }
  }
}
