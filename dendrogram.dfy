/**
  The dendrogram layout of `DendrogramPlot.dendrogram` (orange/orngDendrogram.py): from a
  hierarchical-clustering result it computes where every leaf row, every cluster and every
  line of the picture goes, before anything is drawn.

  Leaves and clusters share one addressing scheme. A merge names its two children by an
  integer: `-k` is leaf `k` (1-based) and a positive `c` is the cluster made by merge `c - 1`.
  The position lists hold leaf `k` at index `n - k`, a sentinel at index `n`, and cluster `c`
  at index `n + c`, so that child `j` of any merge lives at index `n + j`.
*/
module Dendrogram {
  import opened Options

  /** The colouring functions the renderers pick from (`_colorize0`, `_colorize1`, `_blackwhite`). */
  datatype Scheme = Aleks | Gregor | BlackWhite

  /**
    A colour, kept symbolic: either the fixed black, or the colour that a colouring scheme
    gives to a value. The floating-point formulas of the schemes are not modelled.
  */
  datatype Color = Black | Shade(scheme: Scheme, value: real)

  /** `color_mode` of `dendrogram`: any true value selects the second scheme. */
  function DendrogramScheme(colorMode: int): (s: Scheme)
    ensures s == Gregor <==> colorMode != 0
    ensures s != BlackWhite
  {
    if colorMode != 0 then Gregor else Aleks
  }

  /**
    A hierarchical-clustering result: `n` objects, `order[i]` the (1-based) leaf shown in
    row `i`, `merging[i]` the two children joined by merge `i`, `heights[i]` its height.
  */
  datatype Clustering = Clustering(n: nat, order: seq<int>, merging: seq<(int, int)>, heights: seq<real>)

  /** The number of merges, `n - 1` (the loop `range(n - 1)` is empty when `n` is 0). */
  function Merges(c: Clustering): nat
  {
    if c.n == 0 then 0 else c.n - 1
  }

  /** `j` may be a child of merge `i`: a leaf, or a cluster made by an earlier merge. */
  predicate ValidChild(j: int, n: nat, i: nat)
  {
    (j < 0 && -j <= n) || (0 < j <= i)
  }

  /** `j` names a leaf or a cluster. */
  predicate IsNode(c: Clustering, j: int)
  {
    (j < 0 && -j <= c.n) || (0 < j <= Merges(c))
  }

  /**
    What the layout loops index: the `rows` displayed rows name leaves, every merge names
    leaves or earlier clusters, and there is a merge and a height for each of the n - 1 steps.
  */
  predicate WellFormed(c: Clustering, rows: nat)
  {
    && rows <= |c.order|
    && |c.merging| >= Merges(c)
    && |c.heights| >= Merges(c)
    && (forall i :: 0 <= i < rows ==> 1 <= c.order[i] <= c.n)
    && (forall i :: 0 <= i < Merges(c) ==> ValidChild(c.merging[i].0, c.n, i) && ValidChild(c.merging[i].1, c.n, i))
  }

  /**
    The layout inputs besides the clustering: the number of label rows, the top margin, the
    distance between rows, the optional colour pairs of the merges, the colouring scheme and
    whether merge heights are measured from the children (incremental) or accumulated.
  */
  datatype Params = Params(
    rows: nat,
    margin: real,
    lineskip: real,
    clusterColors: seq<(real, real)>,
    scheme: Scheme,
    incremental: bool)

  /** An entry of the position lists: the sentinel string or a coordinate. */
  datatype Slot = Sentry | At(pos: real)

  /** A vertical line at `x` from `y1` to `y2`: the merge itself. */
  datatype VLine = VLine(x: real, y1: real, y2: real, color: Color)

  /** A horizontal line at `y` from `x1` to `x2`: a cluster child joined to its parent. */
  datatype HLine = HLine(y: real, x1: real, x2: real, color: Color)

  /**
    Everything the extraction computes: the lines, the label origins and hook colours per
    leaf (`None` stands for the integer placeholder of a leaf no merge names), the position
    lists, and the two accumulators the drawing code reads afterwards.
  */
  datatype Layout = Layout(
    vlines: seq<VLine>,
    hlines: seq<HLine>,
    origins: seq<real>,
    hooks: seq<Option<Color>>,
    xpositions: seq<Slot>,
    ypositions: seq<Slot>,
    height: real,
    displacement: real)

  function Min(a: real, b: real): (r: real)
    ensures r <= a && r <= b
    ensures r == a || r == b
  {
    if a <= b then a else b
  }

  function Max(a: real, b: real): (r: real)
    ensures r >= a && r >= b
    ensures r == a || r == b
  {
    if a >= b then a else b
  }

  /**
    The y of leaf `k` once the rows `shown` are placed, row `i` at `margin + i * lineskip`:
    the last row that shows `k` decides; a leaf no row shows keeps 0.
  */
  function RowY(shown: seq<int>, margin: real, lineskip: real, k: int): real
  {
    if shown == [] then 0.0
    else if shown[|shown| - 1] == k then margin + (|shown| - 1) as real * lineskip
    else RowY(shown[..|shown| - 1], margin, lineskip, k)
  }

  function LeafY(c: Clustering, p: Params, k: int): real
    requires p.rows <= |c.order|
  {
    RowY(c.order[..p.rows], p.margin, p.lineskip, k)
  }

  /** The running height after `k` non-incremental merges: 0 minus the first `k` heights. */
  function RunningHeight(heights: seq<real>, k: nat): real
    requires k <= |heights|
  {
    if k == 0 then 0.0 else RunningHeight(heights, k - 1) - heights[k - 1]
  }

  /** The x of node `j`: leaves stand at 0, a cluster where its merge put it. */
  function NodeX(c: Clustering, p: Params, j: int): real
    requires WellFormed(c, p.rows) && IsNode(c, j)
    decreases if j > 0 then j else 0, 0
  {
    if j < 0 then 0.0 else MergeX(c, p, j - 1)
  }

  /**
    The x (`nheight`) of merge `i`: its nearer child's x minus its height when heights are
    incremental, the running height otherwise.
  */
  function MergeX(c: Clustering, p: Params, i: nat): real
    requires WellFormed(c, p.rows) && i < Merges(c)
    decreases i, 1
  {
    if p.incremental then
      Min(NodeX(c, p, c.merging[i].0), NodeX(c, p, c.merging[i].1)) - c.heights[i]
    else
      RunningHeight(c.heights, i + 1)
  }

  /** The y of node `j`: its row for a leaf, the mean of its children for a cluster. */
  function NodeY(c: Clustering, p: Params, j: int): real
    requires WellFormed(c, p.rows) && IsNode(c, j)
    decreases if j > 0 then j else 0, 0
  {
    if j < 0 then LeafY(c, p, -j) else MergeY(c, p, j - 1)
  }

  function MergeY(c: Clustering, p: Params, i: nat): real
    requires WellFormed(c, p.rows) && i < Merges(c)
    decreases i, 1
  {
    0.5 * (NodeY(c, p, c.merging[i].0) + NodeY(c, p, c.merging[i].1))
  }

  /** The colours come from `clusterColors` only when there is exactly one pair per merge. */
  function VColor(c: Clustering, p: Params, i: nat): Color
    requires i < |p.clusterColors| || |p.clusterColors| != c.n - 1
  {
    if |p.clusterColors| == c.n - 1 then Shade(p.scheme, p.clusterColors[i].0) else Black
  }

  function HColor(c: Clustering, p: Params, i: nat): Color
    requires i < |p.clusterColors| || |p.clusterColors| != c.n - 1
  {
    if |p.clusterColors| == c.n - 1 then Shade(p.scheme, p.clusterColors[i].1) else Black
  }

  /** The vertical line of merge `i`, spanning the y of its two children. */
  function MergeVLine(c: Clustering, p: Params, i: nat): VLine
    requires WellFormed(c, p.rows) && i < Merges(c)
  {
    VLine(MergeX(c, p, i), NodeY(c, p, c.merging[i].0), NodeY(c, p, c.merging[i].1), VColor(c, p, i))
  }

  /** The horizontal line joining child `j` of merge `i`, if `j` is a cluster. */
  function ChildHLine(c: Clustering, p: Params, i: nat, j: int): seq<HLine>
    requires WellFormed(c, p.rows) && i < Merges(c) && ValidChild(j, c.n, i)
  {
    if j > 0 then [HLine(NodeY(c, p, j), NodeX(c, p, j), MergeX(c, p, i), HColor(c, p, i))] else []
  }

  /** The horizontal lines of the first `k` merges, in the order they are made. */
  function HLinesUpTo(c: Clustering, p: Params, k: nat): seq<HLine>
    requires WellFormed(c, p.rows) && k <= Merges(c)
  {
    if k == 0 then []
    else HLinesUpTo(c, p, k - 1) + ChildHLine(c, p, k - 1, c.merging[k - 1].0) + ChildHLine(c, p, k - 1, c.merging[k - 1].1)
  }

  /** Merge `i` names leaf `leaf` as one of its children. */
  predicate Names(c: Clustering, i: nat, leaf: int)
    requires i < |c.merging|
  {
    c.merging[i].0 == -leaf || c.merging[i].1 == -leaf
  }

  /** Writes `x` at the slot of child `j` when `j` is a leaf (`origins[-1 - j]`). */
  function RecordLeaf<T>(s: seq<T>, j: int, x: T): (r: seq<T>)
    requires j < 0 ==> -j <= |s|
    ensures |r| == |s|
  {
    if j < 0 then s[-1 - j := x] else s
  }

  /** The label origins after the first `k` merges: each merge writes its x at its leaf children. */
  function Origins(c: Clustering, p: Params, k: nat): (r: seq<real>)
    requires WellFormed(c, p.rows) && k <= Merges(c)
    ensures |r| == c.n
  {
    if k == 0 then seq(c.n, _ => 0.0)
    else
      var x := MergeX(c, p, k - 1);
      RecordLeaf(RecordLeaf(Origins(c, p, k - 1), c.merging[k - 1].0, x), c.merging[k - 1].1, x)
  }

  /** The hook colours after the first `k` merges; `None` is the placeholder no merge replaced. */
  function Hooks(c: Clustering, p: Params, k: nat): (r: seq<Option<Color>>)
    requires WellFormed(c, p.rows) && k <= Merges(c)
    ensures |r| == c.n
  {
    if k == 0 then seq(c.n, _ => None)
    else
      var h := Some(HColor(c, p, k - 1));
      RecordLeaf(RecordLeaf(Hooks(c, p, k - 1), c.merging[k - 1].0, h), c.merging[k - 1].1, h)
  }

  /** The running minimum of 0 and the first `k` merge x's, kept only in incremental mode. */
  function Displacement(c: Clustering, p: Params, k: nat): real
    requires WellFormed(c, p.rows) && k <= Merges(c)
  {
    if k == 0 || !p.incremental then 0.0 else Min(Displacement(c, p, k - 1), MergeX(c, p, k - 1))
  }

  /**
    The value the local `height` holds after `k` merges. It is set to 0.0 before the loop,
    replacing the canvas height, and only non-incremental merges lower it.
  */
  function HeightAfter(c: Clustering, p: Params, k: nat): real
    requires WellFormed(c, p.rows) && k <= Merges(c)
  {
    if p.incremental then 0.0 else RunningHeight(c.heights, k)
  }

  /** The x position list after `k` merges: leaves at 0, the sentinel, then one entry per cluster. */
  function XPositions(c: Clustering, p: Params, k: nat): (r: seq<Slot>)
    requires WellFormed(c, p.rows) && k <= Merges(c)
    ensures |r| == c.n + 1 + k
  {
    seq(c.n, _ => At(0.0)) + [Sentry] + seq(k, t requires 0 <= t < k => At(MergeX(c, p, t)))
  }

  /** The y position list after `k` merges: leaf rows, the sentinel, then one entry per cluster. */
  function YPositions(c: Clustering, p: Params, k: nat): (r: seq<Slot>)
    requires WellFormed(c, p.rows) && k <= Merges(c)
    ensures |r| == c.n + 1 + k
  {
    seq(c.n, idx requires 0 <= idx < c.n => At(LeafY(c, p, c.n - idx))) + [Sentry]
      + seq(k, t requires 0 <= t < k => At(MergeY(c, p, t)))
  }

  /** The vertical lines of the first `k` merges. */
  function VLinesUpTo(c: Clustering, p: Params, k: nat): (r: seq<VLine>)
    requires WellFormed(c, p.rows) && k <= Merges(c)
    ensures |r| == k
  {
    seq(k, t requires 0 <= t < k => MergeVLine(c, p, t))
  }

  /** The layout after the first `k` merges. */
  function LayoutAfter(c: Clustering, p: Params, k: nat): Layout
    requires WellFormed(c, p.rows) && k <= Merges(c)
  {
    Layout(VLinesUpTo(c, p, k), HLinesUpTo(c, p, k), Origins(c, p, k), Hooks(c, p, k),
      XPositions(c, p, k), YPositions(c, p, k), HeightAfter(c, p, k), Displacement(c, p, k))
  }

  /** The whole layout once all `n - 1` merges are made. */
  function LayoutOf(c: Clustering, p: Params): (r: Layout)
    requires WellFormed(c, p.rows)
    ensures |r.vlines| == Merges(c)
    ensures |r.origins| == |r.hooks| == c.n
    ensures |r.xpositions| == |r.ypositions| == c.n + 1 + Merges(c)
    ensures r.xpositions[c.n] == Sentry && r.ypositions[c.n] == Sentry
  {
    var m := Merges(c);
    Layout(VLinesUpTo(c, p, m), HLinesUpTo(c, p, m), Origins(c, p, m), Hooks(c, p, m),
      XPositions(c, p, m), YPositions(c, p, m), HeightAfter(c, p, m), Displacement(c, p, m))
  }

  /** Child `j` of merge `i` is read at index `n + j` of the position lists. */
  lemma NodeSlots(c: Clustering, p: Params, i: nat, j: int)
    requires WellFormed(c, p.rows) && i <= Merges(c) && ValidChild(j, c.n, i)
    ensures c.n + j < |XPositions(c, p, i)|
    ensures XPositions(c, p, i)[c.n + j] == At(NodeX(c, p, j))
    ensures YPositions(c, p, i)[c.n + j] == At(NodeY(c, p, j))
  {
  }

  /** Each merge appends one entry to each list. */
  lemma ListsGrow(c: Clustering, p: Params, i: nat)
    requires WellFormed(c, p.rows) && i < Merges(c)
    ensures XPositions(c, p, i + 1) == XPositions(c, p, i) + [At(MergeX(c, p, i))]
    ensures YPositions(c, p, i + 1) == YPositions(c, p, i) + [At(MergeY(c, p, i))]
    ensures VLinesUpTo(c, p, i + 1) == VLinesUpTo(c, p, i) + [MergeVLine(c, p, i)]
  {
    assert XPositions(c, p, i + 1) == XPositions(c, p, i) + [At(MergeX(c, p, i))];
    assert YPositions(c, p, i + 1) == YPositions(c, p, i) + [At(MergeY(c, p, i))];
  }

  /** Each merge adds the horizontal lines of its cluster children and records its leaf children. */
  lemma RecordsGrow(c: Clustering, p: Params, i: nat)
    requires WellFormed(c, p.rows) && i < Merges(c)
    ensures HLinesUpTo(c, p, i + 1) == HLinesUpTo(c, p, i) + ChildHLine(c, p, i, c.merging[i].0) + ChildHLine(c, p, i, c.merging[i].1)
    ensures Origins(c, p, i + 1)
      == RecordLeaf(RecordLeaf(Origins(c, p, i), c.merging[i].0, MergeX(c, p, i)), c.merging[i].1, MergeX(c, p, i))
    ensures Hooks(c, p, i + 1)
      == RecordLeaf(RecordLeaf(Hooks(c, p, i), c.merging[i].0, Some(HColor(c, p, i))), c.merging[i].1, Some(HColor(c, p, i)))
  {
  }

  /** The row loop: leaf `order[i]` of row `i` gets y = `margin + i * lineskip`, at index `n - order[i]`. */
  method PlaceRows(c: Clustering, p: Params) returns (ypositions: seq<Slot>)
    requires WellFormed(c, p.rows)
    ensures |ypositions| == c.n
    ensures forall idx :: 0 <= idx < c.n ==> ypositions[idx] == At(LeafY(c, p, c.n - idx))
  {
    var n := c.n;
    ypositions := seq(n, _ => At(0.0));
    var y := p.margin;
    var i := 0;
    while i < p.rows
      invariant i <= p.rows
      invariant |ypositions| == n
      invariant y == p.margin + i as real * p.lineskip
      invariant forall idx :: 0 <= idx < n ==> ypositions[idx] == At(RowY(c.order[..i], p.margin, p.lineskip, n - idx))
    {
      assert c.order[..i + 1][..i] == c.order[..i];
      ypositions := ypositions[n - c.order[i] := At(y)];
      y := y + p.lineskip;
      i := i + 1;
    }
    assert c.order[..i] == c.order[..p.rows];
  }

  /**
    One pass of the inner loop `for j in self.merging[i]`: a leaf child gets its text origin
    and hook colour, a cluster child gets a horizontal line to the merge; the child's y is
    returned for the average.
  */
  method VisitChild(
    c: Clustering, p: Params, i: nat, j: int, nheight: real, coloH: Color,
    xpositions: seq<Slot>, ypositions: seq<Slot>,
    origins: array<real>, hooks: array<Option<Color>>, hlines: seq<HLine>)
    returns (v: real, hlines': seq<HLine>)
    requires WellFormed(c, p.rows) && i < Merges(c) && ValidChild(j, c.n, i)
    requires xpositions == XPositions(c, p, i) && ypositions == YPositions(c, p, i)
    requires origins.Length == c.n && hooks.Length == c.n
    requires nheight == MergeX(c, p, i) && coloH == HColor(c, p, i)
    modifies origins, hooks
    ensures v == NodeY(c, p, j)
    ensures hlines' == hlines + ChildHLine(c, p, i, j)
    ensures origins[..] == RecordLeaf(old(origins[..]), j, nheight)
    ensures hooks[..] == RecordLeaf(old(hooks[..]), j, Some(coloH))
  {
    var n := c.n;
    NodeSlots(c, p, i, j);
    v := ypositions[n + j].pos;
    if j < 0 {
      origins[-1 - j] := nheight;
      hooks[-1 - j] := Some(coloH);
      hlines' := hlines;
    } else {
      hlines' := hlines + [HLine(v, xpositions[n + j].pos, nheight, coloH)];
    }
  }

  /**
    One iteration of the merge loop, merge `i`: its x (`nheight`), its vertical line, the
    visits of its two children, and the new cluster's entries in the position lists.
  */
  method MergeStep(
    c: Clustering, p: Params, i: nat, origins: array<real>, hooks: array<Option<Color>>,
    xpositions: seq<Slot>, ypositions: seq<Slot>, vlines: seq<VLine>, hlines: seq<HLine>,
    height: real, displacement: real)
    returns (xpositions': seq<Slot>, ypositions': seq<Slot>, vlines': seq<VLine>, hlines': seq<HLine>,
      height': real, displacement': real)
    requires WellFormed(c, p.rows) && i < Merges(c)
    requires origins.Length == c.n && hooks.Length == c.n
    requires xpositions == XPositions(c, p, i) && ypositions == YPositions(c, p, i)
    requires height == HeightAfter(c, p, i) && displacement == Displacement(c, p, i)
    modifies origins, hooks
    ensures xpositions' == XPositions(c, p, i + 1) && ypositions' == YPositions(c, p, i + 1)
    ensures vlines' == vlines + [MergeVLine(c, p, i)]
    ensures hlines' == hlines + ChildHLine(c, p, i, c.merging[i].0) + ChildHLine(c, p, i, c.merging[i].1)
    ensures origins[..] == RecordLeaf(RecordLeaf(old(origins[..]), c.merging[i].0, MergeX(c, p, i)), c.merging[i].1, MergeX(c, p, i))
    ensures hooks[..] == RecordLeaf(RecordLeaf(old(hooks[..]), c.merging[i].0, Some(HColor(c, p, i))), c.merging[i].1, Some(HColor(c, p, i)))
    ensures height' == HeightAfter(c, p, i + 1) && displacement' == Displacement(c, p, i + 1)
  {
    var n := c.n;
    var coloV, coloH;
    if |p.clusterColors| == n - 1 {
      coloV, coloH := Shade(p.scheme, p.clusterColors[i].0), Shade(p.scheme, p.clusterColors[i].1);
    } else {
      coloV, coloH := Black, Black;
    }
    var a, b := c.merging[i].0, c.merging[i].1;
    NodeSlots(c, p, i, a);
    NodeSlots(c, p, i, b);
    ListsGrow(c, p, i);
    height', displacement' := height, displacement;
    var nheight;
    if p.incremental {
      nheight := Min(xpositions[n + a].pos, xpositions[n + b].pos) - c.heights[i];
      displacement' := Min(displacement, nheight);
    } else {
      height' := height - c.heights[i];
      nheight := height';
    }
    vlines' := vlines + [VLine(nheight, ypositions[n + a].pos, ypositions[n + b].pos, coloV)];

    // the pair of children, visited in order: first `a`, then `b`
    var avg := 0.0;
    var v;
    v, hlines' := VisitChild(c, p, i, a, nheight, coloH, xpositions, ypositions, origins, hooks, hlines);
    avg := avg + v;
    v, hlines' := VisitChild(c, p, i, b, nheight, coloH, xpositions, ypositions, origins, hooks, hlines');
    avg := avg + v;

    ypositions' := ypositions + [At(0.5 * avg)];
    xpositions' := xpositions + [At(nheight)];
  }

  /** The state before the merge loop: zeroed leaf records, leaf rows placed, sentinels appended. */
  method StartLayout(c: Clustering, p: Params)
    returns (origins: array<real>, hooks: array<Option<Color>>, xpositions: seq<Slot>, ypositions: seq<Slot>)
    requires WellFormed(c, p.rows)
    ensures fresh(origins) && fresh(hooks) && origins.Length == c.n && hooks.Length == c.n
    ensures origins[..] == Origins(c, p, 0) && hooks[..] == Hooks(c, p, 0)
    ensures xpositions == XPositions(c, p, 0) && ypositions == YPositions(c, p, 0)
  {
    var n := c.n;
    origins := new real[n](_ => 0.0);
    xpositions := seq(n, _ => At(0.0));
    hooks := new Option<Color>[n](_ => None);
    ypositions := PlaceRows(c, p);
    xpositions := xpositions + [Sentry];
    ypositions := ypositions + [Sentry];
    assert origins[..] == Origins(c, p, 0) && hooks[..] == Hooks(c, p, 0);
    assert xpositions == XPositions(c, p, 0) && ypositions == YPositions(c, p, 0);
  }

  /** One iteration of the merge loop, stated on the state after the first `i + 1` merges. */
  method Advance(
    c: Clustering, p: Params, i: nat, origins: array<real>, hooks: array<Option<Color>>,
    xpositions: seq<Slot>, ypositions: seq<Slot>, vlines: seq<VLine>, hlines: seq<HLine>,
    height: real, displacement: real)
    returns (xpositions': seq<Slot>, ypositions': seq<Slot>, vlines': seq<VLine>, hlines': seq<HLine>,
      height': real, displacement': real)
    requires WellFormed(c, p.rows) && i < Merges(c)
    requires origins.Length == c.n && hooks.Length == c.n
    requires Layout(vlines, hlines, origins[..], hooks[..], xpositions, ypositions, height, displacement)
      == LayoutAfter(c, p, i)
    modifies origins, hooks
    ensures Layout(vlines', hlines', origins[..], hooks[..], xpositions', ypositions', height', displacement')
      == LayoutAfter(c, p, i + 1)
  {
    ListsGrow(c, p, i);
    RecordsGrow(c, p, i);
    xpositions', ypositions', vlines', hlines', height', displacement' :=
      MergeStep(c, p, i, origins, hooks, xpositions, ypositions, vlines, hlines, height, displacement);
  }

  /**
    The extraction (`### EXTRACT THE DENDROGRAM ###`): place the rows, then make the merges
    bottom-up; every merge appends one vertical line, one horizontal line per cluster child
    and the new cluster's positions, and records the origins of its leaf children.
  */
  method ExtractLayout(c: Clustering, p: Params) returns (r: Layout)
    requires WellFormed(c, p.rows)
    ensures r == LayoutOf(c, p)
  {
    var m := Merges(c);
    var vlines: seq<VLine> := [];
    var hlines: seq<HLine> := [];
    var origins, hooks, xpositions, ypositions := StartLayout(c, p);
    var height := 0.0;
    var displacement := 0.0;

    var i := 0;
    while i < m
      invariant i <= m
      invariant Layout(vlines, hlines, origins[..], hooks[..], xpositions, ypositions, height, displacement)
        == LayoutAfter(c, p, i)
    {
      xpositions, ypositions, vlines, hlines, height, displacement :=
        Advance(c, p, i, origins, hooks, xpositions, ypositions, vlines, hlines, height, displacement);
      i := i + 1;
    }
    r := Layout(vlines, hlines, origins[..], hooks[..], xpositions, ypositions, height, displacement);
  }

  // ----- dimensions (`### ADJUST DIMENSIONS ###`) -----

  /** Python's `int()` on a float: truncation toward zero. */
  function Trunc(x: real): (r: int)
    ensures x >= 0.0 ==> r as real <= x < r as real + 1.0
    ensures x < 0.0 ==> r as real - 1.0 < x <= r as real
  {
    if x >= 0.0 then x.Floor else -((-x).Floor)
  }

  /**
    The row spacing, the canvas height and the half-size of a matrix cell. The canvas height
    is given, or computed from the rows; the row spacing is an integer when computed from the
    font and a float when the given height is shared out between the rows.
  */
  datatype Frame = Frame(lineskip: real, canvasHeight: real, block: real)

  /** The frame when no height is given: the row spacing from the font, the height from the rows. */
  function FrameFromFont(rows: nat, margin: real, lineSize: real, fontHeight: real, withMatrix: bool): (f: Frame)
    requires rows >= 2
    ensures f.lineskip == Trunc(lineSize * fontHeight + 1.0) as real
    ensures 2.0 * margin + f.lineskip * (rows - 1) as real + fontHeight + 1.0 >= 0.0 ==>
      2.0 * margin + f.lineskip * (rows - 1) as real + fontHeight < f.canvasHeight
    ensures withMatrix ==> 2.0 * f.block + 2.0 <= f.lineskip
    ensures !withMatrix ==> f.block == 0.0
  {
    var ls := Trunc(lineSize * fontHeight + 1.0);
    var h := Trunc(2.0 * margin + (ls * (rows - 1)) as real + fontHeight + 1.0);
    Frame(ls as real, h as real, if withMatrix then (ls / 2 - 1) as real else 0.0)
  }

  /** The frame of a given height: the rows share out what the margins and the font leave. */
  function FrameFromHeight(rows: nat, h: real, margin: real, fontHeight: real, withMatrix: bool): (f: Frame)
    requires rows >= 2
    ensures f.canvasHeight == h
    ensures 2.0 * margin + f.lineskip * (rows - 1) as real + fontHeight == f.canvasHeight
    ensures withMatrix ==> 2.0 * f.block + 2.0 <= f.lineskip
    ensures !withMatrix ==> f.block == 0.0
  {
    var ls := (h - 2.0 * margin - fontHeight) / (rows - 1) as real;
    Frame(ls, h, if withMatrix then ls / 2.0 - 1.0 else 0.0)
  }

  /** The frame of `dendrogram`: from the font when no height is given, else from the height. */
  function FrameOf(rows: nat, height: Option<real>, margin: real, lineSize: real, fontHeight: real, withMatrix: bool): Frame
    requires rows >= 2
  {
    match height
    case None => FrameFromFont(rows, margin, lineSize, fontHeight, withMatrix)
    case Some(h) => FrameFromHeight(rows, h, margin, fontHeight, withMatrix)
  }

  /** The widest label, starting from 0. */
  function MaxWidth(widths: seq<real>): real
  {
    if widths == [] then 0.0
    else
      var w := MaxWidth(widths[..|widths| - 1]);
      if widths[|widths| - 1] > w then widths[|widths| - 1] else w
  }

  /** The loop `maxlabel = max(maxlabel, stringWidth(s))` over the labels. */
  method MaxLabelWidth(widths: seq<real>) returns (maxlabel: real)
    ensures maxlabel == MaxWidth(widths)
  {
    maxlabel := 0.0;
    var i := 0;
    while i < |widths|
      invariant i <= |widths|
      invariant maxlabel == MaxWidth(widths[..i])
    {
      assert widths[..i + 1][..i] == widths[..i];
      if widths[i] > maxlabel {
        maxlabel := widths[i];
      }
      i := i + 1;
    }
    assert widths[..i] == widths;
  }

  // ----- scaling (`### DRAWING ###`) -----

  /** The right edge of the tree and the factor from merge x to canvas x. */
  datatype Scale = Scale(offset: real, hs: real)

  /** A merge x on the canvas: `offset - x * hs`. */
  function ScreenX(s: Scale, x: real): real
  {
    s.offset - x * s.hs
  }

  /**
    The scale the drawing uses. `height` here is the local reused as the running merge height,
    not the canvas height; when it equals `displacement` the division fails (`None`).
    `matrixColumns` is the row length of a non-empty `matr`.
  */
  function ScaleOf(
    width: real, maxLabel: real, hook: real, margin: real, matrixColumns: Option<nat>, block: real,
    height: real, displacement: real, incremental: bool): (s: Option<Scale>)
    ensures s.None? <==> height == displacement
    ensures s.Some? ==>
      s.value.offset == width - maxLabel - hook - 2.0 * margin
        - (if matrixColumns.Some? then 2.0 * (matrixColumns.value + 1) as real * block else 0.0)
    ensures s.Some? ==> ScreenX(s.value, 0.0) == s.value.offset
    ensures s.Some? ==> ScreenX(s.value, if incremental then displacement - height else height - displacement) == margin
  {
    var offset := width - maxLabel - hook - 2.0 * margin;
    var offset := if matrixColumns.Some? then offset - 2.0 * (matrixColumns.value + 1) as real * block else offset;
    if height == displacement then None
    else
      var hs := (offset - margin) / (height - displacement);
      assert (height - displacement) * hs == offset - margin;
      Some(Scale(offset, if incremental then -hs else hs))
  }

  /** What `dendrogram` ends with: the canvas untouched, a division by zero, or a picture. */
  datatype Outcome =
    | Unchanged
    | ZeroDivision
    | Plotted(frame: Frame, maxLabel: real, layout: Layout, scale: Scale)

  /** The layout parameters `dendrogram` derives from its arguments. */
  function ParamsOf(rows: nat, margin: real, f: Frame, clusterColors: seq<(real, real)>, colorMode: int, incremental: bool): Params
  {
    Params(rows, margin, f.lineskip, clusterColors, DendrogramScheme(colorMode), incremental)
  }

  /**
    `dendrogram` up to the drawing calls: fewer than two labels leave the canvas as it is;
    otherwise the dimensions, the widest label, the layout and the scale are computed.
  */
  method Plot(
    c: Clustering, labelWidths: seq<real>, width: real, height: Option<real>, margin: real, hook: real,
    lineSize: real, fontHeight: real, clusterColors: seq<(real, real)>, colorMode: int,
    incremental: bool, matrixColumns: Option<nat>)
    returns (o: Outcome)
    requires |labelWidths| >= 2 ==> WellFormed(c, |labelWidths|)
    ensures o.Unchanged? <==> |labelWidths| < 2
    ensures !o.Unchanged? ==>
      var f := FrameOf(|labelWidths|, height, margin, lineSize, fontHeight, matrixColumns.Some?);
      var p := ParamsOf(|labelWidths|, margin, f, clusterColors, colorMode, incremental);
      var layout := LayoutOf(c, p);
      var s := ScaleOf(width, MaxWidth(labelWidths), hook, margin, matrixColumns, f.block,
        layout.height, layout.displacement, incremental);
      o == if s.None? then ZeroDivision else Plotted(f, MaxWidth(labelWidths), layout, s.value)
  {
    if |labelWidths| < 2 {
      return Unchanged;
    }
    var f := FrameOf(|labelWidths|, height, margin, lineSize, fontHeight, matrixColumns.Some?);
    var maxlabel := MaxLabelWidth(labelWidths);
    var p := ParamsOf(|labelWidths|, margin, f, clusterColors, colorMode, incremental);
    var layout := ExtractLayout(c, p);
    var s := ScaleOf(width, maxlabel, hook, margin, matrixColumns, f.block, layout.height, layout.displacement, incremental);
    o := if s.None? then ZeroDivision else Plotted(f, maxlabel, layout, s.value);
  }
}
