/**
  What the dendrogram layout promises: where the rows go, that clusters sit between their
  children, how merge heights order the picture, what the lines and label origins are.
*/
module DendrogramProperties {
  import opened Options
  import opened Dendrogram
  import opened Sequences

  predicate NonNegativeHeights(c: Clustering)
    requires |c.heights| >= Merges(c)
  {
    forall t :: 0 <= t < Merges(c) ==> c.heights[t] >= 0.0
  }

  /** Where the layout's y list holds leaf `k` and cluster `i`. */
  lemma YSlots(c: Clustering, p: Params)
    requires WellFormed(c, p.rows)
    ensures forall k :: 1 <= k <= c.n ==> LayoutOf(c, p).ypositions[c.n - k] == At(LeafY(c, p, k))
    ensures forall i :: 0 <= i < Merges(c) ==> LayoutOf(c, p).ypositions[c.n + 1 + i] == At(MergeY(c, p, i))
  {
    assert LayoutOf(c, p).ypositions == YPositions(c, p, Merges(c));
  }

  // ----- rows -----

  lemma {:induction false} RowYOfRow(shown: seq<int>, margin: real, lineskip: real, i: nat)
    requires Distinct(shown) && i < |shown|
    ensures RowY(shown, margin, lineskip, shown[i]) == margin + i as real * lineskip
  {
    var last := |shown| - 1;
    if i < last {
      assert shown[last] != shown[i];
      assert shown[..last][i] == shown[i];
      RowYOfRow(shown[..last], margin, lineskip, i);
    }
  }

  lemma {:induction false} RowYUnshown(shown: seq<int>, margin: real, lineskip: real, k: int)
    requires k !in shown
    ensures RowY(shown, margin, lineskip, k) == 0.0
  {
    if shown != [] {
      assert shown[|shown| - 1] in shown;
      assert forall x :: x in shown[..|shown| - 1] ==> x in shown;
      RowYUnshown(shown[..|shown| - 1], margin, lineskip, k);
    }
  }

  lemma {:induction false} RowYInRange(shown: seq<int>, margin: real, lineskip: real, k: int)
    requires k in shown && lineskip >= 0.0
    ensures margin <= RowY(shown, margin, lineskip, k) <= margin + (|shown| - 1) as real * lineskip
  {
    var last := |shown| - 1;
    if shown[last] != k {
      assert k in shown[..last] by {
        var i :| 0 <= i < |shown| && shown[i] == k;
        assert shown[..last][i] == k;
      }
      RowYInRange(shown[..last], margin, lineskip, k);
      assert (last - 1) as real * lineskip <= last as real * lineskip;
    }
  }

  /** With a positive line skip, each row lies strictly below the one before it. */
  lemma RowsGoDown(shown: seq<int>, margin: real, lineskip: real, i: nat)
    requires Distinct(shown) && i + 1 < |shown| && lineskip > 0.0
    ensures RowY(shown, margin, lineskip, shown[i]) < RowY(shown, margin, lineskip, shown[i + 1])
  {
    RowYOfRow(shown, margin, lineskip, i);
    RowYOfRow(shown, margin, lineskip, i + 1);
    assert (i + 1) as real * lineskip == i as real * lineskip + lineskip;
  }

  /** Row `i` shows a leaf, whose y-list entry is `margin + i * lineskip`. */
  lemma LeafRowY(c: Clustering, p: Params, i: nat)
    requires WellFormed(c, p.rows) && Distinct(c.order[..p.rows]) && i < p.rows
    ensures 0 <= c.n - c.order[i] < c.n
    ensures YPositions(c, p, Merges(c))[c.n - c.order[i]] == At(p.margin + i as real * p.lineskip)
  {
    var k := c.order[i];
    assert 1 <= k <= c.n;
    assert LeafY(c, p, k) == p.margin + i as real * p.lineskip by {
      var shown := c.order[..p.rows];
      assert shown[i] == k;
      RowYOfRow(shown, p.margin, p.lineskip, i);
    }
  }

  /** The leaf displayed in row `i` gets y = `margin + i * lineskip`, stored at index `n - order[i]`. */
  lemma LeafRows(c: Clustering, p: Params, i: nat)
    requires WellFormed(c, p.rows) && Distinct(c.order[..p.rows]) && i < p.rows
    ensures 0 <= c.n - c.order[i] < c.n
    ensures LayoutOf(c, p).ypositions[c.n - c.order[i]] == At(p.margin + i as real * p.lineskip)
  {
    LeafRowY(c, p, i);
    assert LayoutOf(c, p).ypositions == YPositions(c, p, Merges(c));
  }

  /** With a positive line skip the displayed rows go strictly down the page. */
  lemma LeafRowsGoDown(c: Clustering, p: Params, i: nat)
    requires WellFormed(c, p.rows) && Distinct(c.order[..p.rows]) && i + 1 < p.rows && p.lineskip > 0.0
    ensures 0 <= c.n - c.order[i] < c.n && 0 <= c.n - c.order[i + 1] < c.n
    ensures LayoutOf(c, p).ypositions[c.n - c.order[i]].pos < LayoutOf(c, p).ypositions[c.n - c.order[i + 1]].pos
  {
    var shown := c.order[..p.rows];
    assert shown[i] == c.order[i] && shown[i + 1] == c.order[i + 1];
    YSlots(c, p);
    RowsGoDown(shown, p.margin, p.lineskip, i);
  }

  /** A leaf that no displayed row shows keeps y = 0. */
  lemma UnshownLeaf(c: Clustering, p: Params, k: int)
    requires WellFormed(c, p.rows) && 1 <= k <= c.n && k !in c.order[..p.rows]
    ensures LayoutOf(c, p).ypositions[c.n - k] == At(0.0)
  {
    YSlots(c, p);
    RowYUnshown(c.order[..p.rows], p.margin, p.lineskip, k);
  }

  // ----- cluster y positions -----

  /** The new cluster's y is the mean of its two children's y, so it lies between them. */
  lemma ClusterBetweenChildren(c: Clustering, p: Params, i: nat)
    requires WellFormed(c, p.rows) && i < Merges(c)
    ensures var a, b := c.merging[i].0, c.merging[i].1;
      && MergeY(c, p, i) + MergeY(c, p, i) == NodeY(c, p, a) + NodeY(c, p, b)
      && Min(NodeY(c, p, a), NodeY(c, p, b)) <= MergeY(c, p, i)
      && MergeY(c, p, i) <= NodeY(c, p, a) + NodeY(c, p, b) - Min(NodeY(c, p, a), NodeY(c, p, b))
  {
  }

  /** When every leaf lies in `[lo, hi]`, so does every cluster. */
  lemma {:induction false} ClusterWithinLeaves(c: Clustering, p: Params, lo: real, hi: real, i: nat)
    requires WellFormed(c, p.rows) && i < Merges(c)
    requires forall k :: 1 <= k <= c.n ==> lo <= LeafY(c, p, k) <= hi
    ensures lo <= MergeY(c, p, i) <= hi
  {
    var a, b := c.merging[i].0, c.merging[i].1;
    if a > 0 { ClusterWithinLeaves(c, p, lo, hi, a - 1); }
    if b > 0 { ClusterWithinLeaves(c, p, lo, hi, b - 1); }
    assert lo <= NodeY(c, p, a) <= hi;
    assert lo <= NodeY(c, p, b) <= hi;
  }

  /**
    When every leaf has a displayed row and rows go down the page, every cluster's y lies
    between the first and the last row.
  */
  lemma ClustersWithinRows(c: Clustering, p: Params, i: nat)
    requires WellFormed(c, p.rows) && i < Merges(c) && p.lineskip >= 0.0
    requires forall k :: 1 <= k <= c.n ==> k in c.order[..p.rows]
    ensures p.margin <= LayoutOf(c, p).ypositions[c.n + 1 + i].pos <= p.margin + (p.rows - 1) as real * p.lineskip
  {
    forall k | 1 <= k <= c.n
      ensures p.margin <= LeafY(c, p, k) <= p.margin + (p.rows - 1) as real * p.lineskip
    {
      RowYInRange(c.order[..p.rows], p.margin, p.lineskip, k);
    }
    ClusterWithinLeaves(c, p, p.margin, p.margin + (p.rows - 1) as real * p.lineskip, i);
    YSlots(c, p);
  }

  // ----- merge heights -----

  lemma {:induction false} RunningHeightDescends(heights: seq<real>, k1: nat, k2: nat)
    requires k1 <= k2 <= |heights|
    requires forall t :: 0 <= t < k2 ==> heights[t] >= 0.0
    ensures RunningHeight(heights, k2) <= RunningHeight(heights, k1) <= 0.0
  {
    if k2 > k1 {
      RunningHeightDescends(heights, k1, k2 - 1);
    } else if k1 > 0 {
      RunningHeightDescends(heights, k1 - 1, k1 - 1);
    }
  }

  /**
    Non-incremental heights: merge `i` stands at `-(heights[0] + ... + heights[i])`, so with
    non-negative heights the merges move left (never right) as they are made.
  */
  lemma NonIncrementalDescends(c: Clustering, p: Params, i: nat, j: nat)
    requires WellFormed(c, p.rows) && !p.incremental && NonNegativeHeights(c)
    requires i <= j < Merges(c)
    ensures i == 0 ==> MergeX(c, p, i) == -c.heights[0]
    ensures i > 0 ==> MergeX(c, p, i) == MergeX(c, p, i - 1) - c.heights[i]
    ensures MergeX(c, p, j) <= MergeX(c, p, i) <= 0.0
  {
    RunningHeightDescends(c.heights, i + 1, j + 1);
  }

  /**
    With non-negative heights a merge stands at or left of both its children, in either
    height mode, and no merge is right of the leaves' x = 0.
  */
  lemma {:induction false} MergeLeftOfChildren(c: Clustering, p: Params, i: nat)
    requires WellFormed(c, p.rows) && i < Merges(c) && NonNegativeHeights(c)
    ensures MergeX(c, p, i) <= NodeX(c, p, c.merging[i].0)
    ensures MergeX(c, p, i) <= NodeX(c, p, c.merging[i].1)
    ensures MergeX(c, p, i) <= 0.0
  {
    var a, b := c.merging[i].0, c.merging[i].1;
    if p.incremental {
      if a > 0 { MergeLeftOfChildren(c, p, a - 1); }
      if b > 0 { MergeLeftOfChildren(c, p, b - 1); }
    } else {
      RunningHeightDescends(c.heights, i + 1, i + 1);
      if a > 0 { RunningHeightDescends(c.heights, a, i + 1); }
      if b > 0 { RunningHeightDescends(c.heights, b, i + 1); }
    }
  }

  /**
    In incremental mode `displacement` is the minimum of 0 and every merge x so far; in
    non-incremental mode it stays 0.
  */
  lemma {:induction false} DisplacementIsMinimum(c: Clustering, p: Params, k: nat)
    requires WellFormed(c, p.rows) && k <= Merges(c)
    ensures Displacement(c, p, k) <= 0.0
    ensures p.incremental ==> forall t :: 0 <= t < k ==> Displacement(c, p, k) <= MergeX(c, p, t)
    ensures p.incremental ==> Displacement(c, p, k) == 0.0 || exists t: nat :: t < k && Displacement(c, p, k) == MergeX(c, p, t)
    ensures !p.incremental ==> Displacement(c, p, k) == 0.0
  {
    if k > 0 && p.incremental {
      DisplacementIsMinimum(c, p, k - 1);
      if Displacement(c, p, k) != 0.0 && Displacement(c, p, k) != MergeX(c, p, k - 1) {
        var t: nat :| t < k - 1 && Displacement(c, p, k - 1) == MergeX(c, p, t);
        assert Displacement(c, p, k) == MergeX(c, p, t);
      } else if Displacement(c, p, k) != 0.0 {
        var t: nat := k - 1;
        assert t < k && Displacement(c, p, k) == MergeX(c, p, t);
        assert exists t: nat :: t < k && Displacement(c, p, k) == MergeX(c, p, t);
      }
    }
  }

  // ----- lines -----

  /** The number of cluster children among the first `k` merges. */
  function ClusterChildren(c: Clustering, k: nat): nat
    requires k <= |c.merging|
  {
    if k == 0 then 0
    else ClusterChildren(c, k - 1) + (if c.merging[k - 1].0 > 0 then 1 else 0) + (if c.merging[k - 1].1 > 0 then 1 else 0)
  }

  /** There is one horizontal line per cluster child, and one vertical line per merge. */
  lemma {:induction false} LineCounts(c: Clustering, p: Params, k: nat)
    requires WellFormed(c, p.rows) && k <= Merges(c)
    ensures |HLinesUpTo(c, p, k)| == ClusterChildren(c, k)
    ensures |VLinesUpTo(c, p, k)| == k
  {
    if k > 0 { LineCounts(c, p, k - 1); }
  }

  /** The vertical line of merge `i` stands at the merge's x and spans its two children's y. */
  lemma VLineSpansChildren(c: Clustering, p: Params, i: nat)
    requires WellFormed(c, p.rows) && i < Merges(c)
    ensures var l := LayoutOf(c, p).vlines[i];
      && l.x == MergeX(c, p, i)
      && l.y1 == NodeY(c, p, c.merging[i].0) && l.y2 == NodeY(c, p, c.merging[i].1)
      && Min(l.y1, l.y2) <= MergeY(c, p, i) <= l.y1 + l.y2 - Min(l.y1, l.y2)
  {
  }

  /**
    With non-negative heights every horizontal line runs from its child cluster's x leftwards
    to its merge's x.
  */
  lemma {:induction false} HLinesRunLeft(c: Clustering, p: Params, k: nat)
    requires WellFormed(c, p.rows) && k <= Merges(c) && NonNegativeHeights(c)
    ensures forall l :: l in HLinesUpTo(c, p, k) ==> l.x2 <= l.x1
  {
    if k > 0 {
      HLinesRunLeft(c, p, k - 1);
      MergeLeftOfChildren(c, p, k - 1);
    }
  }

  /** Without exactly one colour pair per merge every line and hook is black. */
  lemma {:induction false} BlackWithoutColors(c: Clustering, p: Params, k: nat)
    requires WellFormed(c, p.rows) && k <= Merges(c) && |p.clusterColors| != c.n - 1
    ensures forall l :: l in VLinesUpTo(c, p, k) ==> l.color == Black
    ensures forall l :: l in HLinesUpTo(c, p, k) ==> l.color == Black
    ensures forall h :: h in Hooks(c, p, k) ==> h == None || h == Some(Black)
  {
    if k > 0 {
      BlackWithoutColors(c, p, k - 1);
      var s := Hooks(c, p, k - 1);
      var s1 := RecordLeaf(s, c.merging[k - 1].0, Some(Black));
      RecordLeafMembers(s, c.merging[k - 1].0, Some(Black));
      RecordLeafMembers(s1, c.merging[k - 1].1, Some(Black));
    }
  }

  /** With one colour pair per merge, merge `i`'s vertical line takes the first colour of pair `i`. */
  lemma ColorsFromPairs(c: Clustering, p: Params, i: nat)
    requires WellFormed(c, p.rows) && i < Merges(c) && |p.clusterColors| == c.n - 1
    ensures LayoutOf(c, p).vlines[i].color == Shade(p.scheme, p.clusterColors[i].0)
  {
  }

  // ----- label origins -----

  lemma RecordLeafMembers<T>(s: seq<T>, j: int, x: T)
    requires j < 0 ==> -j <= |s|
    ensures forall y :: y in RecordLeaf(s, j, x) ==> y in s || y == x
  {
    forall y | y in RecordLeaf(s, j, x)
      ensures y in s || y == x
    {
      var idx :| 0 <= idx < |s| && RecordLeaf(s, j, x)[idx] == y;
      if j >= 0 || idx != -1 - j {
        assert s[idx] == y;
      }
    }
  }

  lemma RecordLeafAt<T>(s: seq<T>, j: int, x: T, leaf: int)
    requires (j < 0 ==> -j <= |s|) && 1 <= leaf <= |s|
    ensures RecordLeaf(s, j, x)[leaf - 1] == if j == -leaf then x else s[leaf - 1]
  {
  }

  /**
    A leaf child records the merge's x as its text origin and the merge's second colour as its
    hook colour; the last merge naming the leaf decides.
  */
  lemma {:induction false} OriginOfNamedLeaf(c: Clustering, p: Params, leaf: int, i: nat, k: nat)
    requires WellFormed(c, p.rows) && 1 <= leaf <= c.n && i < k <= Merges(c)
    requires Names(c, i, leaf) && forall t :: i < t < k ==> !Names(c, t, leaf)
    ensures Origins(c, p, k)[leaf - 1] == MergeX(c, p, i)
    ensures Hooks(c, p, k)[leaf - 1] == Some(HColor(c, p, i))
  {
    var a, b := c.merging[k - 1].0, c.merging[k - 1].1;
    if k - 1 > i {
      assert !Names(c, k - 1, leaf);
      OriginOfNamedLeaf(c, p, leaf, i, k - 1);
    }
    var x, h := MergeX(c, p, k - 1), Some(HColor(c, p, k - 1));
    assert Origins(c, p, k) == RecordLeaf(RecordLeaf(Origins(c, p, k - 1), a, x), b, x);
    assert Hooks(c, p, k) == RecordLeaf(RecordLeaf(Hooks(c, p, k - 1), a, h), b, h);
    RecordLeafAt(Origins(c, p, k - 1), a, x, leaf);
    RecordLeafAt(RecordLeaf(Origins(c, p, k - 1), a, x), b, x, leaf);
    RecordLeafAt(Hooks(c, p, k - 1), a, h, leaf);
    RecordLeafAt(RecordLeaf(Hooks(c, p, k - 1), a, h), b, h, leaf);
  }

  /** A leaf that no merge names keeps origin 0 and the placeholder hook colour. */
  lemma {:induction false} OriginOfUnnamedLeaf(c: Clustering, p: Params, leaf: int, k: nat)
    requires WellFormed(c, p.rows) && 1 <= leaf <= c.n && k <= Merges(c)
    requires forall t :: 0 <= t < k ==> !Names(c, t, leaf)
    ensures Origins(c, p, k)[leaf - 1] == 0.0
    ensures Hooks(c, p, k)[leaf - 1] == None
  {
    if k > 0 {
      OriginOfUnnamedLeaf(c, p, leaf, k - 1);
      assert !Names(c, k - 1, leaf);
      var a, b := c.merging[k - 1].0, c.merging[k - 1].1;
      var x, h := MergeX(c, p, k - 1), Some(HColor(c, p, k - 1));
      RecordLeafAt(Origins(c, p, k - 1), a, x, leaf);
      RecordLeafAt(RecordLeaf(Origins(c, p, k - 1), a, x), b, x, leaf);
      RecordLeafAt(Hooks(c, p, k - 1), a, h, leaf);
      RecordLeafAt(RecordLeaf(Hooks(c, p, k - 1), a, h), b, h, leaf);
    }
  }

  // ----- dimensions and scale -----

  /** No label is wider than `maxlabel`, which is 0 or the width of some label. */
  lemma {:induction false} MaxWidthIsMaximum(widths: seq<real>)
    ensures MaxWidth(widths) >= 0.0
    ensures forall k :: 0 <= k < |widths| ==> widths[k] <= MaxWidth(widths)
    ensures MaxWidth(widths) == 0.0 || MaxWidth(widths) in widths
  {
    if widths != [] {
      var init := widths[..|widths| - 1];
      MaxWidthIsMaximum(init);
      assert forall k :: 0 <= k < |init| ==> widths[k] == init[k];
      assert forall w :: w in init ==> w in widths;
    }
  }

  lemma BetweenEnds(e: real, hs: real, x: real)
    requires e < 0.0 && e <= x <= 0.0 && e * hs >= 0.0
    ensures 0.0 <= x * hs <= e * hs
  {
    assert (x - e) * hs <= 0.0;
  }

  /** A scale mapping `e` < 0 to `margin` and 0 to `offset` keeps everything between them inside. */
  lemma ScaleKeepsBand(e: real, hs: real, offset: real, margin: real, x: real)
    requires e < 0.0 && offset - e * hs == margin && margin <= offset && e <= x <= 0.0
    ensures margin <= offset - x * hs <= offset
  {
    BetweenEnds(e, hs, x);
  }

  /** How far left the tree reaches: the displacement, or the accumulated merge height. */
  function Extent(c: Clustering, p: Params): real
    requires WellFormed(c, p.rows)
  {
    if p.incremental then Displacement(c, p, Merges(c)) else HeightAfter(c, p, Merges(c))
  }

  /** Every merge lies between the extent and 0, and some merge is at the extent unless it is 0. */
  lemma MergesWithinExtent(c: Clustering, p: Params)
    requires WellFormed(c, p.rows) && NonNegativeHeights(c)
    ensures forall i :: 0 <= i < Merges(c) ==> Extent(c, p) <= MergeX(c, p, i) <= 0.0
    ensures Extent(c, p) == 0.0 || exists i: nat :: i < Merges(c) && MergeX(c, p, i) == Extent(c, p)
  {
    var m := Merges(c);
    DisplacementIsMinimum(c, p, m);
    forall i | 0 <= i < m
      ensures Extent(c, p) <= MergeX(c, p, i) <= 0.0
    {
      MergeLeftOfChildren(c, p, i);
      if !p.incremental {
        RunningHeightDescends(c.heights, i + 1, m);
      }
    }
    if !p.incremental && m > 0 {
      var t: nat := m - 1;
      assert MergeX(c, p, t) == Extent(c, p);
      assert exists i: nat :: i < Merges(c) && MergeX(c, p, i) == Extent(c, p);
    } else if p.incremental && Extent(c, p) != 0.0 {
      var t: nat :| t < m && Displacement(c, p, m) == MergeX(c, p, t);
      assert MergeX(c, p, t) == Extent(c, p);
      assert exists i: nat :: i < Merges(c) && MergeX(c, p, i) == Extent(c, p);
    }
  }

  /** The scale maps the extent to `margin`, and the extent lies strictly left of the leaves. */
  lemma ExtentEnds(
    c: Clustering, p: Params, s: Scale, width: real, maxLabel: real, hook: real,
    matrixColumns: Option<nat>, block: real)
    requires WellFormed(c, p.rows) && NonNegativeHeights(c)
    requires ScaleOf(width, maxLabel, hook, p.margin, matrixColumns, block,
      HeightAfter(c, p, Merges(c)), Displacement(c, p, Merges(c)), p.incremental) == Some(s)
    ensures s.offset - Extent(c, p) * s.hs == p.margin
    ensures Extent(c, p) < 0.0 && Merges(c) > 0
  {
    var m := Merges(c);
    var e := Extent(c, p);
    assert s.offset - e * s.hs == p.margin && e != 0.0 by {
      DisplacementIsMinimum(c, p, m);
      assert ScreenX(s, e) == p.margin;
    }
    MergesWithinExtent(c, p);
    assert m > 0;
    var x := MergeX(c, p, 0);
    assert e <= x <= 0.0;
  }

  /** Every merge lands between `margin` and `offset` under a scale that maps the extent to `margin`. */
  lemma MergesInBand(c: Clustering, p: Params, s: Scale)
    requires WellFormed(c, p.rows) && NonNegativeHeights(c)
    requires s.offset - Extent(c, p) * s.hs == p.margin && Extent(c, p) < 0.0 && p.margin <= s.offset
    ensures forall i :: 0 <= i < Merges(c) ==> p.margin <= ScreenX(s, MergeX(c, p, i)) <= s.offset
  {
    var e := Extent(c, p);
    MergesWithinExtent(c, p);
    forall i | 0 <= i < Merges(c)
      ensures p.margin <= ScreenX(s, MergeX(c, p, i)) <= s.offset
    {
      var x := MergeX(c, p, i);
      assert e <= x <= 0.0;
      ScaleKeepsBand(e, s.hs, s.offset, p.margin, x);
    }
  }

  /**
    The scale puts the leaves (x = 0) at `offset` and the farthest merge at `margin`, and every
    merge between the two: the tree spans the band whatever the canvas height was, because the
    scale divides by the merge extent held in the reused `height` local.
  */
  lemma MergesSpanTheBand(
    c: Clustering, p: Params, s: Scale, width: real, maxLabel: real, hook: real,
    matrixColumns: Option<nat>, block: real)
    requires WellFormed(c, p.rows) && NonNegativeHeights(c)
    requires ScaleOf(width, maxLabel, hook, p.margin, matrixColumns, block,
      HeightAfter(c, p, Merges(c)), Displacement(c, p, Merges(c)), p.incremental) == Some(s)
    requires p.margin <= s.offset
    ensures ScreenX(s, 0.0) == s.offset
    ensures forall i :: 0 <= i < Merges(c) ==> p.margin <= ScreenX(s, MergeX(c, p, i)) <= s.offset
    ensures exists i: nat :: i < Merges(c) && ScreenX(s, MergeX(c, p, i)) == p.margin
  {
    var m := Merges(c);
    var e := Extent(c, p);
    ExtentEnds(c, p, s, width, maxLabel, hook, matrixColumns, block);
    MergesInBand(c, p, s);
    MergesWithinExtent(c, p);
    var t: nat :| t < m && MergeX(c, p, t) == e;
    assert ScreenX(s, MergeX(c, p, t)) == p.margin;
  }

}
