/** The zoomable sunburst (`sunburst-chart.component.ts`).  The d3 partition is
    an input: an arena of nodes in `descendants()` order (breadth first, the
    root at index 0), each with its partition rectangle.  Clicking a node
    retargets every node's arc, moves the focus and hides the arcs outside the
    clicked node's chain; the helpers rate and summarise popularity. */
module SunburstChart {
  import opened Js
  import opened Seqs

  /** `Math.PI`, as the closest double. */
  const PI: real := 3.141592653589793

  /** A partition rectangle: angles `x0..x1`, radii `y0..y1`. */
  datatype Arc = Arc(x0: real, x1: real, y0: real, y1: real)

  /** A node of the d3 hierarchy: its layout, depth, parent index, the fields
      of its datum that the component reads (`data.name`, `data.id`,
      `data.url`, `data.value`), and the summed `value` d3 sorts siblings by. */
  datatype Node = Node(
    layout: Arc, depth: nat, parent: Option<nat>,
    name: string, id: string, url: Option<string>, dataValue: Option<int>, value: real)

  /** Every parent pointer leads to an earlier node, so parent chains end. */
  predicate WellParented(nodes: seq<Node>) {
    forall i :: 0 <= i < |nodes| && nodes[i].parent.Some? ==> nodes[i].parent.value < i
  }

  /** What `d3.hierarchy(data).sum(...).sort(...)` followed by `partition` with
      size `[2 * PI, radius * radius]` guarantees of the arena: the root spans the
      whole circle; the tree has three levels (root, categories, tools) listed
      level by level; siblings come in descending order of value; and every
      arc has positive angular width (each leaf counts at least 1). */
  predicate Partition(nodes: seq<Node>) {
    && |nodes| > 0
    && nodes[0].depth == 0 && nodes[0].parent.None?
    && nodes[0].layout.x0 == 0.0 && nodes[0].layout.x1 == 2.0 * PI && nodes[0].layout.y0 == 0.0
    && (forall i :: 1 <= i < |nodes| ==>
          && nodes[i].parent.Some? && nodes[i].parent.value < i
          && nodes[i].depth == nodes[nodes[i].parent.value].depth + 1
          && nodes[i].depth <= 2)
    && (forall i :: 0 <= i < |nodes| ==>
          && 0.0 <= nodes[i].layout.x0 < nodes[i].layout.x1 <= 2.0 * PI
          && 0.0 <= nodes[i].layout.y0 <= nodes[i].layout.y1)
    && (forall i, j :: 0 <= i < j < |nodes| ==> nodes[i].depth <= nodes[j].depth)
    && (forall i, j :: 0 <= i < j < |nodes| && nodes[i].parent == nodes[j].parent ==>
          nodes[i].value >= nodes[j].value)
  }

  /** `partition` gives every level the same radial band: `radius * radius`
      divided by the number of levels. */
  predicate Bands(nodes: seq<Node>, band: real) {
    && band > 0.0
    && forall i :: 0 <= i < |nodes| ==>
         && nodes[i].layout.y0 == nodes[i].depth as real * band
         && nodes[i].layout.y1 == (nodes[i].depth + 1) as real * band
  }

  lemma PartitionWellParented(nodes: seq<Node>)
    requires Partition(nodes)
    ensures WellParented(nodes)
  {
  }

  // ---------------------------------------------------------------- zoom target

  function Clamp01(v: real): (r: real)
    ensures 0.0 <= r <= 1.0
  {
    if v < 0.0 then 0.0 else if v > 1.0 then 1.0 else v
  }

  function Max0(v: real): (r: real)
    ensures r >= 0.0 && r >= v
  {
    if v < 0.0 then 0.0 else v
  }

  /** The target `clicked` assigns to node `d` when `p` (at depth `pdepth`) is
      clicked: the angles re-normalised to `p`'s span and clamped, the radii
      shifted inwards by `pdepth`.  The division needs `p.x0 < p.x1`, which the
      component does not check and the partition guarantees. */
  function ZoomTarget(d: Arc, p: Arc, pdepth: nat): (t: Arc)
    requires p.x0 < p.x1
    ensures 0.0 <= t.x0 <= 2.0 * PI && 0.0 <= t.x1 <= 2.0 * PI
    ensures t.y0 >= 0.0 && t.y1 >= 0.0
  {
    Arc(Clamp01((d.x0 - p.x0) / (p.x1 - p.x0)) * 2.0 * PI,
        Clamp01((d.x1 - p.x0) / (p.x1 - p.x0)) * 2.0 * PI,
        Max0(d.y0 - pdepth as real),
        Max0(d.y1 - pdepth as real))
  }

  lemma DivSelf(w: real)
    requires w > 0.0
    ensures w / w == 1.0
  {
  }

  lemma DivMonotone(a: real, b: real, w: real)
    requires w > 0.0 && a <= b
    ensures a / w <= b / w
  {
    assert b / w - a / w == (b - a) / w;
  }

  /** The transform keeps every arc's orientation and radial order. */
  lemma ZoomTargetOrdered(d: Arc, p: Arc, pdepth: nat)
    requires p.x0 < p.x1
    ensures d.x0 <= d.x1 ==> ZoomTarget(d, p, pdepth).x0 <= ZoomTarget(d, p, pdepth).x1
    ensures d.y0 <= d.y1 ==> ZoomTarget(d, p, pdepth).y0 <= ZoomTarget(d, p, pdepth).y1
  {
    if d.x0 <= d.x1 {
      DivMonotone(d.x0 - p.x0, d.x1 - p.x0, p.x1 - p.x0);
    }
  }

  /** The clicked node itself is spread over the whole circle. */
  lemma FocusFillsCircle(p: Arc, pdepth: nat)
    requires p.x0 < p.x1
    ensures ZoomTarget(p, p, pdepth).x0 == 0.0 && ZoomTarget(p, p, pdepth).x1 == 2.0 * PI
  {
    DivSelf(p.x1 - p.x0);
  }

  /** Targeting the root gives back an arc's own layout. */
  lemma RootTargetIsLayout(d: Arc, root: Arc)
    requires root.x0 == 0.0 && root.x1 == 2.0 * PI
    requires 0.0 <= d.x0 <= 2.0 * PI && 0.0 <= d.x1 <= 2.0 * PI && d.y0 >= 0.0 && d.y1 >= 0.0
    ensures ZoomTarget(d, root, 0) == d
  {
  }

  /** An arc wholly outside the clicked node's span shrinks to zero width and
      so is never visible. */
  lemma OutsideCollapses(d: Arc, p: Arc, pdepth: nat)
    requires p.x0 < p.x1 && d.x0 <= d.x1
    requires d.x1 <= p.x0 || p.x1 <= d.x0
    ensures ZoomTarget(d, p, pdepth).x0 == ZoomTarget(d, p, pdepth).x1
    ensures !ArcVisible(ZoomTarget(d, p, pdepth))
  {
    var w := p.x1 - p.x0;
    if d.x1 <= p.x0 {
      DivMonotone(d.x0 - p.x0, 0.0, w);
      DivMonotone(d.x1 - p.x0, 0.0, w);
    } else {
      DivMonotone(w, d.x0 - p.x0, w);
      DivMonotone(w, d.x1 - p.x0, w);
      DivSelf(w);
    }
  }

  // ---------------------------------------------------------------- visibility

  /** `arcVisible`: the arc lies in the radial band 1..3 and has positive width. */
  predicate ArcVisible(a: Arc) {
    a.y1 <= 3.0 && a.y0 >= 1.0 && a.x1 > a.x0
  }

  /** `labelVisible`: the arc lies in the band 1..3 and is large enough. */
  predicate LabelVisible(a: Arc) {
    a.y1 <= 3.0 && a.y0 >= 1.0 && (a.y1 - a.y0) * (a.x1 - a.x0) > 0.03
  }

  lemma MulNonPositive(a: real, b: real)
    requires a >= 0.0 && b <= 0.0
    ensures a * b <= 0.0
  {
  }

  /** A label is only shown on an arc that is itself visible. */
  lemma LabelImpliesArc(a: Arc)
    requires a.y0 <= a.y1
    ensures LabelVisible(a) ==> ArcVisible(a)
  {
    if a.x1 <= a.x0 {
      MulNonPositive(a.y1 - a.y0, a.x1 - a.x0);
    }
  }

  /** With the layout's radii in units of `radius * radius`, a band wider than 1.5
      puts every partition arc outside the band 1..3 that `arcVisible` tests. */
  lemma LayoutArcsHidden(nodes: seq<Node>, band: real, i: nat)
    requires Partition(nodes) && Bands(nodes, band) && band > 1.5 && i < |nodes|
    ensures !ArcVisible(nodes[i].layout)
  {
    if i > 0 {
      var d := nodes[i].depth as real;
      assert d >= 1.0;
      assert (d + 1.0) * band >= 2.0 * band;
    }
  }

  /** Every partition arc spans a non-empty angle and sits at most two levels deep. */
  lemma PartitionAt(nodes: seq<Node>, i: nat)
    requires Partition(nodes) && i < |nodes|
    ensures nodes[i].layout.x0 < nodes[i].layout.x1 && nodes[i].depth <= 2
  {
  }

  /** And a band wider than 2.5 puts every zoom target outside it too, whatever
      node is clicked: the target of an arc at `depth`, for a focus at most two
      levels deep with a non-empty span (as `PartitionAt` gives every node),
      lies outside the band 1..3. */
  lemma TargetHidden(d: Arc, q: Arc, pdepth: nat, depth: nat, band: real)
    requires q.x0 < q.x1 && pdepth <= 2 && band > 2.5
    requires d.y0 == depth as real * band && d.y1 == (depth + 1) as real * band
    ensures !ArcVisible(ZoomTarget(d, q, pdepth))
  {
    var t := ZoomTarget(d, q, pdepth);
    var pd := pdepth as real;
    if depth > 0 {
      OuterRadiusPastBand(depth as real, band, pd);
      assert t.y1 == d.y1 - pd;
    } else {
      assert d.y0 == 0.0;
      assert t.y0 == 0.0;
    }
  }

  /** The outer radius of a node below the root, shifted in by at most two
      levels, stays beyond 3 when the band is wider than 2.5. */
  lemma OuterRadiusPastBand(depth: real, band: real, shift: real)
    requires depth >= 1.0 && band > 2.5 && 0.0 <= shift <= 2.0
    ensures (depth + 1.0) * band - shift > 3.0
  {
    assert (depth + 1.0) * band >= 2.0 * band;
  }

  // ---------------------------------------------------------------- parent chains

  /** `a` is `n` or lies on `n`'s parent chain. */
  predicate OnChain(nodes: seq<Node>, n: nat, a: nat)
    requires WellParented(nodes) && n < |nodes|
    decreases n
  {
    n == a || (nodes[n].parent.Some? && OnChain(nodes, nodes[n].parent.value, a))
  }

  /** Only the root has depth 0. */
  lemma DepthZeroIsRoot(nodes: seq<Node>, i: nat)
    requires Partition(nodes) && i < |nodes|
    ensures nodes[i].depth == 0 <==> i == 0
  {
  }

  /** In the three-level tree a node's chain is the node, its category (for a
      tool) and the root. */
  lemma {:induction false} ChainByDepth(nodes: seq<Node>, n: nat, a: nat)
    requires Partition(nodes) && n < |nodes|
    ensures WellParented(nodes)
    ensures OnChain(nodes, n, a)
            <==> a == n || a == 0 || (nodes[n].depth == 2 && a == nodes[n].parent.value)
  {
    if n > 0 {
      var q := nodes[n].parent.value;
      if q > 0 {
        var g := nodes[q].parent.value;
        DepthZeroIsRoot(nodes, g);
        assert OnChain(nodes, g, a) <==> a == 0;
      } else {
        assert nodes[n].depth == 1;
        assert OnChain(nodes, q, a) <==> a == 0;
      }
    }
  }

  /** `isDescendantOrSelf(node, ancestor)`: walk up the parent pointers. */
  method IsDescendantOrSelf(nodes: seq<Node>, node: nat, ancestor: nat) returns (r: bool)
    requires WellParented(nodes) && node < |nodes|
    ensures r == OnChain(nodes, node, ancestor)
  {
    var n: Option<nat> := Some(node);
    while n.Some?
      invariant n.Some? ==> n.value < |nodes|
      invariant OnChain(nodes, node, ancestor)
                <==> (n.Some? && OnChain(nodes, n.value, ancestor))
      decreases if n.Some? then n.value + 1 else 0
    {
      if n.value == ancestor {
        return true;
      }
      n := nodes[n.value].parent;
    }
    return false;
  }

  /** The visibility loop of `clicked` over the arcs `cur` of the nodes. */
  method VisibilityOf(nodes: seq<Node>, cur: seq<Arc>, p: nat) returns (arcs: seq<bool>, labels: seq<bool>)
    requires WellParented(nodes) && |cur| == |nodes| && |nodes| > 0
    ensures |arcs| == |nodes| && |labels| == |nodes|
    ensures forall i :: 0 <= i < |nodes| ==>
              arcs[i] == (i > 0 && ArcVisible(cur[i]) && OnChain(nodes, i, p))
    ensures forall i :: 0 <= i < |nodes| ==>
              labels[i] == (i > 0 && LabelVisible(cur[i]) && OnChain(nodes, i, p))
  {
    arcs, labels := [false], [false];
    for i := 1 to |nodes|
      invariant |arcs| == i && |labels| == i
      invariant forall k :: 0 <= k < i ==>
                  arcs[k] == (k > 0 && ArcVisible(cur[k]) && OnChain(nodes, k, p))
      invariant forall k :: 0 <= k < i ==>
                  labels[k] == (k > 0 && LabelVisible(cur[k]) && OnChain(nodes, k, p))
    {
      var inChain := IsDescendantOrSelf(nodes, i, p);
      var a := cur[i];
      arcs := arcs + [ArcVisible(a) && inChain];
      labels := labels + [LabelVisible(a) && inChain];
    }
  }

  // ---------------------------------------------------------------- ratings

  /** `generateRating`: popularity mapped onto 1..5 stars. */
  function GenerateRating(popularity: real): (r: int)
    ensures 1 <= r <= 5
  {
    var s := Round(popularity / 100.0 * 4.0 + 1.0);
    if s < 1 then 1 else if s > 5 then 5 else s
  }

  lemma RoundMonotone(x: real, y: real)
    requires x <= y
    ensures Round(x) <= Round(y)
  {
  }

  /** A more popular tool never gets fewer stars. */
  lemma GenerateRatingMonotone(p: real, q: real)
    requires p <= q
    ensures GenerateRating(p) <= GenerateRating(q)
  {
    RoundMonotone(p / 100.0 * 4.0 + 1.0, q / 100.0 * 4.0 + 1.0);
  }

  /** Popularity 0 earns one star, 100 earns five, and every 25 points one more. */
  lemma GenerateRatingScale(k: int)
    requires 0 <= k <= 4
    ensures GenerateRating(k as real * 25.0) == k + 1
  {
  }

  /** `getStars(rating)`: five flags, the first `rating` of them set. */
  function GetStars(rating: int): (stars: seq<bool>)
    ensures |stars| == 5
    ensures forall i :: 0 <= i < 5 ==> stars[i] == (i < rating)
  {
    seq(5, i requires 0 <= i < 5 => i < rating)
  }

  function CountTrue(s: seq<bool>): nat
    decreases |s|
  {
    if s == [] then 0 else CountTrue(s[..|s| - 1]) + (if s[|s| - 1] then 1 else 0)
  }

  lemma {:induction false} CountPrefix(s: seq<bool>, n: nat)
    requires n <= |s|
    requires forall i :: 0 <= i < |s| ==> s[i] == (i < n)
    ensures CountTrue(s) == n
    decreases |s|
  {
    if s != [] {
      var s' := s[..|s| - 1];
      if n == |s| {
        CountPrefix(s', n - 1);
      } else {
        CountPrefix(s', n);
      }
    }
  }

  /** The star row shows the rating, clipped to 0..5, as filled stars. */
  lemma StarsCount(rating: int)
    ensures CountTrue(GetStars(rating)) == if rating < 0 then 0 else if rating > 5 then 5 else rating
  {
    CountPrefix(GetStars(rating), if rating < 0 then 0 else if rating > 5 then 5 else rating);
  }

  /** `child.data.value || 0`, summed. */
  function SumValues(values: seq<Option<int>>): int
    decreases |values|
  {
    if values == [] then 0
    else SumValues(values[..|values| - 1]) + (match values[|values| - 1] case None => 0 case Some(v) => v)
  }

  /** `getAveragePopularity(node)` of a node whose children carry `values`; a leaf
      (d3 gives it no `children`, never an empty array) has none and gets 0. */
  function AveragePopularity(values: seq<Option<int>>): int {
    if values == [] then 0 else Round(SumValues(values) as real / |values| as real)
  }

  lemma AddWithinBounds(m: nat, sum: int, v: int, lo: int, hi: int)
    requires m * lo <= sum <= m * hi && lo <= v <= hi
    ensures (m + 1) * lo <= sum + v <= (m + 1) * hi
  {
    assert (m + 1) * lo == m * lo + lo && (m + 1) * hi == m * hi + hi;
  }

  lemma {:induction false} SumValuesBounds(values: seq<Option<int>>, lo: int, hi: int)
    requires forall i :: 0 <= i < |values| ==> lo <= (if values[i].Some? then values[i].value else 0) <= hi
    ensures |values| * lo <= SumValues(values) <= |values| * hi
    decreases |values|
  {
    if values != [] {
      var m := |values| - 1;
      var front := values[..m];
      assert forall i :: 0 <= i < |front| ==> front[i] == values[i];
      SumValuesBounds(front, lo, hi);
      var v := if values[m].Some? then values[m].value else 0;
      assert SumValues(values) == SumValues(front) + v;
      AddWithinBounds(m, SumValues(front), v, lo, hi);
    }
  }

  /** A sum of `n` terms within `lo..hi`, divided by `n`, lies within `lo..hi`. */
  lemma MeanBetween(sum: real, n: real, lo: real, hi: real)
    requires n > 0.0 && n * lo <= sum <= n * hi
    ensures lo <= sum / n <= hi
  {
    DivMonotone(n * lo, sum, n);
    DivMonotone(sum, n * hi, n);
    assert (n * lo) / n == lo;
    assert (n * hi) / n == hi;
  }

  lemma RoundInt(k: int)
    ensures Round(k as real) == k
  {
  }

  /** The average of values within `lo..hi` (a missing value counting 0) lies
      within `lo..hi`. */
  lemma AveragePopularityBounds(values: seq<Option<int>>, lo: int, hi: int)
    requires values != []
    requires forall i :: 0 <= i < |values| ==> lo <= (if values[i].Some? then values[i].value else 0) <= hi
    ensures lo <= AveragePopularity(values) <= hi
  {
    SumValuesBounds(values, lo, hi);
    var k := |values|;
    var n := k as real;
    var sumInt := SumValues(values);
    var sum := sumInt as real;
    assert (k * lo) as real == n * lo as real && (k * hi) as real == n * hi as real;
    MeanBetween(sum, n, lo as real, hi as real);
    var mean := sum / n;
    assert AveragePopularity(values) == Round(mean);
    RoundMonotone(lo as real, mean);
    RoundMonotone(mean, hi as real);
    RoundInt(lo);
    RoundInt(hi);
  }

  // ---------------------------------------------------------------- the component

  /** The chart's state: the partition (fixed), each node's `target` and
      `current` arcs, which paths and labels are shown, the focus, the
      highlighted tool and the datum of the centre circle. */
  class Chart {
    const nodes: seq<Node>
    const target: array<Arc>
    const current: array<Arc>
    var arcShown: seq<bool>
    var labelShown: seq<bool>
    var currentFocus: Option<nat>
    var highlightedTool: Option<nat>
    var parentDatum: nat

    /** The fixed hierarchy is a partition. */
    ghost predicate Shaped() {
      Partition(nodes)
    }

    ghost predicate Valid()
      reads this
    {
      && Shaped()
      && target.Length == |nodes| && current.Length == |nodes| && target != current
      && |arcShown| == |nodes| && |labelShown| == |nodes|
      && (currentFocus.Some? ==> 0 < currentFocus.value < |nodes|)
      // the centre circle holds the parent of the focus, or the root
      && parentDatum == (if currentFocus.None? then 0 else nodes[currentFocus.value].parent.value)
      // a highlighted tool is always inside the focused category
      && (highlightedTool.Some? ==>
            && 0 < highlightedTool.value < |nodes| && nodes[highlightedTool.value].depth == 2
            && currentFocus == nodes[highlightedTool.value].parent)
    }

    /** After `createChart`: every arc at its layout, all shown, nothing focused. */
    constructor(ns: seq<Node>)
      requires Partition(ns)
      ensures Valid() && nodes == ns
      ensures forall i :: 0 <= i < |ns| ==> target[i] == ns[i].layout && current[i] == ns[i].layout
      ensures fresh(target) && fresh(current)
      ensures currentFocus.None? && highlightedTool.None? && parentDatum == 0
      ensures forall i :: 0 <= i < |ns| ==> arcShown[i] == (i > 0) && labelShown[i] == (i > 0)
    {
      nodes := ns;
      target := new Arc[|ns|](i => if 0 <= i < |ns| then ns[i].layout else Arc(0.0, 0.0, 0.0, 0.0));
      current := new Arc[|ns|](i => if 0 <= i < |ns| then ns[i].layout else Arc(0.0, 0.0, 0.0, 0.0));
      arcShown := seq(|ns|, i => i > 0);
      labelShown := seq(|ns|, i => i > 0);
      currentFocus := None;
      highlightedTool := None;
      parentDatum := 0;
    }

    /** Every target is retargeted to `p`. */
    ghost predicate TargetsFor(p: nat)
      reads target
      requires Partition(nodes) && p < |nodes| && target.Length == |nodes|
    {
      forall i :: 0 <= i < |nodes| ==>
        target[i] == ZoomTarget(nodes[i].layout, nodes[p].layout, nodes[p].depth)
    }

    /** A path (label) is shown iff it passes the visibility test on its
        current arc and `p` is on its chain. */
    ghost predicate ShownFor(arcs: seq<bool>, labels: seq<bool>, p: nat)
      reads current
      requires WellParented(nodes) && p < |nodes| && current.Length == |nodes|
      requires |arcs| == |nodes| && |labels| == |nodes|
    {
      && (forall i :: 0 <= i < |nodes| ==>
            arcs[i] == (i > 0 && ArcVisible(current[i]) && OnChain(nodes, i, p)))
      && (forall i :: 0 <= i < |nodes| ==>
            labels[i] == (i > 0 && LabelVisible(current[i]) && OnChain(nodes, i, p)))
    }

    /** The state a zooming click on `p` leaves: every target retargeted to `p`,
        the focus on `p` (none for the root), the centre circle on `p`'s parent
        (the root for the root), and a path or label shown iff it passes the
        visibility test on its current arc and `p` is on its chain. */
    ghost predicate ZoomedTo(p: nat)
      reads this, target, current
      requires Valid() && p < |nodes|
    {
      && TargetsFor(p)
      && currentFocus == (if nodes[p].depth == 0 then None else Some(p))
      && parentDatum == (if nodes[p].depth == 0 then 0 else nodes[p].parent.value)
      && (PartitionWellParented(nodes); ShownFor(arcShown, labelShown, p))
    }

    /** `root.each(d => d.target = ...)` */
    method Retarget(p: nat)
      requires Valid() && p < |nodes|
      modifies target
      ensures TargetsFor(p)
    {
      var pl := nodes[p].layout;
      var pd := nodes[p].depth;
      for i := 0 to |nodes|
        invariant forall k :: 0 <= k < i ==> target[k] == ZoomTarget(nodes[k].layout, pl, pd)
      {
        target[i] := ZoomTarget(nodes[i].layout, pl, pd);
      }
    }

    /** The `fill-opacity`/`pointer-events` and label `fill-opacity` the click's
        transition sets on each path (the root has none), computed on the arcs'
        `current` values. */
    method Visibility(p: nat) returns (arcs: seq<bool>, labels: seq<bool>)
      requires Valid() && p < |nodes|
      ensures |arcs| == |nodes| && |labels| == |nodes|
      ensures WellParented(nodes) && ShownFor(arcs, labels, p)
    {
      PartitionWellParented(nodes);
      arcs, labels := VisibilityOf(nodes, current[..], p);
    }

    /** `clicked(event, p)`.  A tool with a URL is opened (returned in `openUrl`)
        and nothing else happens; any other node becomes the zoom focus, clears
        the highlight, and a category's id is emitted through `categorySelect`
        (returned in `selected`). */
    method Clicked(p: nat) returns (openUrl: Option<string>, selected: Option<string>)
      requires Valid() && p < |nodes|
      modifies this, target
      ensures Valid()
      ensures nodes[p].depth == 2 && Truthy(nodes[p].url) ==>
                && openUrl == nodes[p].url && selected.None?
                && target[..] == old(target[..])
                && currentFocus == old(currentFocus) && highlightedTool == old(highlightedTool)
                && parentDatum == old(parentDatum)
                && arcShown == old(arcShown) && labelShown == old(labelShown)
      ensures !(nodes[p].depth == 2 && Truthy(nodes[p].url)) ==>
                && openUrl.None? && ZoomedTo(p) && highlightedTool.None?
                && selected == (if nodes[p].depth == 1 then Some(nodes[p].id) else None)
    {
      openUrl, selected := None, None;
      if nodes[p].depth == 2 && Truthy(nodes[p].url) {
        openUrl := nodes[p].url;
        return;
      }
      var node := nodes[p];
      DepthZeroIsRoot(nodes, p);
      Retarget(p);
      var arcs, labels := Visibility(p);
      arcShown, labelShown := arcs, labels;
      highlightedTool := None;
      parentDatum := if node.depth == 0 then 0 else node.parent.value;
      currentFocus := if node.depth == 0 then None else Some(p);
      if node.depth == 1 {
        selected := Some(node.id);
      }
    }

    /** A click on the centre circle zooms out to the datum it holds. */
    method ClickCentre() returns (selected: Option<string>)
      requires Valid()
      modifies this, target
      ensures Valid() && ZoomedTo(old(parentDatum)) && highlightedTool.None?
      ensures selected == (if nodes[old(parentDatum)].depth == 1 then Some(nodes[old(parentDatum)].id) else None)
    {
      var openUrl;
      openUrl, selected := Clicked(parentDatum);
    }

    /** `resetZoom()`: a click on the root, which sends every target back to
        its layout and leaves nothing focused. */
    method ResetZoom()
      requires Valid()
      modifies this, target
      ensures Valid() && ZoomedTo(0) && currentFocus.None? && highlightedTool.None? && parentDatum == 0
      ensures forall i :: 0 <= i < |nodes| ==> target[i] == nodes[i].layout
    {
      var openUrl, selected := Clicked(0);
      forall i | 0 <= i < |nodes|
        ensures target[i] == nodes[i].layout
      {
        RootTargetIsLayout(nodes[i].layout, nodes[0].layout);
      }
    }

    /** `highlightTool(name)`: the first tool whose lower-cased name equals the
        lower-cased `name` has its category clicked and becomes the highlighted
        tool; with no such tool nothing changes. */
    method HighlightTool(toolName: string) returns (selected: Option<string>)
      requires Valid()
      modifies this, target
      ensures Valid()
      ensures FirstIndex(nodes, IsToolNamed(toolName)).None? ==>
                && selected.None? && target[..] == old(target[..])
                && currentFocus == old(currentFocus) && highlightedTool == old(highlightedTool)
                && parentDatum == old(parentDatum)
                && arcShown == old(arcShown) && labelShown == old(labelShown)
      ensures FirstIndex(nodes, IsToolNamed(toolName)).Some? ==>
                var t := FirstIndex(nodes, IsToolNamed(toolName)).value;
                var c := nodes[t].parent.value;
                && ZoomedTo(c) && highlightedTool == Some(t) && selected == Some(nodes[c].id)
    {
      selected := None;
      var found := FirstIndex(nodes, IsToolNamed(toolName));
      if found.None? {
        return;
      }
      var t := found.value;
      var c := nodes[t].parent.value;
      var openUrl;
      openUrl, selected := Clicked(c);
      highlightedTool := Some(t);
    }

    /** `zoomToSearchResult(id)`: click the first category with that id; with no
        such category nothing changes. */
    method ZoomToSearchResult(categoryId: string) returns (selected: Option<string>)
      requires Valid()
      modifies this, target
      ensures Valid()
      ensures FirstIndex(nodes, IsCategoryWithId(categoryId)).None? ==>
                && selected.None? && target[..] == old(target[..])
                && currentFocus == old(currentFocus) && highlightedTool == old(highlightedTool)
                && parentDatum == old(parentDatum)
                && arcShown == old(arcShown) && labelShown == old(labelShown)
      ensures FirstIndex(nodes, IsCategoryWithId(categoryId)).Some? ==>
                && ZoomedTo(FirstIndex(nodes, IsCategoryWithId(categoryId)).value)
                && highlightedTool.None? && selected == Some(categoryId)
    {
      selected := None;
      var found := FirstIndex(nodes, IsCategoryWithId(categoryId));
      if found.Some? {
        var openUrl;
        openUrl, selected := Clicked(found.value);
      }
    }

    /** The end of the 750 ms transition: every `current` arc has reached its
        target. */
    method FinishTransition()
      requires Valid()
      modifies current
      ensures Valid()
      ensures forall i :: 0 <= i < |nodes| ==> current[i] == target[i]
    {
      for i := 0 to |nodes|
        invariant forall k :: 0 <= k < i ==> current[k] == target[k]
      {
        current[i] := target[i];
      }
    }
  }

  /** The `find` test of `highlightTool`. */
  function IsToolNamed(toolName: string): Node -> bool {
    (d: Node) => d.depth == 2 && Lower(d.name) == Lower(toolName)
  }

  /** The `find` test of `zoomToSearchResult`. */
  function IsCategoryWithId(categoryId: string): Node -> bool {
    (d: Node) => d.depth == 1 && d.id == categoryId
  }
}
