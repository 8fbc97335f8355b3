/**
  The streaming Half-Space Trees detector of internal/domain/detect/hst.go: a
  forest of heap trees whose counters stand for two windows of points.
 */
module HstDetector {
  import opened Common
  import opened HstShape
  import opened HstDensity
  import opened RobustZ
  import opened Hst

  type Features = map<string, real>
  type Baselines = map<string, Baseline>

  datatype HstResult = HstResult(score: real, density: real, ready: bool)

  /** How features become a point: the dimensions in order, and the scaling of each. */
  datatype Scaling = Scaling(names: seq<string>, z: ZParams, zRange: real) {
    predicate Usable() {
      zRange > 0.0
    }

    /** A template without features still gets one (constant) dimension. */
    function Dims(): nat {
      if names == [] then 1 else |names|
    }
  }

  /** One coordinate: 0.5 for a feature without value or baseline, otherwise the z-score mapped into the unit cube. */
  function Coordinate(s: Scaling, base: Baselines, f: Features, i: nat): real
    requires s.Usable()
  {
    if i < |s.names| && s.names[i] in f && s.names[i] in base
    then Clamp01(0.5 + Z(s.z, f[s.names[i]], base[s.names[i]]) / (2.0 * s.zRange))
    else 0.5
  }

  function Standardised(s: Scaling, base: Baselines, f: Features): (x: Point)
    requires s.Usable()
    ensures |x| == s.Dims()
  {
    seq(s.Dims(), i requires 0 <= i => Coordinate(s, base, f, i))
  }

  /**
    A coordinate reads the z-score off the cube: zRange spreads either way of the
    median reach the faces, what lies beyond them stays there, and a feature
    without a value or a baseline sits in the middle.
   */
  lemma CoordinateIs(s: Scaling, base: Baselines, f: Features, i: nat)
    requires s.Usable() && i < |s.names|
    ensures var c, known := Coordinate(s, base, f, i), s.names[i] in f && s.names[i] in base;
            && (!known ==> c == 0.5)
            && (known ==>
                  var z := Z(s.z, f[s.names[i]], base[s.names[i]]);
                  && (-s.zRange <= z <= s.zRange ==> (c - 0.5) * (2.0 * s.zRange) == z)
                  && (z >= s.zRange ==> c == 1.0)
                  && (z <= -s.zRange ==> c == 0.0))
  {
    hide Z;
    if s.names[i] in f && s.names[i] in base {
      InCube(Z(s.z, f[s.names[i]], base[s.names[i]]), s.zRange);
    }
  }

  lemma InCube(z: real, range: real)
    requires range > 0.0
    ensures var c := Clamp01(0.5 + z / (2.0 * range));
            && (-range <= z <= range ==> (c - 0.5) * (2.0 * range) == z)
            && (z >= range ==> c == 1.0)
            && (z <= -range ==> c == 0.0)
  {
    var q := z / (2.0 * range);
    assert q * (2.0 * range) == z;
    if z >= range {
      assert (q - 0.5) * (2.0 * range) >= 0.0;
    }
    if z <= -range {
      assert (q + 0.5) * (2.0 * range) <= 0.0;
    }
    if -range <= z <= range {
      assert (0.5 - q) * (2.0 * range) >= 0.0 && (q + 0.5) * (2.0 * range) >= 0.0;
    }
  }

  /** Every standardised point lies in the unit cube, so the root boxes hold it. */
  lemma StandardisedInCube(s: Scaling, base: Baselines, f: Features)
    requires s.Usable()
    ensures InUnitCube(Standardised(s, base, f))
  {
  }

  /** The masses of the tree at `n` count the points of the two windows. */
  ghost predicate TreeCounts(n: Node, t: Shape, w: Windows)
    reads Nodes(n)
  {
    forall m :: m in Nodes(n) ==> m.l == Through(t, w.cur, m.path) && m.r == Through(t, w.ref, m.path)
  }

  ghost predicate ForestCounts(trees: seq<Node>, shapes: seq<Shape>, w: Windows)
    requires |trees| == |shapes|
    reads ForestNodes(trees)
  {
    forall i :: 0 <= i < |trees| ==> TreeCounts(trees[i], shapes[i], w)
  }

  ghost function ForestNodes(trees: seq<Node>): (all: set<Node>)
    ensures forall i :: 0 <= i < |trees| ==> Nodes(trees[i]) <= all
  {
    if trees == [] then {} else ForestNodes(trees[..|trees| - 1]) + Nodes(trees[|trees| - 1])
  }

  ghost predicate Forest(trees: seq<Node>, shapes: seq<Shape>, depth: nat, d: nat) {
    && |trees| == |shapes|
    && forall i :: 0 <= i < |trees| ==> Linked(trees[i], shapes[i], i, []) && Perfect(shapes[i], depth, d)
  }

  lemma TreesApart(trees: seq<Node>, shapes: seq<Shape>, depth: nat, d: nat)
    requires Forest(trees, shapes, depth, d)
    ensures forall i, j :: 0 <= i < |trees| && 0 <= j < |trees| && i != j ==> Nodes(trees[i]) !! Nodes(trees[j])
  {
    forall i, j | 0 <= i < |trees| && 0 <= j < |trees| && i != j
      ensures Nodes(trees[i]) !! Nodes(trees[j])
    {
      NodesSitBelow(trees[i], shapes[i], i, []);
      NodesSitBelow(trees[j], shapes[j], j, []);
    }
  }

  lemma OneMore(t: Shape, points: seq<Point>, x: Point, path: Path)
    ensures Through(t, points + [x], path) == Through(t, points, path) + if AtOrAbove(path, Route(t, x)) then 1 else 0
  {
    assert (points + [x])[..|points|] == points;
  }

  // ----- The forest, one tree at a time -----

  method ResetTree(n: Node, ghost t: Shape, ghost i: nat)
    requires Linked(n, t, i, [])
    modifies Nodes(n)
    ensures TreeCounts(n, t, NO_WINDOWS)
  {
    ResetMass(n, t, i, []);
  }

  method RollTree(n: Node, ghost t: Shape, ghost i: nat, ghost w: Windows)
    requires Linked(n, t, i, []) && TreeCounts(n, t, w)
    modifies Nodes(n)
    ensures TreeCounts(n, t, Windows([], w.cur))
  {
    Rollover(n, t, i, []);
  }

  /** Counts one point in and returns the reference mass of the leaf it reaches. */
  method CountTree(n: Node, point: seq<real>, ghost t: Shape, ghost depth: nat, ghost i: nat, ghost w: Windows)
    returns (mass: nat)
    requires Linked(n, t, i, []) && Perfect(t, depth, |point|) && TreeCounts(n, t, w)
    modifies Nodes(n)
    ensures TreeCounts(n, t, Windows(w.cur + [point], w.ref))
    ensures mass == SameLeaf(t, w.ref, point)
  {
    var leaf := Descend(n, point, t, depth, i);
    hide AtOrAbove, Through, Linked, Perfect;
    forall m | m in Nodes(n)
      ensures m.l == Through(t, w.cur + [point], m.path)
    {
      OneMore(t, w.cur, point, m.path);
    }
    LeafMassIsSameLeaf(t, depth, |point|, w.ref, point);
    mass := leaf.r;
  }

  method ResetForest(trees: seq<Node>, ghost shapes: seq<Shape>, ghost depth: nat, ghost d: nat)
    requires Forest(trees, shapes, depth, d)
    modifies ForestNodes(trees)
    ensures ForestCounts(trees, shapes, NO_WINDOWS)
  {
    TreesApart(trees, shapes, depth, d);
    hide TreeCounts, Linked, Perfect, Nodes, ForestNodes;
    for i := 0 to |trees|
      invariant forall j :: 0 <= j < i ==> TreeCounts(trees[j], shapes[j], NO_WINDOWS)
    {
      ResetTree(trees[i], shapes[i], i);
    }
  }

  method RollForest(trees: seq<Node>, ghost shapes: seq<Shape>, ghost depth: nat, ghost d: nat, ghost w: Windows)
    requires Forest(trees, shapes, depth, d) && ForestCounts(trees, shapes, w)
    modifies ForestNodes(trees)
    ensures ForestCounts(trees, shapes, Windows([], w.cur))
  {
    TreesApart(trees, shapes, depth, d);
    hide TreeCounts, Linked, Perfect, Nodes, ForestNodes;
    for i := 0 to |trees|
      invariant forall j :: 0 <= j < |trees| ==>
                  TreeCounts(trees[j], shapes[j], if j < i then Windows([], w.cur) else w)
    {
      RollTree(trees[i], shapes[i], i, w);
    }
  }

  /** The first `i` trees count `after`, the others still `before`. */
  ghost predicate Progressed(trees: seq<Node>, shapes: seq<Shape>, i: nat, after: Windows, before: Windows)
    requires |trees| == |shapes|
    reads ForestNodes(trees)
  {
    forall j :: 0 <= j < |trees| ==> TreeCounts(trees[j], shapes[j], if j < i then after else before)
  }

  method CountNext(
      trees: seq<Node>, i: nat, point: seq<real>, ghost shapes: seq<Shape>, ghost depth: nat, ghost w: Windows)
    returns (mass: nat)
    requires Forest(trees, shapes, depth, |point|) && i < |trees|
    requires Progressed(trees, shapes, i, Windows(w.cur + [point], w.ref), w)
    modifies Nodes(trees[i])
    ensures Progressed(trees, shapes, i + 1, Windows(w.cur + [point], w.ref), w)
    ensures mass == SameLeaf(shapes[i], w.ref, point)
  {
    TreesApart(trees, shapes, depth, |point|);
    hide TreeCounts, Linked, Perfect, Nodes, ForestNodes, SameLeaf;
    mass := CountTree(trees[i], point, shapes[i], depth, i, w);
  }

  /** Walks every tree once, counting the point in and summing the shares of the leaves it reaches. */
  method CountForest(
      trees: seq<Node>, point: seq<real>, depth: nat, size: nat, ghost shapes: seq<Shape>, ghost w: Windows)
    returns (sum: real)
    requires size > 0 && Forest(trees, shapes, depth, |point|) && ForestCounts(trees, shapes, w)
    modifies ForestNodes(trees)
    ensures sum == ShareSum(shapes, depth, size, w.ref, point)
    ensures ForestCounts(trees, shapes, Windows(w.cur + [point], w.ref))
  {
    hide TreeCounts, Linked, Perfect, Nodes, ForestNodes, Share, SameLeaf;
    sum := 0.0;
    ghost var after := Windows(w.cur + [point], w.ref);
    for i := 0 to |trees|
      invariant Progressed(trees, shapes, i, after, w)
      invariant sum == ShareSum(shapes[..i], depth, size, w.ref, point)
    {
      var mass := CountNext(trees, i, point, shapes, depth, w);
      sum := sum + Share(mass, depth, size);
      SumOneMore(shapes, i, depth, size, w.ref, point);
    }
    assert shapes[..|trees|] == shapes;
  }

  lemma SumOneMore(shapes: seq<Shape>, i: nat, depth: nat, size: nat, ref: seq<Point>, x: Point)
    requires i < |shapes| && size > 0
    ensures ShareSum(shapes[..i + 1], depth, size, ref, x)
            == ShareSum(shapes[..i], depth, size, ref, x) + Share(SameLeaf(shapes[i], ref, x), depth, size)
  {
    assert shapes[..i + 1][..i] == shapes[..i];
  }

  // ----- Building the forest -----

  datatype HstParams = HstParams(trees: int, depth: int, windowSize: int, zRange: real) {
    function WithDefaults(): HstParams {
      HstParams(if trees <= 0 then 25 else trees,
                if depth <= 0 then 6 else if depth > 12 then 12 else depth,
                if windowSize <= 0 then 64 else windowSize,
                if zRange <= 0.0 then 4.0 else zRange)
    }
  }

  /**
    Parameters that make sense are kept, the others replaced: 25 trees, depth 6
    (and never over 12), 64 points, range 4.
   */
  lemma HstDefaults(p: HstParams)
    ensures var q := p.WithDefaults();
            && q.trees > 0 && 1 <= q.depth <= 12 && q.windowSize > 0 && q.zRange > 0.0
            && (p.trees > 0 && 1 <= p.depth <= 12 && p.windowSize > 0 && p.zRange > 0.0 ==> q == p)
            && (p.trees <= 0 ==> q.trees == 25) && (p.windowSize <= 0 ==> q.windowSize == 64)
            && (p.depth <= 0 ==> q.depth == 6) && (p.depth > 12 ==> q.depth == 12)
            && (p.zRange <= 0.0 ==> q.zRange == 4.0)
            && (p.trees > 0 ==> q.trees == p.trees) && (p.windowSize > 0 ==> q.windowSize == p.windowSize)
            && (1 <= p.depth <= 12 ==> q.depth == p.depth) && (p.zRange > 0.0 ==> q.zRange == p.zRange)
  {
  }

  /** The random source: the dimension picked at each node of each tree, and the centre drawn for each dimension. */
  datatype Draws = Draws(pick: int -> Path -> nat, centre: (int, int) -> real) {
    ghost predicate For(d: nat) {
      && (forall i, p :: pick(i)(p) < d)
      && (forall i, q :: 0.0 <= centre(i, q) < 1.0)
    }

    function Centres(i: int, d: nat): (c: seq<real>)
      ensures |c| == d
    {
      seq(d, q => centre(i, q))
    }
  }

  ghost function TreeShape(draws: Draws, i: int, d: nat, depth: nat): Shape
    requires draws.For(d)
  {
    Grow(draws.pick(i), RootBox(draws.Centres(i, d)), [], depth)
  }

  method DrawBox(draws: Draws, i: nat, d: nat) returns (lo: array<real>, hi: array<real>)
    requires draws.For(d)
    ensures fresh(lo) && fresh(hi) && lo != hi && Box(lo[..], hi[..]) == RootBox(draws.Centres(i, d))
  {
    lo, hi := new real[d], new real[d];
    ghost var box := RootBox(draws.Centres(i, d));
    for q := 0 to d
      invariant lo[..q] == box.lo[..q] && hi[..q] == box.hi[..q]
    {
      var sq := draws.centre(i, q);
      var span := 2.0 * Max(sq, 1.0 - sq);
      lo[q] := sq - span;
      hi[q] := sq + span;
    }
    assert lo[..] == box.lo && hi[..] == box.hi;
  }

  /** Draws one root box and grows a tree on it. */
  method BuildOne(draws: Draws, i: nat, d: nat, depth: nat) returns (n: Node)
    requires draws.For(d)
    ensures Linked(n, TreeShape(draws, i, d, depth), i, [])
    ensures fresh(Nodes(n)) && TreeCounts(n, TreeShape(draws, i, d, depth), NO_WINDOWS)
  {
    var lo, hi := DrawBox(draws, i, d);
    hide Grow, Linked, RootBox;
    assert lo.Length == |lo[..]| == d && hi.Length == |hi[..]| == d by {
      assert |RootBox(draws.Centres(i, d)).lo| == d;
    }
    n := BuildTree(draws.pick(i), lo, hi, 0, depth, i, []);
  }

  lemma ShapeIsPerfect(draws: Draws, i: int, d: nat, depth: nat)
    requires draws.For(d)
    ensures Perfect(TreeShape(draws, i, d, depth), depth, d)
  {
    var box := RootBox(draws.Centres(i, d));
    GrowHalves(draws.pick(i), box, [], depth);
    HalvesIsPerfect(TreeShape(draws, i, d, depth), depth, box);
  }

  method BuildForest(draws: Draws, count: nat, d: nat, depth: nat)
    returns (trees: seq<Node>, ghost shapes: seq<Shape>, ghost nodes: set<Node>)
    requires draws.For(d)
    ensures |trees| == count && Forest(trees, shapes, depth, d) && ForestCounts(trees, shapes, NO_WINDOWS)
    ensures forall i :: 0 <= i < count ==> shapes[i] == TreeShape(draws, i, d, depth)
    ensures nodes == ForestNodes(trees) && fresh(nodes)
  {
    hide TreeCounts, Linked, Perfect, Nodes, TreeShape;
    trees, shapes, nodes := [], [], {};
    for i := 0 to count
      invariant |trees| == i && Forest(trees, shapes, depth, d)
      invariant nodes == ForestNodes(trees) && fresh(nodes)
      invariant forall j :: 0 <= j < i ==> TreeCounts(trees[j], shapes[j], NO_WINDOWS)
      invariant forall j :: 0 <= j < i ==> shapes[j] == TreeShape(draws, j, d, depth)
    {
      var n := BuildOne(draws, i, d, depth);
      ShapeIsPerfect(draws, i, d, depth);
      assert (trees + [n])[..i] == trees;
      trees, shapes, nodes := trees + [n], shapes + [TreeShape(draws, i, d, depth)], nodes + Nodes(n);
    }
  }

  lemma OneMoreObserved(size: nat, points: seq<Point>, x: Point)
    ensures WindowsOf(size, points + [x]) == Observed(size, WindowsOf(size, points), x)
  {
    assert (points + [x])[..|points|] == points;
  }

  class Detector {
    const depth: nat
    const size: nat
    const scaling: Scaling
    const trees: seq<Node>
    const point: array<real>
    var base: Baselines
    var seen: nat
    var ready: bool
    ghost const shapes: seq<Shape>
    ghost const nodes: set<Node>
    ghost var windows: Windows
    ghost var points: seq<Point>  // observed since the masses were last discarded

    ghost predicate Valid()
      reads this, nodes
    {
      && size > 0 && trees != [] && scaling.Usable() && point.Length == scaling.Dims()
      && Forest(trees, shapes, depth, point.Length) && nodes == ForestNodes(trees)
      && seen == |windows.cur| < size
      && (ready <==> windows.ref != [])
      && (windows.ref != [] ==> |windows.ref| == size)
      && ForestCounts(trees, shapes, windows) && windows == WindowsOf(size, points)
    }

    /** Draws the forest. The detector starts with no window and every tree grown on its own root box. */
    constructor (params: HstParams, names: seq<string>, z: ZParams, base: Baselines, draws: Draws)
      requires draws.For(if names == [] then 1 else |names|)
      ensures Valid() && fresh(nodes) && fresh(point) && windows == NO_WINDOWS && points == [] && this.base == base
      ensures var q := params.WithDefaults();
              && |trees| == |shapes| == q.trees && depth == q.depth && size == q.windowSize
              && scaling == Scaling(names, z, q.zRange)
              && forall i :: 0 <= i < |shapes| ==> shapes[i] == TreeShape(draws, i, scaling.Dims(), depth)
    {
      var q := params.WithDefaults();
      var d := if names == [] then 1 else |names|;
      var grown, outlines, all := BuildForest(draws, q.trees, d, q.depth);
      depth, size := q.depth, q.windowSize;
      scaling := Scaling(names, z, q.zRange);
      trees, shapes, nodes := grown, outlines, all;
      point := new real[d](_ => 0.5);
      this.base, seen, ready, windows, points := base, 0, false, NO_WINDOWS, [];
    }

    /** The detector has trees, and is ready exactly when it holds a completed window. */
    lemma ReadyMeans()
      requires Valid()
      ensures shapes != [] && (ready <==> HstDensity.Ready(windows))
    {
    }

    /** Replaces the baselines. The coordinates change, so all masses are discarded and warm-up starts over. */
    method SetBaselines(base: Baselines)
      requires Valid()
      modifies this, nodes
      ensures Valid() && this.base == base && windows == NO_WINDOWS && points == []
    {
      hide Linked, Perfect, Nodes, ForestNodes, Forest, TreeCounts;
      this.base := base;
      seen := 0;
      ready := false;
      ResetForest(trees, shapes, depth, point.Length);
      windows, points := NO_WINDOWS, [];
    }

    method Standardise(features: Features)
      requires scaling.Usable() && point.Length == scaling.Dims()
      modifies point
      ensures point[..] == Standardised(scaling, base, features)
    {
      point[0] := 0.5;
      for i := 0 to |scaling.names|
        invariant point[..i] == Standardised(scaling, base, features)[..i]
        invariant scaling.names == [] ==> point[0] == 0.5
      {
        var name := scaling.names[i];
        if name !in features || name !in base {
          point[i] := 0.5;
        } else {
          var z := Z(scaling.z, features[name], base[name]);
          point[i] := Clamp01(0.5 + z / (2.0 * scaling.zRange));
        }
        assert point[i] == Standardised(scaling, base, features)[i];
      }
    }

    /**
      Scores the point against the reference window, then adds it to the latest
      one. The density is the brute-force count over the reference window.
     */
    method Observe(features: Features) returns (res: HstResult)
      requires Valid()
      modifies this, point, nodes
      ensures Valid() && base == old(base)
      ensures var x := Standardised(scaling, old(base), features);
              && windows == Observed(size, old(windows), x) && points == old(points) + [x]
              && res == HstResult(Score(old(ready), Density(shapes, depth, size, old(windows).ref, x)),
                                  Density(shapes, depth, size, old(windows).ref, x), old(ready))
    {
      hide Linked, Perfect, Nodes, ForestNodes, Standardised, Score, WindowsOf, TreeCounts;
      assert |shapes| == |trees|;
      hide Forest;
      Standardise(features);
      ghost var x := Standardised(scaling, base, features);
      var sum := CountForest(trees, point[..], depth, size, shapes, windows);
      var density := sum / |trees| as real;
      res := HstResult(Score(ready, density), density, ready);
      seen := seen + 1;
      if seen >= size {
        RollForest(trees, shapes, depth, point.Length, Windows(windows.cur + [x], windows.ref));
        seen := 0;
        ready := true;
      }
      OneMoreObserved(size, points, x);
      windows, points := Observed(size, windows, x), points + [x];
    }

    /**
      At any time, whatever was observed since the last reset: the reference
      window is the last of some number k of completed blocks of `size` points,
      the latest window is what came after, and the detector is ready once there
      is such a block.
     */
    lemma HoldsBlocks() returns (k: nat)
      requires Valid()
      ensures SplitInBlocks(size, points, windows, k)
      ensures ready <==> |points| >= size
    {
      k := WindowsAreBlocks(size, points);
    }

    /**
      Conservation in the heap: both masses of an inner node are those of its
      children, and a root has counted every point of the two windows.
     */
    lemma MassesAddUp(i: nat, n: Node)
      requires Valid() && i < |trees| && n in Nodes(trees[i])
      ensures n.left == null <==> n.right == null
      ensures n.left != null ==> n.left in nodes && n.right in nodes
      ensures n.left != null ==> n.l == n.left.l + n.right.l && n.r == n.left.r + n.right.r
      ensures trees[i].l == seen && trees[i].r == if ready then size else 0
    {
      var root, t := trees[i], shapes[i];
      assert Linked(root, t, i, []) && Perfect(t, depth, point.Length) && TreeCounts(root, t, windows);
      ChildrenBelow(root, t, i, [], depth, point.Length, n);
      RootMass(t, windows.cur);
      RootMass(t, windows.ref);
      if n.left != null {
        MassSplits(t, depth, point.Length, windows.cur, n.path);
        MassSplits(t, depth, point.Length, windows.ref, n.path);
      }
    }
  }
}
