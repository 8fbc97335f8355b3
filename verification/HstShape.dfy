/**
  The geometry of internal/domain/detect/hst.go: how a tree of half-space
  splits partitions its box, and how points are routed and counted. Random
  draws are arbitrary: `pick` chooses the dimension at every node.
 */
module HstShape {
  import opened Common

  type Point = seq<real>

  /** From the root down; false is left. */
  type Path = seq<bool>

  datatype Shape = Leaf | Split(dim: nat, at: real, left: Shape, right: Shape)

  datatype Box = Box(lo: seq<real>, hi: seq<real>)

  /** A box with the same number of lower and upper bounds, open in every dimension. */
  ghost predicate Proper(b: Box) {
    |b.lo| == |b.hi| && forall i :: 0 <= i < |b.lo| ==> b.lo[i] < b.hi[i]
  }

  /** Every leaf is exactly `depth` splits down, and every split looks at one of `d` coordinates. */
  ghost predicate Perfect(t: Shape, depth: nat, d: nat) {
    match t
    case Leaf => depth == 0
    case Split(q, _, left, right) => depth > 0 && q < d && Perfect(left, depth - 1, d) && Perfect(right, depth - 1, d)
  }

  // ----- Construction -----

  function Midpoint(lo: real, hi: real): real {
    (lo + hi) / 2.0
  }

  function LeftBox(b: Box, q: nat, at: real): Box
    requires q < |b.hi|
  {
    Box(b.lo, b.hi[q := at])
  }

  function RightBox(b: Box, q: nat, at: real): Box
    requires q < |b.lo|
  {
    Box(b.lo[q := at], b.hi)
  }

  /** The shape of a tree grown on a box: each split halves the box along the picked dimension. */
  function Grow(pick: Path -> nat, b: Box, path: Path, levels: nat): Shape
    requires |b.lo| == |b.hi| && forall p :: pick(p) < |b.lo|
    decreases levels
  {
    if levels == 0 then Leaf
    else
      var q := pick(path);
      var at := Midpoint(b.lo[q], b.hi[q]);
      Split(q, at,
            Grow(pick, LeftBox(b, q, at), path + [false], levels - 1),
            Grow(pick, RightBox(b, q, at), path + [true], levels - 1))
  }

  /** Every split of `t`, to the given depth, halves the box it is made in. */
  ghost predicate Halves(t: Shape, depth: nat, b: Box)
    requires |b.lo| == |b.hi|
  {
    match t
    case Leaf => depth == 0
    case Split(q, at, left, right) =>
      && depth > 0 && q < |b.lo| && at == Midpoint(b.lo[q], b.hi[q])
      && Halves(left, depth - 1, LeftBox(b, q, at))
      && Halves(right, depth - 1, RightBox(b, q, at))
  }

  lemma {:induction false} GrowHalves(pick: Path -> nat, b: Box, path: Path, levels: nat)
    requires |b.lo| == |b.hi| && forall p :: pick(p) < |b.lo|
    ensures Halves(Grow(pick, b, path, levels), levels, b)
    decreases levels
  {
    if levels > 0 {
      var q := pick(path);
      var at := Midpoint(b.lo[q], b.hi[q]);
      GrowHalves(pick, LeftBox(b, q, at), path + [false], levels - 1);
      GrowHalves(pick, RightBox(b, q, at), path + [true], levels - 1);
    }
  }

  lemma {:induction false} HalvesIsPerfect(t: Shape, depth: nat, b: Box)
    requires |b.lo| == |b.hi| && Halves(t, depth, b)
    ensures Perfect(t, depth, |b.lo|)
  {
    if t.Split? {
      HalvesIsPerfect(t.left, depth - 1, LeftBox(b, t.dim, t.at));
      HalvesIsPerfect(t.right, depth - 1, RightBox(b, t.dim, t.at));
    }
  }

  function Pow2(n: nat): nat {
    if n == 0 then 1 else 2 * Pow2(n - 1)
  }

  function LeafCount(t: Shape): nat {
    match t
    case Leaf => 1
    case Split(_, _, left, right) => LeafCount(left) + LeafCount(right)
  }

  lemma {:induction false} PerfectLeafCount(t: Shape, depth: nat, d: nat)
    requires Perfect(t, depth, d)
    ensures LeafCount(t) == Pow2(depth)
  {
    if t.Split? {
      PerfectLeafCount(t.left, depth - 1, d);
      PerfectLeafCount(t.right, depth - 1, d);
    }
  }

  // ----- The partition -----

  /** Half-open membership. */
  ghost predicate Holds(b: Box, x: Point) {
    |x| == |b.lo| == |b.hi| && forall i :: 0 <= i < |x| ==> b.lo[i] <= x[i] < b.hi[i]
  }

  /** The box of the node at `path`. */
  ghost function Cell(t: Shape, depth: nat, b: Box, path: Path): (c: Box)
    requires |b.lo| == |b.hi| && Halves(t, depth, b) && |path| <= depth
    ensures |c.lo| == |c.hi| == |b.lo|
    decreases depth
  {
    if path == [] then b
    else if path[0] then Cell(t.right, depth - 1, RightBox(b, t.dim, t.at), path[1..])
    else Cell(t.left, depth - 1, LeftBox(b, t.dim, t.at), path[1..])
  }

  /** The descent of one observation: left iff the coordinate is below the split. */
  function Route(t: Shape, x: Point): Path {
    match t
    case Leaf => []
    case Split(q, at, left, right) =>
      if q < |x| && x[q] < at then [false] + Route(left, x) else [true] + Route(right, x)
  }

  lemma {:induction false} RouteLength(t: Shape, depth: nat, d: nat, x: Point)
    requires Perfect(t, depth, d)
    ensures |Route(t, x)| == depth
  {
    if t.Split? {
      RouteLength(if t.dim < |x| && x[t.dim] < t.at then t.left else t.right, depth - 1, d, x);
    }
  }

  lemma HalfBoxes(b: Box, q: nat)
    requires Proper(b) && q < |b.lo|
    ensures var at := Midpoint(b.lo[q], b.hi[q]);
            b.lo[q] < at < b.hi[q] && Proper(LeftBox(b, q, at)) && Proper(RightBox(b, q, at))
  {
  }

  /** Boxes only shrink on the way down. */
  lemma {:induction false} CellInside(t: Shape, depth: nat, b: Box, path: Path, x: Point)
    requires Proper(b) && Halves(t, depth, b) && |path| <= depth
    requires Holds(Cell(t, depth, b, path), x)
    ensures Holds(b, x)
    decreases depth
  {
    if path != [] {
      HalfBoxes(b, t.dim);
      if path[0] {
        CellInside(t.right, depth - 1, RightBox(b, t.dim, t.at), path[1..], x);
      } else {
        CellInside(t.left, depth - 1, LeftBox(b, t.dim, t.at), path[1..], x);
      }
    }
  }

  /**
    A point of the root box lies in the box of a node exactly when its descent
    passes through that node. So the boxes of the leaves are disjoint, cover the
    root box, and the descent ends in the one that holds the point.
   */
  lemma {:induction false} CellIffRouted(t: Shape, depth: nat, b: Box, path: Path, x: Point)
    requires Proper(b) && Halves(t, depth, b) && |path| <= depth && Holds(b, x)
    ensures Holds(Cell(t, depth, b, path), x) <==> path <= Route(t, x)
    decreases depth
  {
    if path != [] {
      var q := t.dim;
      var child := if path[0] then t.right else t.left;
      var half := if path[0] then RightBox(b, q, t.at) else LeftBox(b, q, t.at);
      HalfBoxes(b, q);
      if path[0] == (x[q] < t.at) {
        if Holds(Cell(child, depth - 1, half, path[1..]), x) {
          CellInside(child, depth - 1, half, path[1..], x);
        }
      } else {
        CellIffRouted(child, depth - 1, half, path[1..], x);
        assert Route(t, x) == [path[0]] + Route(child, x);
        assert path == [path[0]] + path[1..];
      }
    }
  }

  /** Exactly one leaf's box holds a point of the root box: the one its descent reaches. */
  lemma OneLeafHolds(t: Shape, depth: nat, b: Box, x: Point)
    requires Proper(b) && Halves(t, depth, b) && Holds(b, x)
    ensures |Route(t, x)| == depth && Holds(Cell(t, depth, b, Route(t, x)), x)
    ensures forall path: Path :: |path| == depth && Holds(Cell(t, depth, b, path), x) ==> path == Route(t, x)
  {
    HalvesIsPerfect(t, depth, b);
    RouteLength(t, depth, |b.lo|, x);
    CellIffRouted(t, depth, b, Route(t, x), x);
    forall path: Path | |path| == depth && Holds(Cell(t, depth, b, path), x)
      ensures path == Route(t, x)
    {
      CellIffRouted(t, depth, b, path, x);
    }
  }

  // ----- Volumes -----

  /** Product of the side lengths over the first `n` dimensions. */
  function Volume(b: Box, n: nat): real
    requires n <= |b.lo| && n <= |b.hi|
  {
    if n == 0 then 1.0 else Volume(b, n - 1) * (b.hi[n - 1] - b.lo[n - 1])
  }

  lemma {:induction false} HalvedVolume(b: Box, c: Box, q: nat, n: nat)
    requires |b.lo| == |b.hi| == |c.lo| == |c.hi| && q < |b.lo| && n <= |b.lo|
    requires c.hi[q] - c.lo[q] == (b.hi[q] - b.lo[q]) / 2.0
    requires forall k :: 0 <= k < |b.lo| && k != q ==> c.lo[k] == b.lo[k] && c.hi[k] == b.hi[k]
    ensures Volume(c, n) == if q < n then Volume(b, n) / 2.0 else Volume(b, n)
  {
    if n > 0 {
      HalvedVolume(b, c, q, n - 1);
      var v, w := Volume(b, n - 1), b.hi[n - 1] - b.lo[n - 1];
      assert v * (w / 2.0) == v * w / 2.0 && v / 2.0 * w == v * w / 2.0;
    }
  }

  /** v doubled n times. */
  function Doubled(v: real, n: nat): real {
    if n == 0 then v else 2.0 * Doubled(v, n - 1)
  }

  /** Every node at depth k has exactly 1/2^k of the root's volume; all leaves are equally large. */
  lemma {:induction false} CellVolume(t: Shape, depth: nat, b: Box, path: Path)
    requires |b.lo| == |b.hi| && Halves(t, depth, b) && |path| <= depth
    ensures Doubled(Volume(Cell(t, depth, b, path), |b.lo|), |path|) == Volume(b, |b.lo|)
    decreases depth
  {
    if path != [] {
      var q := t.dim;
      var child := if path[0] then t.right else t.left;
      var half := if path[0] then RightBox(b, q, t.at) else LeftBox(b, q, t.at);
      CellVolume(child, depth - 1, half, path[1..]);
      HalvedVolume(b, half, q, |b.lo|);
    }
  }

  // ----- The root box -----

  function Span(sq: real): real {
    2.0 * Max(sq, 1.0 - sq)
  }

  /** The box NewHST draws: centred on sq in each dimension, and wide enough for the unit cube. */
  function RootBox(draws: seq<real>): (b: Box)
    ensures |b.lo| == |b.hi| == |draws|
  {
    Box(seq(|draws|, i requires 0 <= i < |draws| => draws[i] - Span(draws[i])),
        seq(|draws|, i requires 0 <= i < |draws| => draws[i] + Span(draws[i])))
  }

  /**
    In every dimension the root box reaches as far from the draw either way:
    twice the way to the farther cube face.
   */
  lemma RootReach(draws: seq<real>, i: nat)
    requires i < |draws| && 0.0 <= draws[i] < 1.0
    ensures var b, face := RootBox(draws), if draws[i] < 0.5 then 1.0 else 0.0;
            b.hi[i] - draws[i] == draws[i] - b.lo[i] == 2.0 * Abs(face - draws[i])
  {
  }

  ghost predicate InUnitCube(x: Point) {
    forall i :: 0 <= i < |x| ==> 0.0 <= x[i] <= 1.0
  }

  /** Whatever is drawn from [0, 1), every point of the unit cube, upper faces included, lies in the root box. */
  lemma RootHoldsUnitCube(draws: seq<real>, x: Point)
    requires forall i :: 0 <= i < |draws| ==> 0.0 <= draws[i] < 1.0
    requires |x| == |draws| && InUnitCube(x)
    ensures Proper(RootBox(draws)) && Holds(RootBox(draws), x)
  {
    forall i | 0 <= i < |draws|
      ensures draws[i] - Span(draws[i]) <= 0.0 && draws[i] + Span(draws[i]) > 1.0
    {
    }
  }

  /** A tree grown on a drawn root box routes every point of the unit cube to the one leaf that holds it. */
  lemma GrownTreePartitions(pick: Path -> nat, draws: seq<real>, depth: nat, x: Point)
    requires |draws| > 0 && forall p :: pick(p) < |draws|
    requires forall i :: 0 <= i < |draws| ==> 0.0 <= draws[i] < 1.0
    requires |x| == |draws| && InUnitCube(x)
    ensures var b, t := RootBox(draws), Grow(pick, RootBox(draws), [], depth);
            && Halves(t, depth, b) && LeafCount(t) == Pow2(depth)
            && forall path: Path :: |path| == depth ==> (Holds(Cell(t, depth, b, path), x) <==> path == Route(t, x))
  {
    var b, t := RootBox(draws), Grow(pick, RootBox(draws), [], depth);
    GrowHalves(pick, b, [], depth);
    HalvesIsPerfect(t, depth, b);
    PerfectLeafCount(t, depth, |draws|);
    RootHoldsUnitCube(draws, x);
    OneLeafHolds(t, depth, b, x);
  }

  // ----- Counting points -----

  /** Number of points whose descent passes through the node at `path`. */
  function Through(t: Shape, points: seq<Point>, path: Path): nat {
    if points == [] then 0
    else Through(t, points[..|points| - 1], path) + (if path <= Route(t, points[|points| - 1]) then 1 else 0)
  }

  lemma PrefixSplits(path: Path, route: Path)
    requires |path| < |route|
    ensures path <= route <==> path + [false] <= route || path + [true] <= route
    ensures !(path + [false] <= route && path + [true] <= route)
  {
    var k := |path|;
    assert route[..k + 1] == route[..k] + [route[k]];
    if path <= route {
      if route[k] {
        assert path + [true] == route[..k + 1];
      } else {
        assert path + [false] == route[..k + 1];
      }
    }
    if path + [false] <= route {
      assert route[..k + 1] == path + [false] && path == route[..k];
    }
    if path + [true] <= route {
      assert route[..k + 1] == path + [true] && path == route[..k];
    }
  }

  /** Conservation at every inner node: the mass of a node is the mass of its two children. */
  lemma {:induction false} MassSplits(t: Shape, depth: nat, d: nat, points: seq<Point>, path: Path)
    requires Perfect(t, depth, d) && |path| < depth
    ensures Through(t, points, path) == Through(t, points, path + [false]) + Through(t, points, path + [true])
  {
    if points != [] {
      var x := points[|points| - 1];
      MassSplits(t, depth, d, points[..|points| - 1], path);
      RouteLength(t, depth, d, x);
      PrefixSplits(path, Route(t, x));
    }
  }

  lemma {:induction false} RootMass(t: Shape, points: seq<Point>)
    ensures Through(t, points, []) == |points|
  {
    if points != [] {
      RootMass(t, points[..|points| - 1]);
    }
  }

  /** Total over the leaves below `path`. */
  function LeafMass(t: Shape, points: seq<Point>, path: Path, levels: nat): nat
    decreases levels
  {
    if levels == 0 then Through(t, points, path)
    else LeafMass(t, points, path + [false], levels - 1) + LeafMass(t, points, path + [true], levels - 1)
  }

  lemma {:induction false} LeafMassIsMass(t: Shape, depth: nat, d: nat, points: seq<Point>, path: Path, levels: nat)
    requires Perfect(t, depth, d) && |path| + levels == depth
    ensures LeafMass(t, points, path, levels) == Through(t, points, path)
    decreases levels
  {
    if levels > 0 {
      LeafMassIsMass(t, depth, d, points, path + [false], levels - 1);
      LeafMassIsMass(t, depth, d, points, path + [true], levels - 1);
      MassSplits(t, depth, d, points, path);
    }
  }

  lemma {:induction false} ThroughBound(t: Shape, points: seq<Point>, path: Path)
    ensures Through(t, points, path) <= |points|
  {
    if points != [] {
      ThroughBound(t, points[..|points| - 1], path);
    }
  }
}
