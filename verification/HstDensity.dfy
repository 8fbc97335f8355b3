/**
  What the Half-Space Trees detector computes, by brute force over the last
  completed window: no counters, no trees in memory.
 */
module HstDensity {
  import opened Common
  import opened HstShape

  /** The window being filled and the last one completed (empty until then). */
  datatype Windows = Windows(cur: seq<Point>, ref: seq<Point>)

  const NO_WINDOWS := Windows([], [])

  function Observed(size: nat, w: Windows, x: Point): Windows {
    if |w.cur| + 1 >= size then Windows([], w.cur + [x]) else Windows(w.cur + [x], w.ref)
  }

  function Ready(w: Windows): bool {
    w.ref != []
  }

  /** Number of points that fall into the same leaf as `x`. */
  function SameLeaf(t: Shape, points: seq<Point>, x: Point): nat {
    if points == [] then 0
    else SameLeaf(t, points[..|points| - 1], x) + (if Route(t, points[|points| - 1]) == Route(t, x) then 1 else 0)
  }

  /** A count as a multiple of the uniform background: count * 2^depth / size. */
  function Share(count: nat, depth: nat, size: nat): real
    requires size > 0
  {
    Ratio(Scaled(count, depth), size as real)
  }

  function Scaled(count: nat, depth: nat): real {
    count as real * Pow2(depth) as real
  }

  function Ratio(x: real, y: real): real
    requires y > 0.0
  {
    x / y
  }

  function ShareSum(trees: seq<Shape>, depth: nat, size: nat, ref: seq<Point>, x: Point): real
    requires size > 0
  {
    if trees == [] then 0.0
    else
      var last := trees[|trees| - 1];
      ShareSum(trees[..|trees| - 1], depth, size, ref, x) + Share(SameLeaf(last, ref, x), depth, size)
  }

  /** Mean over the trees. */
  function Density(trees: seq<Shape>, depth: nat, size: nat, ref: seq<Point>, x: Point): real
    requires size > 0 && trees != []
  {
    ShareSum(trees, depth, size, ref, x) / |trees| as real
  }

  function Score(ready: bool, density: real): real {
    if ready && 1.0 + density != 0.0 then Clamp01(1.0 / (1.0 + density)) else 0.0
  }

  /** The reference mass of the leaf a point reaches is the number of window points that fall there. */
  lemma {:induction false} LeafMassIsSameLeaf(t: Shape, depth: nat, d: nat, points: seq<Point>, x: Point)
    requires Perfect(t, depth, d)
    ensures Through(t, points, Route(t, x)) == SameLeaf(t, points, x)
  {
    if points != [] {
      LeafMassIsSameLeaf(t, depth, d, points[..|points| - 1], x);
      RouteLength(t, depth, d, x);
      RouteLength(t, depth, d, points[|points| - 1]);
    }
  }

  // ----- Windows over a whole history -----

  /** The windows after observing `xs`, from a reset. */
  function WindowsOf(size: nat, xs: seq<Point>): Windows {
    if xs == [] then NO_WINDOWS else Observed(size, WindowsOf(size, xs[..|xs| - 1]), xs[|xs| - 1])
  }

  /** Length of k blocks. */
  function Blocks(k: nat, size: nat): nat {
    if k == 0 then 0 else Blocks(k - 1, size) + size
  }

  /** `w` holds the last of `k` completed blocks of `xs`, and what came after it. */
  ghost predicate SplitInBlocks(size: nat, xs: seq<Point>, w: Windows, k: nat) {
    && Blocks(k, size) <= |xs| < Blocks(k, size) + size
    && w.cur == xs[Blocks(k, size)..]
    && (if k == 0 then w.ref == []
        else Blocks(k, size) == Blocks(k - 1, size) + size && w.ref == xs[Blocks(k - 1, size)..Blocks(k, size)])
  }

  lemma NextBlock(size: nat, xs: seq<Point>, w: Windows, k: nat, x: Point) returns (k': nat)
    requires size > 0 && SplitInBlocks(size, xs, w, k)
    ensures SplitInBlocks(size, xs + [x], Observed(size, w, x), k')
  {
    var from := Blocks(k, size);
    assert (xs + [x])[from..] == xs[from..] + [x];
    if |xs| + 1 == from + size {
      k' := k + 1;
      assert (xs + [x])[from..Blocks(k', size)] == (xs + [x])[from..];
    } else {
      k' := k;
      if k > 0 {
        assert (xs + [x])[Blocks(k - 1, size)..from] == xs[Blocks(k - 1, size)..from];
      }
    }
  }

  /**
    After any number of observations, some number k of whole blocks of `size` is
    complete: the reference window is exactly the last of them and the latest
    window is what came after. The detector is ready exactly when there is one.
   */
  lemma {:induction false} WindowsAreBlocks(size: nat, xs: seq<Point>) returns (k: nat)
    requires size > 0
    ensures SplitInBlocks(size, xs, WindowsOf(size, xs), k)
    ensures Ready(WindowsOf(size, xs)) <==> |xs| >= size
  {
    hide Observed;
    if xs == [] {
      k := 0;
    } else {
      var front, x := xs[..|xs| - 1], xs[|xs| - 1];
      var k' := WindowsAreBlocks(size, front);
      k := NextBlock(size, front, WindowsOf(size, front), k', x);
      assert xs == front + [x];
    }
    BlocksGrow(k, size);
  }

  lemma {:induction false} BlocksGrow(k: nat, size: nat)
    ensures k > 0 ==> Blocks(k, size) >= size
  {
    if k > 1 {
      BlocksGrow(k - 1, size);
    }
  }

  // ----- Conservation of density -----

  lemma RatioAdds(x: real, y: real, n: real)
    requires n > 0.0
    ensures Ratio(x + y, n) == Ratio(x, n) + Ratio(y, n)
  {
  }

  lemma ScaledAdds(a: nat, b: nat, depth: nat)
    ensures Scaled(a + b, depth) == Scaled(a, depth) + Scaled(b, depth)
  {
    assert (a + b) as real == a as real + b as real;
  }

  lemma RatioIs(x: real, n: real, p: real)
    requires n > 0.0 && x == n * p
    ensures Ratio(x, n) == p
  {
  }

  lemma ShareAdds(a: nat, b: nat, depth: nat, size: nat)
    requires size > 0
    ensures Share(a + b, depth, size) == Share(a, depth, size) + Share(b, depth, size)
  {
    ScaledAdds(a, b, depth);
    hide Scaled, Ratio;
    RatioAdds(Scaled(a, depth), Scaled(b, depth), size as real);
  }

  lemma ShareOfAll(depth: nat, size: nat)
    requires size > 0
    ensures Share(size, depth, size) == Pow2(depth) as real
  {
    assert Scaled(size, depth) == size as real * Pow2(depth) as real;
    hide Scaled, Ratio;
    RatioIs(Scaled(size, depth), size as real, Pow2(depth) as real);
  }

  lemma ShareRange(count: nat, depth: nat, size: nat)
    requires size > 0 && count <= size
    ensures 0.0 <= Share(count, depth, size) <= Pow2(depth) as real
  {
    ShareAdds(count, size - count, depth, size);
    ShareOfAll(depth, size);
    ShareNonNegative(count, depth, size);
    ShareNonNegative(size - count, depth, size);
  }

  lemma ShareNonNegative(count: nat, depth: nat, size: nat)
    requires size > 0
    ensures Share(count, depth, size) >= 0.0
  {
    assert count as real * Pow2(depth) as real >= 0.0;
  }

  /** Sum of the densities of the leaves below `path`. */
  function LeafDensities(t: Shape, depth: nat, size: nat, ref: seq<Point>, path: Path, levels: nat): real
    requires size > 0
    decreases levels
  {
    if levels == 0 then Share(Through(t, ref, path), depth, size)
    else
      LeafDensities(t, depth, size, ref, path + [false], levels - 1)
      + LeafDensities(t, depth, size, ref, path + [true], levels - 1)
  }

  lemma {:induction false} LeafDensitiesAdd(
      t: Shape, depth: nat, d: nat, size: nat, ref: seq<Point>, path: Path, levels: nat)
    requires size > 0 && Perfect(t, depth, d) && |path| + levels == depth
    ensures LeafDensities(t, depth, size, ref, path, levels) == Share(Through(t, ref, path), depth, size)
    decreases levels
  {
    if levels > 0 {
      hide Share;
      LeafDensitiesAdd(t, depth, d, size, ref, path + [false], levels - 1);
      LeafDensitiesAdd(t, depth, d, size, ref, path + [true], levels - 1);
      MassSplits(t, depth, d, ref, path);
      ShareAdds(Through(t, ref, path + [false]), Through(t, ref, path + [true]), depth, size);
    }
  }

  /** Once ready, the densities of a tree's 2^depth leaves add up to 2^depth: their mean is exactly 1. */
  lemma MeanDensityIsOne(t: Shape, depth: nat, d: nat, size: nat, ref: seq<Point>)
    requires size > 0 && Perfect(t, depth, d) && |ref| == size
    ensures LeafDensities(t, depth, size, ref, [], depth) == Pow2(depth) as real
    ensures LeafCount(t) == Pow2(depth)
  {
    hide Share;
    LeafDensitiesAdd(t, depth, d, size, ref, [], depth);
    RootMass(t, ref);
    ShareOfAll(depth, size);
    PerfectLeafCount(t, depth, d);
  }

  lemma {:induction false} SameLeafBound(t: Shape, points: seq<Point>, x: Point)
    ensures SameLeaf(t, points, x) <= |points|
  {
    if points != [] {
      SameLeafBound(t, points[..|points| - 1], x);
    }
  }

  lemma {:induction false} ShareSumRange(trees: seq<Shape>, depth: nat, size: nat, ref: seq<Point>, x: Point)
    requires size > 0 && |ref| <= size
    ensures 0.0 <= ShareSum(trees, depth, size, ref, x) <= |trees| as real * Pow2(depth) as real
  {
    if trees != [] {
      hide Share;
      var last, p := trees[|trees| - 1], Pow2(depth) as real;
      ShareSumRange(trees[..|trees| - 1], depth, size, ref, x);
      SameLeafBound(last, ref, x);
      ShareRange(SameLeaf(last, ref, x), depth, size);
      assert |trees| as real * p == (|trees| - 1) as real * p + p;
    }
  }

  /** A density never exceeds 2^depth, so a ready detector's score is at least 1/(1+2^depth) and at most 1. */
  lemma DensityAndScoreRange(trees: seq<Shape>, depth: nat, size: nat, ref: seq<Point>, x: Point)
    requires size > 0 && |ref| <= size && trees != []
    ensures 0.0 <= Density(trees, depth, size, ref, x) <= Pow2(depth) as real
    ensures 1.0 / (1.0 + Pow2(depth) as real) <= Score(true, Density(trees, depth, size, ref, x)) <= 1.0
  {
    ShareSumRange(trees, depth, size, ref, x);
    MeanRange(ShareSum(trees, depth, size, ref, x), |trees| as real, Pow2(depth) as real);
    ReciprocalRange(Density(trees, depth, size, ref, x), Pow2(depth) as real);
  }

  lemma MeanRange(sum: real, n: real, top: real)
    requires n > 0.0 && 0.0 <= sum <= n * top
    ensures 0.0 <= sum / n <= top
  {
  }

  lemma ReciprocalMono(a: real, b: real)
    requires 0.0 < a <= b
    ensures 0.0 < 1.0 / b <= 1.0 / a
  {
    var x, y := 1.0 / a, 1.0 / b;
    assert x * a == 1.0 && y * b == 1.0;
    assert x > 0.0 && y > 0.0;
    assert y * (b - a) >= 0.0;
    assert (x - y) * a >= 0.0;
  }

  lemma ReciprocalRange(density: real, top: real)
    requires 0.0 <= density <= top
    ensures 1.0 / (1.0 + top) <= 1.0 / (1.0 + density) <= 1.0
  {
    ReciprocalMono(1.0 + density, 1.0 + top);
    ReciprocalMono(1.0, 1.0 + density);
  }

  // ----- The score counts the company a point has -----

  /** The window points in the leaves of `x`, summed over the forest. */
  function Company(trees: seq<Shape>, ref: seq<Point>, x: Point): nat {
    if trees == [] then 0
    else Company(trees[..|trees| - 1], ref, x) + SameLeaf(trees[|trees| - 1], ref, x)
  }

  lemma {:induction false} SharesOfCompany(trees: seq<Shape>, depth: nat, size: nat, ref: seq<Point>, x: Point)
    requires size > 0
    ensures ShareSum(trees, depth, size, ref, x) == Share(Company(trees, ref, x), depth, size)
  {
    if trees != [] {
      hide Share, SameLeaf;
      var front, last := trees[..|trees| - 1], trees[|trees| - 1];
      SharesOfCompany(front, depth, size, ref, x);
      ShareAdds(Company(front, ref, x), SameLeaf(last, ref, x), depth, size);
    } else {
      assert Scaled(0, depth) == 0.0;
    }
  }

  /** The density of a point in terms of its company: density * trees * size == company * 2^depth. */
  lemma DensityIsCompany(trees: seq<Shape>, depth: nat, size: nat, ref: seq<Point>, x: Point)
    requires size > 0 && trees != []
    ensures Density(trees, depth, size, ref, x) * (|trees| as real * size as real)
            == Company(trees, ref, x) as real * Pow2(depth) as real
    ensures Density(trees, depth, size, ref, x) >= 0.0
  {
    hide *;
    SharesOfCompany(trees, depth, size, ref, x);
    ShareNonNegative(Company(trees, ref, x), depth, size);
    ShareTimes(Company(trees, ref, x), depth, size);
    MeanIs(trees, depth, size, ref, x);
    MeanTimes(Density(trees, depth, size, ref, x), ShareSum(trees, depth, size, ref, x), |trees| as real, size as real);
  }

  lemma ShareTimes(count: nat, depth: nat, size: nat)
    requires size > 0
    ensures Share(count, depth, size) * size as real == count as real * Pow2(depth) as real
  {
    hide Pow2;
    TimesBack(count as real * Pow2(depth) as real, size as real);
  }

  lemma TimesBack(x: real, n: real)
    requires n > 0.0
    ensures Ratio(x, n) * n == x
  {
  }

  lemma MeanIs(trees: seq<Shape>, depth: nat, size: nat, ref: seq<Point>, x: Point)
    requires size > 0 && trees != []
    ensures Density(trees, depth, size, ref, x) == ShareSum(trees, depth, size, ref, x) / |trees| as real
  {
  }

  lemma MeanTimes(mean: real, sum: real, k: real, n: real)
    requires k > 0.0 && n > 0.0 && mean == sum / k && sum >= 0.0
    ensures mean * (k * n) == sum * n && mean >= 0.0
  {
    assert mean * k == sum;
    assert mean * (k * n) == (mean * k) * n;
  }

  lemma ReadyScore(density: real)
    requires density >= 0.0
    ensures Score(true, density) * (1.0 + density) == 1.0
    ensures Score(true, density) == 1.0 <==> density == 0.0
  {
    ReciprocalRange(density, density);
    assert 1.0 / (1.0 + density) * (1.0 + density) == 1.0;
  }

  lemma FewerScoresHigher(d1: real, d2: real)
    requires 0.0 <= d1 < d2
    ensures Score(true, d1) > Score(true, d2)
  {
    hide Score;
    ReadyScore(d1);
    ReadyScore(d2);
    LargerFactor(Score(true, d1), 1.0 + d1, Score(true, d2), 1.0 + d2);
  }

  lemma LargerFactor(s1: real, x1: real, s2: real, x2: real)
    requires s1 * x1 == 1.0 && s2 * x2 == 1.0 && 0.0 < x1 < x2
    ensures s1 > s2
  {
    assert s2 > 0.0;
    assert (s1 - s2) * x1 == s2 * (x2 - x1);
    assert s2 * (x2 - x1) > 0.0;
  }

  /**
    What the score says, on brute-force counts. An unready detector scores 0. A
    ready one scores 1/(1 + density): exactly 1 when no window point shares a leaf
    with `x` in any tree, and strictly higher for a point with less company than
    another against the same window.
   */
  lemma ScoreRanksByCompany(trees: seq<Shape>, depth: nat, size: nat, ref: seq<Point>, x: Point, y: Point)
    requires size > 0 && trees != []
    ensures var density := Density(trees, depth, size, ref, x);
            var score := Score(true, density);
            && score * (1.0 + density) == 1.0
            && (score == 1.0 <==> Company(trees, ref, x) == 0)
            && (score > Score(true, Density(trees, depth, size, ref, y))
               <==> Company(trees, ref, x) < Company(trees, ref, y))
            && Score(false, density) == 0.0
  {
    hide Density, Score, Company, Pow2;
    DensityIsCompany(trees, depth, size, ref, x);
    DensityIsCompany(trees, depth, size, ref, y);
    var dx, dy := Density(trees, depth, size, ref, x), Density(trees, depth, size, ref, y);
    var cx, cy := Company(trees, ref, x) as real, Company(trees, ref, y) as real;
    Pow2Positive(depth);
    Proportional(dx, cx, dy, cy, |trees| as real, size as real, Pow2(depth) as real);
    Proportional(0.0, 0.0, dx, cx, |trees| as real, size as real, Pow2(depth) as real);
    ReadyScore(dx);
    if dx < dy {
      FewerScoresHigher(dx, dy);
    } else if dy < dx {
      FewerScoresHigher(dy, dx);
    }
    Unready(dx);
  }

  lemma {:induction false} Pow2Positive(n: nat)
    ensures Pow2(n) > 0
  {
    if n > 0 {
      Pow2Positive(n - 1);
    }
  }

  lemma Unready(density: real)
    ensures Score(false, density) == 0.0
  {
  }

  lemma Proportional(d1: real, c1: real, d2: real, c2: real, k: real, n: real, p: real)
    requires k > 0.0 && n > 0.0 && p > 0.0 && d1 * (k * n) == c1 * p && d2 * (k * n) == c2 * p
    ensures d1 < d2 <==> c1 < c2
    ensures d1 == d2 <==> c1 == c2
  {
    var m := k * n;
    assert m > 0.0;
    assert (d2 - d1) * m == (c2 - c1) * p;
    if d1 < d2 {
      assert (d2 - d1) * m > 0.0;
    } else if d2 < d1 {
      assert (d1 - d2) * m > 0.0;
      assert (c1 - c2) * p > 0.0;
    }
  }
}
