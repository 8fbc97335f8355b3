/**
  Median, MAD and the robust z-score of internal/domain/detect/robustz.go.
 */
module RobustZ {
  import opened Common

  ghost predicate Ascending(s: seq<real>) {
    forall i, j :: 0 <= i < j < |s| ==> s[i] <= s[j]
  }

  function Insert(x: real, s: seq<real>): seq<real> {
    if s == [] || x <= s[0] then [x] + s else [s[0]] + Insert(x, s[1..])
  }

  /** The samples in ascending order: what the library sort leaves in the buffer. */
  function Sorted(xs: seq<real>): (s: seq<real>)
    ensures |s| == |xs|
  {
    if xs == [] then []
    else
      InsertLength(xs[|xs| - 1], Sorted(xs[..|xs| - 1]));
      Insert(xs[|xs| - 1], Sorted(xs[..|xs| - 1]))
  }

  lemma InsertLength(x: real, s: seq<real>)
    ensures |Insert(x, s)| == |s| + 1
  {
  }

  lemma {:induction false} InsertKeepsOrder(x: real, s: seq<real>)
    requires Ascending(s)
    ensures Ascending(Insert(x, s))
    ensures Insert(x, s)[0] == if s == [] || x <= s[0] then x else s[0]
  {
    if s != [] && x > s[0] {
      InsertKeepsOrder(x, s[1..]);
      var rest := Insert(x, s[1..]);
      assert s[0] <= rest[0];
      assert forall j :: 0 <= j < |rest| ==> rest[0] <= rest[j];
    }
  }

  lemma {:induction false} InsertKeepsElements(x: real, s: seq<real>)
    ensures multiset(Insert(x, s)) == multiset(s) + multiset{x}
  {
    if s != [] && x > s[0] {
      InsertKeepsElements(x, s[1..]);
      assert s == [s[0]] + s[1..];
    }
  }

  lemma {:induction false} SortedIsSort(xs: seq<real>)
    ensures Ascending(Sorted(xs)) && multiset(Sorted(xs)) == multiset(xs)
  {
    if xs != [] {
      var front, x := xs[..|xs| - 1], xs[|xs| - 1];
      SortedIsSort(front);
      InsertKeepsOrder(x, Sorted(front));
      InsertKeepsElements(x, Sorted(front));
      assert xs == front + [x];
    }
  }

  lemma LeastComesFirst(s: seq<real>, t: seq<real>)
    requires Ascending(s) && Ascending(t) && multiset(s) == multiset(t) && s != []
    ensures t != [] && s[0] <= t[0]
  {
    assert s[0] in multiset(t);
    assert t[0] in multiset(s);
  }

  /** An ascending sequence is determined by its elements. */
  lemma {:induction false} AscendingIsUnique(s: seq<real>, t: seq<real>)
    requires Ascending(s) && Ascending(t) && multiset(s) == multiset(t)
    ensures s == t
  {
    if s == [] {
      assert |multiset(t)| == 0;
    } else {
      LeastComesFirst(s, t);
      LeastComesFirst(t, s);
      assert s == [s[0]] + s[1..] && t == [t[0]] + t[1..];
      assert multiset(s[1..]) == multiset(s) - multiset{s[0]};
      assert multiset(t[1..]) == multiset(t) - multiset{t[0]};
      AscendingIsUnique(s[1..], t[1..]);
    }
  }

  /** Median of an ascending sequence. */
  function Middle(s: seq<real>): real
    requires s != []
  {
    var n := |s|;
    if n % 2 == 1 then s[n / 2] else (s[n / 2 - 1] + s[n / 2]) / 2.0
  }

  function Median(xs: seq<real>): real
    requires xs != []
  {
    Middle(Sorted(xs))
  }

  function Deviations(xs: seq<real>, m: real): (d: seq<real>)
    ensures |d| == |xs|
  {
    seq(|xs|, i requires 0 <= i < |xs| => Abs(xs[i] - m))
  }

  /** Median and median absolute deviation; (0, 0) for no samples. */
  function MedianMad(xs: seq<real>): (real, real) {
    if xs == [] then (0.0, 0.0)
    else
      var m := Median(xs);
      (m, Median(Deviations(Sorted(xs), m)))
  }

  /** Both statistics depend only on which samples there are, not on their order. */
  lemma OrderIrrelevant(xs: seq<real>, ys: seq<real>)
    requires multiset(xs) == multiset(ys)
    ensures MedianMad(xs) == MedianMad(ys)
  {
    SortedIsSort(xs);
    SortedIsSort(ys);
    AscendingIsUnique(Sorted(xs), Sorted(ys));
    assert |multiset(xs)| == |multiset(ys)|;
  }

  // ----- Half of the samples may be arbitrary -----

  /** Number of samples in [a, b]. */
  function Inside(xs: seq<real>, a: real, b: real): nat {
    if xs == [] then 0
    else Inside(xs[..|xs| - 1], a, b) + (if a <= xs[|xs| - 1] <= b then 1 else 0)
  }

  lemma {:induction false} InsideConcat(xs: seq<real>, ys: seq<real>, a: real, b: real)
    ensures Inside(xs + ys, a, b) == Inside(xs, a, b) + Inside(ys, a, b)
  {
    if ys == [] {
      assert xs + ys == xs;
    } else {
      InsideConcat(xs, ys[..|ys| - 1], a, b);
      assert (xs + ys)[..|xs + ys| - 1] == xs + ys[..|ys| - 1];
    }
  }

  lemma {:induction false} InsideRange(xs: seq<real>, a: real, b: real)
    ensures Inside(xs, a, b) <= |xs|
    ensures (forall i :: 0 <= i < |xs| ==> xs[i] < a || xs[i] > b) ==> Inside(xs, a, b) == 0
  {
    if xs != [] {
      InsideRange(xs[..|xs| - 1], a, b);
    }
  }

  lemma {:induction false} InsideInsert(x: real, s: seq<real>, a: real, b: real)
    ensures Inside(Insert(x, s), a, b) == Inside(s, a, b) + Inside([x], a, b)
  {
    if s == [] || x <= s[0] {
      InsideConcat([x], s, a, b);
    } else {
      InsideInsert(x, s[1..], a, b);
      InsideConcat([s[0]], Insert(x, s[1..]), a, b);
      InsideConcat([s[0]], s[1..], a, b);
      assert s == [s[0]] + s[1..];
    }
  }

  lemma {:induction false} InsideSorted(xs: seq<real>, a: real, b: real)
    ensures Inside(Sorted(xs), a, b) == Inside(xs, a, b)
  {
    if xs != [] {
      var front, x := xs[..|xs| - 1], xs[|xs| - 1];
      InsideSorted(front, a, b);
      InsideInsert(x, Sorted(front), a, b);
      InsideConcat(front, [x], a, b);
      assert xs == front + [x];
    }
  }

  lemma InsideSuffix(s: seq<real>, a: real, b: real, k: nat)
    requires k <= |s| && forall i :: 0 <= i < k ==> s[i] < a
    ensures Inside(s, a, b) <= |s| - k
  {
    assert s == s[..k] + s[k..];
    InsideConcat(s[..k], s[k..], a, b);
    InsideRange(s[..k], a, b);
    InsideRange(s[k..], a, b);
  }

  lemma InsidePrefix(s: seq<real>, a: real, b: real, k: nat)
    requires k <= |s| && forall i :: k <= i < |s| ==> s[i] > b
    ensures Inside(s, a, b) <= k
  {
    assert s == s[..k] + s[k..];
    InsideConcat(s[..k], s[k..], a, b);
    InsideRange(s[..k], a, b);
    InsideRange(s[k..], a, b);
  }

  /** A middle element of an ascending sequence cannot lie outside an interval that holds a majority. */
  lemma MajorityAt(s: seq<real>, a: real, b: real, k: nat)
    requires Ascending(s) && 2 * Inside(s, a, b) > |s|
    requires k < |s| && 2 * k <= |s| <= 2 * k + 2
    ensures a <= s[k] <= b
  {
    hide Inside;
    if s[k] < a {
      InsideSuffix(s, a, b, k + 1);
    }
    if s[k] > b {
      InsidePrefix(s, a, b, k);
    }
  }

  lemma MiddleInMajority(s: seq<real>, a: real, b: real)
    requires s != [] && Ascending(s) && 2 * Inside(s, a, b) > |s|
    ensures a <= Middle(s) <= b
  {
    hide Inside;
    MajorityAt(s, a, b, |s| / 2);
    if |s| % 2 == 0 {
      MajorityAt(s, a, b, |s| / 2 - 1);
    }
  }

  lemma MedianInMajority(xs: seq<real>, a: real, b: real)
    requires 2 * Inside(xs, a, b) > |xs|
    ensures xs != [] && a <= Median(xs) <= b
  {
    InsideRange(xs, a, b);
    hide Inside, Sorted, Middle;
    SortedIsSort(xs);
    InsideSorted(xs, a, b);
    MiddleInMajority(Sorted(xs), a, b);
  }

  lemma {:induction false} DeviationsInside(xs: seq<real>, m: real, a: real, b: real)
    requires a <= m <= b
    ensures Inside(Deviations(xs, m), 0.0, b - a) >= Inside(xs, a, b)
  {
    if xs != [] {
      DeviationsInside(xs[..|xs| - 1], m, a, b);
      assert Deviations(xs, m)[..|xs| - 1] == Deviations(xs[..|xs| - 1], m);
    }
  }

  /**
    Breakdown: when strictly more than half of the samples lie in [a, b], the
    median does too and the MAD is at most b - a, whatever the others are.
   */
  lemma Robust(xs: seq<real>, a: real, b: real)
    requires 2 * Inside(xs, a, b) > |xs|
    ensures var (m, mad) := MedianMad(xs); a <= m <= b && 0.0 <= mad <= b - a
  {
    MedianInMajority(xs, a, b);
    var m := Median(xs);
    DeviationsInside(Sorted(xs), m, a, b);
    InsideSorted(xs, a, b);
    MedianInMajority(Deviations(Sorted(xs), m), 0.0, b - a);
  }

  // ----- The median is the middle -----

  lemma {:induction false} AllInside(xs: seq<real>, a: real, b: real)
    requires forall i :: 0 <= i < |xs| ==> a <= xs[i] <= b
    ensures Inside(xs, a, b) == |xs|
  {
    if xs != [] {
      AllInside(xs[..|xs| - 1], a, b);
    }
  }

  lemma SortedKeepsRange(xs: seq<real>, lo: real, hi: real)
    requires forall i :: 0 <= i < |xs| ==> lo <= xs[i] <= hi
    ensures forall i :: 0 <= i < |xs| ==> lo <= Sorted(xs)[i] <= hi
  {
    SortedIsSort(xs);
    forall i | 0 <= i < |xs|
      ensures lo <= Sorted(xs)[i] <= hi
    {
      assert Sorted(xs)[i] in multiset(xs);
    }
  }

  /** Counting from either end, position `k` of an ascending sequence has k others before it and the rest after. */
  lemma CountsAt(s: seq<real>, lo: real, hi: real, k: nat)
    requires Ascending(s) && k < |s| && forall i :: 0 <= i < |s| ==> lo <= s[i] <= hi
    ensures Inside(s, lo, s[k]) >= k + 1
    ensures Inside(s, s[k], hi) >= |s| - k
  {
    assert s == s[..k + 1] + s[k + 1..] && s == s[..k] + s[k..];
    InsideConcat(s[..k + 1], s[k + 1..], lo, s[k]);
    AllInside(s[..k + 1], lo, s[k]);
    InsideConcat(s[..k], s[k..], s[k], hi);
    AllInside(s[k..], s[k], hi);
  }

  /**
    The median, by counting alone: the mean of two samples `a` and `b`, the lower
    and the upper median. At least half of the samples are up to `a` and more than
    half from `a` on; more than half are up to `b` and at least half from `b` on.
    For an odd number they are one sample.
   */
  lemma MedianIsMiddle(xs: seq<real>, lo: real, hi: real) returns (a: real, b: real)
    requires xs != [] && forall i :: 0 <= i < |xs| ==> lo <= xs[i] <= hi
    ensures a in xs && b in xs && a <= b && Median(xs) == (a + b) / 2.0
    ensures 2 * Inside(xs, lo, a) >= |xs| && 2 * Inside(xs, a, hi) > |xs|
    ensures 2 * Inside(xs, lo, b) > |xs| && 2 * Inside(xs, b, hi) >= |xs|
    ensures |xs| % 2 == 1 ==> a == b
  {
    var s, n := Sorted(xs), |xs|;
    a, b := s[(n - 1) / 2], s[n / 2];
    hide Inside, Sorted;
    SortedIsSort(xs);
    PositionCounts(xs, lo, hi, (n - 1) / 2);
    PositionCounts(xs, lo, hi, n / 2);
  }

  /** The k-th smallest sample has k others up to it and the rest from it on. */
  lemma PositionCounts(xs: seq<real>, lo: real, hi: real, k: nat)
    requires k < |xs| && forall i :: 0 <= i < |xs| ==> lo <= xs[i] <= hi
    ensures var x := Sorted(xs)[k]; x in xs && Inside(xs, lo, x) >= k + 1 && Inside(xs, x, hi) >= |xs| - k
  {
    var s := Sorted(xs);
    SortedIsSort(xs);
    SortedKeepsRange(xs, lo, hi);
    assert s[k] in multiset(xs);
    hide Inside, Sorted;
    CountsAt(s, lo, hi, k);
    InsideSorted(xs, lo, s[k]);
    InsideSorted(xs, s[k], hi);
  }

  /**
    The MAD likewise: the middle of the distances from the median, so at least half
    of the samples are at most that far from it and at least half at least that far.
   */
  lemma MadIsMiddle(xs: seq<real>, hi: real) returns (a: real, b: real)
    requires xs != [] && forall i :: 0 <= i < |xs| ==> Abs(xs[i] - Median(xs)) <= hi
    ensures MedianMad(xs) == (Median(xs), (a + b) / 2.0) && a <= b
    ensures var d := Deviations(xs, Median(xs));
            && a in d && b in d
            && 2 * Inside(d, 0.0, a) >= |xs| && 2 * Inside(d, a, hi) > |xs|
            && 2 * Inside(d, 0.0, b) > |xs| && 2 * Inside(d, b, hi) >= |xs|
    ensures |xs| % 2 == 1 ==> a == b
  {
    hide Inside, Sorted, Middle, Median;
    var m := Median(xs);
    var d := Deviations(xs, m);
    a, b := MedianIsMiddle(d, 0.0, hi);
    SortedDeviations(xs, m);
    SameMedian(Deviations(Sorted(xs), m), d);
  }

  lemma SameMedian(xs: seq<real>, ys: seq<real>)
    requires xs != [] && multiset(xs) == multiset(ys)
    ensures ys != [] && Median(xs) == Median(ys)
  {
    assert xs[0] in multiset(ys);
    OrderIrrelevant(xs, ys);
    hide Median;
  }

  lemma {:induction false} DeviationsInsert(x: real, s: seq<real>, m: real)
    ensures multiset(Deviations(Insert(x, s), m)) == multiset(Deviations(s, m)) + multiset{Abs(x - m)}
  {
    hide Deviations;
    if s == [] || x <= s[0] {
      DeviationsCons(x, s, m);
    } else {
      DeviationsInsert(x, s[1..], m);
      DeviationsCons(s[0], Insert(x, s[1..]), m);
      DeviationsCons(s[0], s[1..], m);
      assert s == [s[0]] + s[1..];
    }
  }

  lemma DeviationsCons(x: real, s: seq<real>, m: real)
    ensures Deviations([x] + s, m) == [Abs(x - m)] + Deviations(s, m)
  {
  }

  lemma {:induction false} SortedDeviations(xs: seq<real>, m: real)
    ensures multiset(Deviations(Sorted(xs), m)) == multiset(Deviations(xs, m))
  {
    if xs != [] {
      var front, x := xs[..|xs| - 1], xs[|xs| - 1];
      SortedDeviations(front, m);
      DeviationsInsert(x, Sorted(front), m);
      assert Deviations(xs, m) == Deviations(front, m) + [Abs(x - m)];
    }
  }

  // ----- The median minimises the total distance -----

  function Distance(xs: seq<real>, t: real): real {
    if xs == [] then 0.0 else Distance(xs[..|xs| - 1], t) + Abs(xs[|xs| - 1] - t)
  }

  lemma {:induction false} DistanceConcat(xs: seq<real>, ys: seq<real>, t: real)
    ensures Distance(xs + ys, t) == Distance(xs, t) + Distance(ys, t)
  {
    if ys == [] {
      assert xs + ys == xs;
    } else {
      DistanceConcat(xs, ys[..|ys| - 1], t);
      assert (xs + ys)[..|xs + ys| - 1] == xs + ys[..|ys| - 1];
    }
  }

  lemma {:induction false} DistanceInsert(x: real, s: seq<real>, t: real)
    ensures Distance(Insert(x, s), t) == Distance(s, t) + Abs(x - t)
  {
    assert Distance([x], t) == Abs(x - t);
    if s == [] || x <= s[0] {
      DistanceConcat([x], s, t);
    } else {
      DistanceInsert(x, s[1..], t);
      DistanceConcat([s[0]], Insert(x, s[1..]), t);
      DistanceConcat([s[0]], s[1..], t);
      assert s == [s[0]] + s[1..];
    }
  }

  lemma {:induction false} DistanceSorted(xs: seq<real>, t: real)
    ensures Distance(Sorted(xs), t) == Distance(xs, t)
  {
    if xs != [] {
      DistanceSorted(xs[..|xs| - 1], t);
      DistanceInsert(xs[|xs| - 1], Sorted(xs[..|xs| - 1]), t);
    }
  }

  lemma MiddleBetween(s: seq<real>)
    requires s != [] && Ascending(s)
    ensures s[0] <= Middle(s) <= s[|s| - 1]
  {
  }

  lemma EndsPeel(s: seq<real>, t: real)
    requires |s| >= 2
    ensures Distance(s, t) == Abs(s[0] - t) + Distance(s[1..|s| - 1], t) + Abs(s[|s| - 1] - t)
  {
    var mid := s[1..|s| - 1];
    assert s[..|s| - 1] == [s[0]] + mid;
    DistanceConcat([s[0]], mid, t);
    assert Distance([s[0]], t) == Abs(s[0] - t);
  }

  lemma {:induction false} MiddleMinimises(s: seq<real>, t: real)
    requires s != [] && Ascending(s)
    ensures Distance(s, Middle(s)) <= Distance(s, t)
    decreases |s|
  {
    if |s| == 1 {
      assert s[..0] == [];
    } else {
      var mid, m := s[1..|s| - 1], Middle(s);
      EndsPeel(s, t);
      EndsPeel(s, m);
      MiddleBetween(s);
      if mid != [] {
        assert Middle(mid) == m;
        MiddleMinimises(mid, t);
      }
    }
  }

  /** No other centre has a smaller total distance to the samples than the median. */
  lemma MedianMinimises(xs: seq<real>, t: real)
    requires xs != []
    ensures Distance(xs, Median(xs)) <= Distance(xs, t)
  {
    SortedIsSort(xs);
    MiddleMinimises(Sorted(xs), t);
    DistanceSorted(xs, Median(xs));
    DistanceSorted(xs, t);
  }

  // ----- Change of units -----

  function Convert(x: real, scale: real, shift: real): real {
    x * scale + shift
  }

  function ConvertAll(xs: seq<real>, scale: real, shift: real): (ys: seq<real>)
    ensures |ys| == |xs|
  {
    seq(|xs|, i requires 0 <= i < |xs| => Convert(xs[i], scale, shift))
  }

  lemma ConvertOrder(x: real, y: real, scale: real, shift: real)
    requires scale > 0.0
    ensures x <= y <==> Convert(x, scale, shift) <= Convert(y, scale, shift)
  {
    if x <= y {
      assert x * scale <= y * scale;
    } else {
      assert x * scale > y * scale;
    }
  }

  lemma {:induction false} InsertConverts(x: real, s: seq<real>, scale: real, shift: real)
    requires scale > 0.0
    ensures Insert(Convert(x, scale, shift), ConvertAll(s, scale, shift)) == ConvertAll(Insert(x, s), scale, shift)
  {
    var c := ConvertAll(s, scale, shift);
    if s == [] {
      assert ConvertAll(Insert(x, s), scale, shift) == [Convert(x, scale, shift)];
    } else {
      ConvertOrder(x, s[0], scale, shift);
      if x <= s[0] {
        assert ConvertAll([x] + s, scale, shift) == [Convert(x, scale, shift)] + c;
      } else {
        assert c[1..] == ConvertAll(s[1..], scale, shift);
        InsertConverts(x, s[1..], scale, shift);
        assert ConvertAll([s[0]] + Insert(x, s[1..]), scale, shift)
            == [Convert(s[0], scale, shift)] + ConvertAll(Insert(x, s[1..]), scale, shift);
      }
    }
  }

  lemma {:induction false} SortedConverts(xs: seq<real>, scale: real, shift: real)
    requires scale > 0.0
    ensures Sorted(ConvertAll(xs, scale, shift)) == ConvertAll(Sorted(xs), scale, shift)
  {
    var c := ConvertAll(xs, scale, shift);
    if xs != [] {
      assert c[..|xs| - 1] == ConvertAll(xs[..|xs| - 1], scale, shift);
      SortedConverts(xs[..|xs| - 1], scale, shift);
      InsertConverts(xs[|xs| - 1], Sorted(xs[..|xs| - 1]), scale, shift);
    }
  }

  lemma HalfwayConverts(x: real, y: real, scale: real, shift: real)
    ensures (Convert(x, scale, shift) + Convert(y, scale, shift)) / 2.0 == Convert((x + y) / 2.0, scale, shift)
  {
    assert (x + y) / 2.0 * scale == (x * scale + y * scale) / 2.0;
  }

  lemma MedianConverts(xs: seq<real>, scale: real, shift: real)
    requires xs != [] && scale > 0.0
    ensures Median(ConvertAll(xs, scale, shift)) == Convert(Median(xs), scale, shift)
  {
    SortedConverts(xs, scale, shift);
    var s := Sorted(xs);
    if |s| % 2 == 0 {
      HalfwayConverts(s[|s| / 2 - 1], s[|s| / 2], scale, shift);
    }
  }

  lemma AbsScales(x: real, m: real, scale: real, shift: real)
    requires scale > 0.0
    ensures Abs(Convert(x, scale, shift) - Convert(m, scale, shift)) == Convert(Abs(x - m), scale, 0.0)
  {
    ConvertOrder(x, m, scale, shift);
    assert Convert(x, scale, shift) - Convert(m, scale, shift) == (x - m) * scale;
  }

  /** Median and MAD follow a positive change of units: the median is converted, the MAD only scaled. */
  lemma UnitsFollow(xs: seq<real>, scale: real, shift: real)
    requires xs != [] && scale > 0.0
    ensures var (m, mad) := MedianMad(xs);
            MedianMad(ConvertAll(xs, scale, shift)) == (Convert(m, scale, shift), Convert(mad, scale, 0.0))
  {
    hide Convert;
    MedianConverts(xs, scale, shift);
    SortedConverts(xs, scale, shift);
    var s, m := Sorted(xs), Median(xs);
    forall i | 0 <= i < |s|
      ensures Abs(Convert(s[i], scale, shift) - Convert(m, scale, shift)) == Convert(Abs(s[i] - m), scale, 0.0)
    {
      AbsScales(s[i], m, scale, shift);
    }
    assert Deviations(ConvertAll(s, scale, shift), Convert(m, scale, shift))
      == ConvertAll(Deviations(s, m), scale, 0.0);
    MedianConverts(Deviations(s, m), scale, 0.0);
  }

  // ----- The in-place computation -----

  /** Stands for the library's in-place sort. */
  method SortInPlace(a: array<real>)
    modifies a
    ensures a[..] == Sorted(old(a[..]))
  {
    var s := Sorted(a[..]);
    forall i | 0 <= i < a.Length {
      a[i] := s[i];
    }
  }

  /** Sorts the buffer and returns its median. */
  method MedianInPlace(a: array<real>) returns (m: real)
    requires a.Length > 0
    modifies a
    ensures a[..] == Sorted(old(a[..])) && m == Median(old(a[..]))
  {
    SortInPlace(a);
    var n := a.Length;
    if n % 2 == 1 {
      return a[n / 2];
    }
    return (a[n / 2 - 1] + a[n / 2]) / 2.0;
  }

  /** Replaces each sample by its distance from `m`. */
  method DeviateInPlace(a: array<real>, m: real)
    modifies a
    ensures a[..] == Deviations(old(a[..]), m)
  {
    for i := 0 to a.Length
      invariant forall k :: i <= k < a.Length ==> a[k] == old(a[k])
      invariant forall k :: 0 <= k < i ==> a[k] == Abs(old(a[k]) - m)
    {
      a[i] := Abs(a[i] - m);
    }
  }

  /** Median and MAD of `xs`, which is not modified. */
  method ComputeMedianMad(xs: array<real>) returns (med: real, mad: real)
    ensures (med, mad) == MedianMad(xs[..])
  {
    if xs.Length == 0 {
      return 0.0, 0.0;
    }
    var tmp := new real[xs.Length];
    for i := 0 to xs.Length
      invariant tmp[..i] == xs[..i]
    {
      tmp[i] := xs[i];
    }
    assert tmp[..] == xs[..];
    med := MedianInPlace(tmp);
    DeviateInPlace(tmp, med);
    mad := MedianInPlace(tmp);
  }

  // ----- Baselines and the z-score -----

  datatype Baseline = Baseline(median: real, mad: real)

  datatype ZParams = ZParams(minMadRel: real, minMadAbs: real)

  const MAD_SCALE := 1.4826

  /** The scale a deviation is measured in: the MAD, floored. */
  function Spread(p: ZParams, b: Baseline): real {
    Max(b.mad, Max(p.minMadAbs, p.minMadRel * Abs(b.median)))
  }

  /** The robust z-score of `v` against a baseline. */
  function Z(p: ZParams, v: real, b: Baseline): real {
    var spread := Spread(p, b);
    if spread <= 0.0 then 0.0 else (v - b.median) / (MAD_SCALE * spread)
  }

  /**
    What a z-score says: how many spreads (scaled to a standard deviation) a value
    lies above the median. The spread is the least number that is at least the MAD
    and both floors, and the score is 0 when that is not positive.
   */
  lemma ZCountsSpreads(p: ZParams, v: real, b: Baseline, k: real)
    ensures b.mad <= Spread(p, b) && p.minMadAbs <= Spread(p, b) && p.minMadRel * Abs(b.median) <= Spread(p, b)
    ensures Spread(p, b) == b.mad || Spread(p, b) == p.minMadAbs || Spread(p, b) == p.minMadRel * Abs(b.median)
    ensures Spread(p, b) > 0.0 ==> v == b.median + Z(p, v, b) * (1.4826 * Spread(p, b))
    ensures Spread(p, b) > 0.0 ==> Z(p, b.median + k * (1.4826 * Spread(p, b)), b) == k
    ensures Spread(p, b) <= 0.0 ==> Z(p, v, b) == 0.0
  {
    if Spread(p, b) > 0.0 {
      var unit := MAD_SCALE * Spread(p, b);
      hide Spread;
      Quotient(v - b.median, unit);
      assert (b.median + k * unit - b.median) == k * unit;
      QuotientBack(k, unit);
    }
  }

  lemma Quotient(x: real, d: real)
    requires d > 0.0
    ensures x / d * d == x
  {
  }

  lemma QuotientBack(k: real, d: real)
    requires d > 0.0
    ensures k * d / d == k
  {
  }
}
