/**
  The two-sided tabular CUSUM of internal/domain/detect/cusum.go, and the best
  suffix sum it detects.
 */
module Cusum {
  import opened Common

  datatype Direction = Both | Up | Down

  datatype CusumParams = CusumParams(k: real, h: real, direction: Direction) {
    function WithDefaults(): CusumParams {
      CusumParams(if k <= 0.0 then 0.5 else k, if h <= 0.0 then 5.0 else h, direction)
    }

    predicate Usable() {
      k > 0.0 && h > 0.0
    }
  }

  /** Allowance and threshold that make sense are kept, the others replaced by 0.5 and 5. */
  lemma CusumDefaults(p: CusumParams)
    ensures var q := p.WithDefaults();
            && q.Usable() && q.direction == p.direction
            && q.k == (if p.k > 0.0 then p.k else 0.5) && q.h == (if p.h > 0.0 then p.h else 5.0)
  {
  }

  datatype CusumState = CusumState(gPos: real, gNeg: real)

  datatype CusumResult = CusumResult(score: real, gPos: real, gNeg: real, alarm: bool)

  const RESET := CusumState(0.0, 0.0)

  /** One side: accumulate, floor at 0, cap at 2H. */
  function Advance(k: real, h: real, g: real, z: real): real {
    Min(Max(0.0, g + z - k), 2.0 * h)
  }

  /** The statistic the direction selects. */
  function Selected(d: Direction, s: CusumState): real {
    match d
    case Up => s.gPos
    case Down => s.gNeg
    case Both => Max(s.gPos, s.gNeg)
  }

  function Update(p: CusumParams, s: CusumState, z: real): (CusumState, CusumResult)
    requires p.Usable()
  {
    var s' := CusumState(Advance(p.k, p.h, s.gPos, z), Advance(p.k, p.h, s.gNeg, -z));
    var g := Selected(p.direction, s');
    (s', CusumResult(Clamp01(g / p.h), s'.gPos, s'.gNeg, g >= p.h))
  }

  /** One side over a whole history. */
  function Side(k: real, h: real, g0: real, zs: seq<real>): real {
    if zs == [] then g0 else Advance(k, h, Side(k, h, g0, zs[..|zs| - 1]), zs[|zs| - 1])
  }

  function Negated(zs: seq<real>): (r: seq<real>)
    ensures |r| == |zs|
  {
    seq(|zs|, i requires 0 <= i < |zs| => -zs[i])
  }

  function After(p: CusumParams, s: CusumState, zs: seq<real>): CusumState
    requires p.Usable()
  {
    if zs == [] then s else Update(p, After(p, s, zs[..|zs| - 1]), zs[|zs| - 1]).0
  }

  /** Whether observation number `n` (from 1) of a history started at reset raises the alarm. */
  predicate AlarmAt(p: CusumParams, zs: seq<real>, n: nat)
    requires p.Usable() && 1 <= n <= |zs|
  {
    Update(p, After(p, RESET, zs[..n - 1]), zs[n - 1]).1.alarm
  }

  /** The two sides are one algorithm: the down side of a history is the up side of its negation. */
  lemma {:induction false} SidesMirror(p: CusumParams, s: CusumState, zs: seq<real>)
    requires p.Usable()
    ensures After(p, s, zs) == CusumState(Side(p.k, p.h, s.gPos, zs), Side(p.k, p.h, s.gNeg, Negated(zs)))
  {
    if zs != [] {
      SidesMirror(p, s, zs[..|zs| - 1]);
      assert Negated(zs)[..|zs| - 1] == Negated(zs[..|zs| - 1]);
    }
  }

  // ----- The reference: sums of suffixes -----

  /** Sum of z-k over the observations from `i` on. */
  function SuffixSum(k: real, zs: seq<real>, i: nat): real
    requires i <= |zs|
    decreases |zs|
  {
    if i == |zs| then 0.0 else SuffixSum(k, zs[..|zs| - 1], i) + zs[|zs| - 1] - k
  }

  ghost predicate SomeSuffixReaches(k: real, h: real, zs: seq<real>) {
    exists i: nat :: i <= |zs| && SuffixSum(k, zs, i) >= h
  }

  /** The uncapped statistic. */
  function Best(k: real, zs: seq<real>): real {
    if zs == [] then 0.0 else Max(0.0, Best(k, zs[..|zs| - 1]) + zs[|zs| - 1] - k)
  }

  /** Best is the greatest suffix sum, the empty suffix included. */
  lemma {:induction false} BestIsGreatestSuffix(k: real, zs: seq<real>) returns (at: nat)
    ensures at <= |zs| && Best(k, zs) == SuffixSum(k, zs, at)
    ensures forall i: nat :: i <= |zs| ==> SuffixSum(k, zs, i) <= Best(k, zs)
  {
    if zs == [] {
      at := 0;
    } else {
      var front := zs[..|zs| - 1];
      at := BestIsGreatestSuffix(k, front);
      forall i: nat | i < |zs|
        ensures SuffixSum(k, zs, i) <= Best(k, zs)
      {
        assert SuffixSum(k, front, i) <= Best(k, front);
      }
      if Best(k, front) + zs[|zs| - 1] - k <= 0.0 {
        at := |zs|;
      }
    }
  }

  /** The statistic never leaves [0, 2H] and never exceeds the best suffix sum. */
  lemma {:induction false} SideBounds(k: real, h: real, zs: seq<real>)
    requires h > 0.0
    ensures 0.0 <= Side(k, h, 0.0, zs) <= 2.0 * h
    ensures Side(k, h, 0.0, zs) <= Best(k, zs)
  {
    if zs != [] {
      SideBounds(k, h, zs[..|zs| - 1]);
    }
  }

  /** While no suffix has reached H the cap has not acted: the statistic is the best suffix sum. */
  lemma {:induction false} ExactBeforeAlarm(k: real, h: real, zs: seq<real>)
    requires h > 0.0
    requires forall m: nat :: m < |zs| ==> Best(k, zs[..m]) < h
    ensures Side(k, h, 0.0, zs) == Min(Best(k, zs), 2.0 * h)
  {
    if zs != [] {
      var front := zs[..|zs| - 1];
      forall m: nat | m < |front|
        ensures Best(k, front[..m]) < h
      {
        assert front[..m] == zs[..m];
      }
      ExactBeforeAlarm(k, h, front);
      assert Best(k, zs[..|zs| - 1]) < h;
    }
  }

  /**
    Up to observation `n`: some prefix has driven the statistic to H iff some
    prefix has a suffix sum that reaches H.
   */
  lemma {:induction false} ReachesIff(k: real, h: real, zs: seq<real>, n: nat)
    requires h > 0.0 && n <= |zs|
    ensures (exists m: nat :: m <= n && Side(k, h, 0.0, zs[..m]) >= h)
            <==> (exists m: nat :: m <= n && Best(k, zs[..m]) >= h)
  {
    if n > 0 {
      ReachesIff(k, h, zs, n - 1);
      SideBounds(k, h, zs[..n]);
      if forall m: nat :: m < n ==> Best(k, zs[..m]) < h {
        assert forall m: nat :: m < n ==> zs[..n][..m] == zs[..m];
        ExactBeforeAlarm(k, h, zs[..n]);
      }
    } else {
      assert zs[..0] == [];
    }
  }

  /** Which suffix sums the configured direction watches. */
  ghost predicate Drifted(p: CusumParams, zs: seq<real>) {
    || (!p.direction.Down? && SomeSuffixReaches(p.k, p.h, zs))
    || (!p.direction.Up? && SomeSuffixReaches(p.k, p.h, Negated(zs)))
  }

  lemma ReachesBest(k: real, h: real, zs: seq<real>)
    ensures SomeSuffixReaches(k, h, zs) <==> Best(k, zs) >= h
  {
    var at := BestIsGreatestSuffix(k, zs);
  }

  /**
    From reset, an alarm has been raised by observation `n` exactly when, by
    then, some suffix sum of z-K (of -z-K on the down side) has reached H. The
    first alarm therefore comes at the first such observation, for every
    direction and despite the cap.
   */
  lemma FirstAlarm(p: CusumParams, zs: seq<real>, n: nat)
    requires p.Usable() && n <= |zs|
    ensures (exists m: nat :: 1 <= m <= n && AlarmAt(p, zs, m))
            <==> (exists m: nat :: 1 <= m <= n && Drifted(p, zs[..m]))
  {
    var ns := Negated(zs);
    ReachesIff(p.k, p.h, zs, n);
    ReachesIff(p.k, p.h, ns, n);
    assert zs[..0] == [] && ns[..0] == [];
    hide AlarmAt, Drifted, Negated;
    forall m: nat | 1 <= m <= n
      ensures AlarmAt(p, zs, m) <==>
                || (!p.direction.Down? && Side(p.k, p.h, 0.0, zs[..m]) >= p.h)
                || (!p.direction.Up? && Side(p.k, p.h, 0.0, ns[..m]) >= p.h)
      ensures Drifted(p, zs[..m]) <==>
                || (!p.direction.Down? && Best(p.k, zs[..m]) >= p.h)
                || (!p.direction.Up? && Best(p.k, ns[..m]) >= p.h)
    {
      AlarmIs(p, zs, m);
      DriftedIs(p, zs, m);
    }
  }

  lemma DriftedIs(p: CusumParams, zs: seq<real>, m: nat)
    requires p.Usable() && m <= |zs|
    ensures Drifted(p, zs[..m]) <==>
              || (!p.direction.Down? && Best(p.k, zs[..m]) >= p.h)
              || (!p.direction.Up? && Best(p.k, Negated(zs)[..m]) >= p.h)
  {
    assert Negated(zs[..m]) == Negated(zs)[..m];
    hide SomeSuffixReaches;
    ReachesBest(p.k, p.h, zs[..m]);
    ReachesBest(p.k, p.h, Negated(zs)[..m]);
  }

  lemma AlarmIs(p: CusumParams, zs: seq<real>, m: nat)
    requires p.Usable() && 1 <= m <= |zs|
    ensures AlarmAt(p, zs, m) <==>
              || (!p.direction.Down? && Side(p.k, p.h, 0.0, zs[..m]) >= p.h)
              || (!p.direction.Up? && Side(p.k, p.h, 0.0, Negated(zs)[..m]) >= p.h)
  {
    assert zs[..m][..m - 1] == zs[..m - 1];
    assert Negated(zs[..m]) == Negated(zs)[..m];
    SidesMirror(p, RESET, zs[..m]);
  }

  // ----- The score -----

  /** The largest suffix sum among those the configured direction watches. */
  function WatchedBest(p: CusumParams, zs: seq<real>): real {
    match p.direction
    case Up => Best(p.k, zs)
    case Down => Best(p.k, Negated(zs))
    case Both => Max(Best(p.k, zs), Best(p.k, Negated(zs)))
  }

  /** No suffix that the direction watches has reached H before observation `n`. */
  ghost predicate CalmUntil(p: CusumParams, zs: seq<real>, n: nat)
    requires n <= |zs|
  {
    forall m: nat :: m < n ==> WatchedBest(p, zs[..m]) < p.h
  }

  /**
    The drift score that is fused: it says how much of the way to an alarm the
    statistic has come, so the alarm is exactly the score 1. Until a side first
    reaches H the score times H is the best watched suffix sum, stopped at H; and at
    any time it is at most that.
   */
  lemma ScoreIsBestSuffix(p: CusumParams, zs: seq<real>, n: nat)
    requires p.Usable() && 1 <= n <= |zs|
    ensures var r := Update(p, After(p, RESET, zs[..n - 1]), zs[n - 1]).1;
            && (r.alarm <==> r.score == 1.0)
            && 0.0 <= r.score * p.h <= Min(WatchedBest(p, zs[..n]), p.h)
            && (CalmUntil(p, zs, n) ==> r.score * p.h == Min(WatchedBest(p, zs[..n]), p.h))
  {
    hide *;
    CalmPrefix(p, zs, n);
    WatchedStatistic(p, zs[..n]);
    LastUpdate(p, zs, n);
    ScoreOf(p, After(p, RESET, zs[..n - 1]), zs[n - 1]);
    StoppedAt(Selected(p.direction, After(p, RESET, zs[..n])), WatchedBest(p, zs[..n]), p.h) by {
      UsableH(p);
    }
  }

  lemma UsableH(p: CusumParams)
    requires p.Usable()
    ensures p.h > 0.0
  {
  }

  lemma StoppedAt(g: real, best: real, h: real)
    requires 0.0 <= g <= best && h > 0.0
    ensures 0.0 <= Min(g, h) <= Min(best, h)
    ensures g == Min(best, 2.0 * h) ==> Min(g, h) == Min(best, h)
  {
  }

  lemma LastUpdate(p: CusumParams, zs: seq<real>, n: nat)
    requires p.Usable() && 1 <= n <= |zs|
    ensures After(p, RESET, zs[..n]) == Update(p, After(p, RESET, zs[..n - 1]), zs[n - 1]).0
  {
    hide Update;
    assert zs[..n][..n - 1] == zs[..n - 1];
  }

  lemma NegatedPrefix(zs: seq<real>, m: nat)
    requires m <= |zs|
    ensures Negated(zs[..m]) == Negated(zs)[..m]
  {
  }

  lemma ScoreOf(p: CusumParams, s: CusumState, z: real)
    requires p.Usable()
    ensures var (s', r) := Update(p, s, z);
            var g := Selected(p.direction, s');
            && r.score * p.h == Min(g, p.h) && (r.alarm <==> g >= p.h) && (r.alarm <==> r.score == 1.0)
  {
    ScoreTimesH(Selected(p.direction, Update(p, s, z).0), p.h);
    hide Clamp01;
  }

  lemma CalmPrefix(p: CusumParams, zs: seq<real>, n: nat)
    requires n <= |zs|
    ensures CalmUntil(p, zs, n) == CalmUntil(p, zs[..n], n)
  {
    hide WatchedBest;
    assert forall m: nat :: m < n ==> zs[..n][..m] == zs[..m];
  }

  /** The selected statistic never exceeds the best watched suffix sum, and is it until the cap first acts. */
  lemma WatchedStatistic(p: CusumParams, zs: seq<real>)
    requires p.Usable()
    ensures var g := Selected(p.direction, After(p, RESET, zs));
            && 0.0 <= g <= WatchedBest(p, zs)
            && (CalmUntil(p, zs, |zs|) ==> g == Min(WatchedBest(p, zs), 2.0 * p.h))
  {
    hide Side, Best, Negated, After;
    SidesMirror(p, RESET, zs);
    SideBounds(p.k, p.h, zs);
    SideBounds(p.k, p.h, Negated(zs));
    if CalmUntil(p, zs, |zs|) {
      forall m: nat | m < |zs|
        ensures WatchedBest(p, zs[..m]) < p.h && Negated(zs[..m]) == Negated(zs)[..m]
      {
        NegatedPrefix(zs, m);
      }
      if !p.direction.Down? {
        ExactBeforeAlarm(p.k, p.h, zs);
      }
      if !p.direction.Up? {
        ExactBeforeAlarm(p.k, p.h, Negated(zs));
      }
    }
  }

  lemma ScoreTimesH(g: real, h: real)
    requires h > 0.0 && g >= 0.0
    ensures Clamp01(g / h) * h == Min(g, h)
    ensures Clamp01(g / h) == 1.0 <==> g >= h
  {
    assert g / h * h == g;
    if g >= h {
      assert (g / h - 1.0) * h >= 0.0;
    } else {
      assert (1.0 - g / h) * h > 0.0;
    }
  }

  // ----- A whole history as one clamp -----

  /**
    Whatever the history, its effect on one side is a single clamp: the shifted
    start g0 + sum(z-K), held between what the history makes of 0 and of 2H.
   */
  lemma {:induction false} HistoryIsOneClamp(k: real, h: real, g0: real, zs: seq<real>)
    requires h > 0.0 && 0.0 <= g0 <= 2.0 * h
    ensures Side(k, h, g0, zs)
            == Min(Side(k, h, 2.0 * h, zs), Max(Side(k, h, 0.0, zs), g0 + SuffixSum(k, zs, 0)))
    ensures 0.0 <= Side(k, h, 0.0, zs) <= Side(k, h, 2.0 * h, zs) <= 2.0 * h
  {
    if zs != [] {
      HistoryIsOneClamp(k, h, g0, zs[..|zs| - 1]);
    }
  }

  lemma FallsByK(k: real, h: real, g: real, z: real, bound: real)
    requires k > 0.0 && h > 0.0 && z <= 0.0 && g <= Max(0.0, bound)
    ensures Advance(k, h, g, z) <= Max(0.0, bound - k)
  {
  }

  /**
    Recovery after repair: m observations with z <= 0 bring the statistic down
    to max(0, 2H - m*K), wherever it stood.
   */
  lemma {:induction false} Recovers(k: real, h: real, g0: real, zs: seq<real>)
    requires k > 0.0 && h > 0.0 && 0.0 <= g0 <= 2.0 * h
    requires forall i :: 0 <= i < |zs| ==> zs[i] <= 0.0
    ensures Side(k, h, g0, zs) <= Max(0.0, 2.0 * h - |zs| as real * k)
  {
    if zs != [] {
      var front := zs[..|zs| - 1];
      Recovers(k, h, g0, front);
      FallsByK(k, h, Side(k, h, g0, front), zs[|zs| - 1], 2.0 * h - |front| as real * k);
      hide Max, Advance;
      assert |zs| as real * k == |front| as real * k + k;
    }
  }

  // ----- The mutable tracker -----

  class Tracker {
    const p: CusumParams
    var gPos: real
    var gNeg: real

    function Value(): CusumState
      reads this
    {
      CusumState(gPos, gNeg)
    }

    constructor (params: CusumParams)
      ensures Value() == RESET && p == params.WithDefaults() && p.Usable()
    {
      p := params.WithDefaults();
      gPos, gNeg := 0.0, 0.0;
    }

    /** Clears the statistics, as when baselines are refit. */
    method Reset()
      modifies this
      ensures Value() == RESET
    {
      gPos, gNeg := 0.0, 0.0;
    }

    method Feed(z: real) returns (r: CusumResult)
      requires p.Usable()
      modifies this
      ensures (Value(), r) == Update(p, old(Value()), z)
    {
      gPos := Max(0.0, gPos + z - p.k);
      gNeg := Max(0.0, gNeg - z - p.k);
      var cap := 2.0 * p.h;
      gPos := Min(gPos, cap);
      gNeg := Min(gNeg, cap);
      var g := Max(gPos, gNeg);
      match p.direction {
        case Up => g := gPos;
        case Down => g := gNeg;
        case Both =>
      }
      r := CusumResult(Clamp01(g / p.h), gPos, gNeg, g >= p.h);
    }
  }
}
