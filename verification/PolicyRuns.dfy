/**
  What the alert policy guarantees over whole runs of evaluations. Between two
  evaluations the offset may be moved anywhere inside its clamp (feedback,
  restores) and the shared site limiter may be in any state, so each
  observation carries both.
 */
module PolicyRuns {
  import opened Common
  import opened RateLimit
  import opened Policy

  datatype Obs = Obs(now: Time, risk: real, offset: real, site: Option<Limiter>)

  /** One observation: the offset in force is the clamp of `o.offset`. */
  function Step(s: PolicyState, o: Obs): (PolicyState, Decision) {
    var (s', d, _) := Evaluate(SetOffset(s, o.offset), o.now, o.risk, o.site);
    (s', d)
  }

  /** The policy after the first `i` observations. */
  function StateAt(s0: PolicyState, run: seq<Obs>, i: nat): PolicyState
    requires i <= |run|
  {
    if i == 0 then s0 else Step(StateAt(s0, run, i - 1), run[i - 1]).0
  }

  function DecisionAt(s0: PolicyState, run: seq<Obs>, i: nat): Decision
    requires i < |run|
  {
    Step(StateAt(s0, run, i), run[i]).1
  }

  function OutcomeAt(s0: PolicyState, run: seq<Obs>, i: nat): Outcome
    requires i < |run|
  {
    DecisionAt(s0, run, i).outcome
  }

  /** The threshold in force at observation `i`. */
  function ThresholdAt(p: Params, run: seq<Obs>, i: nat): real
    requires i < |run|
  {
    EffectiveThreshold(p, ClampOffset(p, run[i].offset))
  }

  predicate IsOpen(o: Outcome) {
    o.Fire? || o.Suppressed? || o.RateLimited?
  }

  /** The counters of a policy that has been run on `p` alone. */
  ghost predicate Counting(s: PolicyState, p: Params) {
    && s.p == p
    && match s.state
       case Normal => s.above == 0 && s.riskSum == 0.0 && !s.alerted
       case Pending => 1 <= s.above < p.minPersistence && !s.alerted
       case Active => 0 <= s.below < p.clearPersistence
  }

  lemma OpenOutcome(until: Time, asset: Option<Limiter>, now: Time, site: Option<Limiter>)
    ensures IsOpen(Open(until, asset, now, site).0)
    ensures Open(until, asset, now, site).0.Fire? ==> now >= until
  {
  }

  /** One observation, case by case. */
  lemma StepCases(s: PolicyState, o: Obs)
    requires s.p.Valid() && Counting(s, s.p)
    ensures var (s', d) := Step(s, o);
            var reached := o.risk >= EffectiveThreshold(s.p, ClampOffset(s.p, o.offset));
            && Counting(s', s.p)
            && (!s.state.Active? && !reached ==>
                  d.outcome.NoOutcome? && s'.state.Normal? && s'.above == 0 && s'.riskSum == 0.0)
            && (!s.state.Active? && reached && s.above + 1 < s.p.minPersistence ==>
                  d.outcome.PendingOutcome? && s'.state.Pending? && s'.above == s.above + 1
                    && s'.riskSum == s.riskSum + o.risk)
            && (!s.state.Active? && reached && s.above + 1 == s.p.minPersistence ==>
                  IsOpen(d.outcome) && s'.state.Active? && s'.below == 0
                  && d.meanRisk == Mean(s.riskSum + o.risk, s.p.minPersistence))
            && (s.state.Active? && o.risk >= s.p.offThreshold ==>
                  d.outcome.Hold? && s'.state.Active? && s'.below == 0)
            && (s.state.Active? && o.risk < s.p.offThreshold && s.below + 1 < s.p.clearPersistence ==>
                  d.outcome.Hold? && s'.state.Active? && s'.below == s.below + 1)
            && (s.state.Active? && o.risk < s.p.offThreshold && s.below + 1 == s.p.clearPersistence ==>
                  d.outcome.Clear? && s'.state.Normal? && s'.above == 0 && s'.riskSum == 0.0)
  {
    hide Mean, EffectiveThreshold, Open, ClampOffset;
    OpenOutcome(s.suppressedUntil, s.limiter, o.now, o.site);
  }

  lemma {:induction false} RunCounts(s0: PolicyState, p: Params, run: seq<Obs>, i: nat)
    requires p.Valid() && Counting(s0, p) && i <= |run|
    ensures Counting(StateAt(s0, run, i), p)
  {
    hide Step;
    if i > 0 {
      RunCounts(s0, p, run, i - 1);
      StepCases(StateAt(s0, run, i - 1), run[i - 1]);
    }
  }

  /**
    What a decision reports: the risk judged, the threshold in force, the state
    it leads to and the run of exceedances.
   */
  lemma DecisionReports(s: PolicyState, now: Time, risk: real, site: Option<Limiter>)
    ensures var (s', d, _) := Evaluate(s, now, risk, site);
            && d.risk == risk && d.state == s'.state && d.threshold == EffectiveThreshold(s.p, s.offset)
            && d.persistence == if s.state.Active? then 0 else s'.above
  {
    hide Open, Mean, EffectiveThreshold;
  }

  // ----- Two runs -----

  /** Run 2 is at least as far into an episode as run 1, and no further out of it. */
  ghost predicate Ahead(s1: PolicyState, s2: PolicyState) {
    if s1.state.Active? then s2.state.Active? && s2.below <= s1.below
    else s2.state.Active? || s2.above >= s1.above
  }

  lemma AheadStep(s1: PolicyState, o1: Obs, s2: PolicyState, o2: Obs)
    requires s1.p.Valid() && s2.p.Valid() && Counting(s1, s1.p) && Counting(s2, s2.p) && Ahead(s1, s2)
    requires s2.p.minPersistence <= s1.p.minPersistence && s2.p.clearPersistence >= s1.p.clearPersistence
    requires s2.p.offThreshold <= s1.p.offThreshold && o1.risk <= o2.risk
    requires EffectiveThreshold(s2.p, ClampOffset(s2.p, o2.offset))
             <= EffectiveThreshold(s1.p, ClampOffset(s1.p, o1.offset))
    ensures Ahead(Step(s1, o1).0, Step(s2, o2).0)
  {
    ThresholdRange(s1.p, ClampOffset(s1.p, o1.offset));
    hide Step, EffectiveThreshold, ClampOffset;
    StepCases(s1, o1);
    StepCases(s2, o2);
  }

  /**
    Monotonicity of the policy: with risk pointwise no lower and thresholds
    pointwise no higher, run 2 is inside an episode whenever run 1 is. The two
    runs may differ in timing, suppression, rate limits, adaptation and feedback.
   */
  lemma {:induction false} Monotone(
    s1: PolicyState, p1: Params, run1: seq<Obs>, s2: PolicyState, p2: Params, run2: seq<Obs>, i: nat)
    requires p1.Valid() && p2.Valid() && Counting(s1, p1) && Counting(s2, p2) && Ahead(s1, s2)
    requires p2.minPersistence <= p1.minPersistence && p2.clearPersistence >= p1.clearPersistence
    requires p2.offThreshold <= p1.offThreshold
    requires |run1| == |run2| && i <= |run1|
    requires forall k :: 0 <= k < |run1| ==>
                         run1[k].risk <= run2[k].risk && ThresholdAt(p2, run2, k) <= ThresholdAt(p1, run1, k)
    ensures Ahead(StateAt(s1, run1, i), StateAt(s2, run2, i))
    ensures StateAt(s1, run1, i).state.Active? ==> StateAt(s2, run2, i).state.Active?
  {
    hide Step, EffectiveThreshold, ClampOffset;
    if i > 0 {
      Monotone(s1, p1, run1, s2, p2, run2, i - 1);
      RunCounts(s1, p1, run1, i - 1);
      RunCounts(s2, p2, run2, i - 1);
      assert ThresholdAt(p2, run2, i - 1) <= ThresholdAt(p1, run1, i - 1);
      AheadStep(StateAt(s1, run1, i - 1), run1[i - 1], StateAt(s2, run2, i - 1), run2[i - 1]);
    }
  }

  // ----- Episodes -----

  /** Words of ((none|pending)* open hold* clear)* that end outside an episode. */
  predicate Quiet(t: seq<Outcome>) {
    t == [] ||
    (var front, last := t[..|t| - 1], t[|t| - 1];
     ((last.NoOutcome? || last.PendingOutcome?) && Quiet(front)) || (last.Clear? && Busy(front)))
  }

  /** Prefixes of such words that end inside an episode. */
  predicate Busy(t: seq<Outcome>) {
    t != [] &&
    (var front, last := t[..|t| - 1], t[|t| - 1];
     (last.Hold? && Busy(front)) || (IsOpen(last) && Quiet(front)))
  }

  function Outcomes(s0: PolicyState, run: seq<Obs>, i: nat): (t: seq<Outcome>)
    requires i <= |run|
    ensures |t| == i && forall k :: 0 <= k < i ==> t[k] == OutcomeAt(s0, run, k)
  {
    if i == 0 then [] else Outcomes(s0, run, i - 1) + [OutcomeAt(s0, run, i - 1)]
  }

  /**
    Every outcome trace is a prefix of ((none|pending)* open hold* clear)*, and
    the state says which side of an episode it ends on.
   */
  lemma {:induction false} EpisodeGrammar(p: Params, run: seq<Obs>, i: nat)
    requires p.Valid() && i <= |run|
    ensures var t := Outcomes(NewPolicy(p), run, i);
            if StateAt(NewPolicy(p), run, i).state.Active? then Busy(t) else Quiet(t)
  {
    hide Step, Quiet, Busy;
    if i == 0 {
      NothingIsQuiet();
    } else {
      EpisodeGrammar(p, run, i - 1);
      RunCounts(NewPolicy(p), p, run, i - 1);
      GrammarStep(StateAt(NewPolicy(p), run, i - 1), run[i - 1], Outcomes(NewPolicy(p), run, i - 1));
    }
  }

  lemma NothingIsQuiet()
    ensures Quiet([])
  {
  }

  lemma GrammarStep(s: PolicyState, o: Obs, t: seq<Outcome>)
    requires s.p.Valid() && Counting(s, s.p) && if s.state.Active? then Busy(t) else Quiet(t)
    ensures var (s', d) := Step(s, o); if s'.state.Active? then Busy(t + [d.outcome]) else Quiet(t + [d.outcome])
  {
    hide Step;
    StepCases(s, o);
    assert (t + [Step(s, o).1.outcome])[..|t|] == t;
  }

  function SumRisk(run: seq<Obs>, from: nat, to: nat): real
    requires from <= to <= |run|
  {
    if from == to then 0.0 else SumRisk(run, from, to - 1) + run[to - 1].risk
  }

  /** Observation `k` was made outside an episode and reached its threshold. */
  ghost predicate Exceeds(s0: PolicyState, p: Params, run: seq<Obs>, k: nat)
    requires k < |run|
  {
    !StateAt(s0, run, k).state.Active? && run[k].risk >= ThresholdAt(p, run, k)
  }

  /** Observation `k` was made inside an episode and fell below the off threshold. */
  ghost predicate Falls(s0: PolicyState, p: Params, run: seq<Obs>, k: nat)
    requires k < |run|
  {
    StateAt(s0, run, k).state.Active? && run[k].risk < p.offThreshold
  }

  /** The observations in [i-n, i) all exceed, and the one before them does not. */
  ghost predicate ExceedRun(s0: PolicyState, p: Params, run: seq<Obs>, i: nat, n: nat)
    requires i <= |run|
  {
    && n <= i
    && (forall k :: i - n <= k < i ==> Exceeds(s0, p, run, k))
    && (n < i ==> !Exceeds(s0, p, run, i - n - 1))
  }

  ghost predicate FallRun(s0: PolicyState, p: Params, run: seq<Obs>, i: nat, n: nat)
    requires i <= |run|
  {
    && n <= i
    && (forall k :: i - n <= k < i ==> Falls(s0, p, run, k))
    && (n < i ==> !Falls(s0, p, run, i - n - 1))
  }

  /** The counters are exactly the lengths of the runs they are named after. */
  ghost predicate CountersMatch(p: Params, run: seq<Obs>, i: nat)
    requires i <= |run|
  {
    var s0, s := NewPolicy(p), StateAt(NewPolicy(p), run, i);
    && Counting(s, p)
    && (if s.state.Active? then FallRun(s0, p, run, i, s.below)
        else ExceedRun(s0, p, run, i, s.above) && s.riskSum == SumRisk(run, i - s.above, i))
  }

  lemma {:induction false} CountersAreRuns(p: Params, run: seq<Obs>, i: nat)
    requires p.Valid() && i <= |run|
    ensures CountersMatch(p, run, i)
  {
    hide Step, EffectiveThreshold, ClampOffset;
    if i > 0 {
      CountersAreRuns(p, run, i - 1);
      StepCases(StateAt(NewPolicy(p), run, i - 1), run[i - 1]);
    }
  }

  /**
    An episode opens exactly at the MinPersistence-th consecutive exceedance,
    and its mean risk is their exact mean.
   */
  lemma OpensAfterPersistence(p: Params, run: seq<Obs>, i: nat)
    requires p.Valid() && i < |run|
    ensures var s0, n := NewPolicy(p), p.minPersistence;
            IsOpen(OutcomeAt(s0, run, i)) <==> ExceedRun(s0, p, run, i + 1, n)
    ensures var s0, n := NewPolicy(p), p.minPersistence;
            IsOpen(OutcomeAt(s0, run, i)) ==>
              DecisionAt(s0, run, i).meanRisk * n as real == SumRisk(run, i + 1 - n, i + 1)
  {
    hide Step, EffectiveThreshold, ClampOffset;
    var s0, n := NewPolicy(p), p.minPersistence;
    CountersAreRuns(p, run, i);
    var s := StateAt(s0, run, i);
    StepCases(s, run[i]);
    if ExceedRun(s0, p, run, i + 1, n) {
      assert Exceeds(s0, p, run, i);
    }
  }

  /** An episode clears exactly at the ClearPersistence-th consecutive fall below the off threshold. */
  lemma ClearsAfterPersistence(p: Params, run: seq<Obs>, i: nat)
    requires p.Valid() && i < |run|
    ensures var s0, n := NewPolicy(p), p.clearPersistence;
            OutcomeAt(s0, run, i).Clear? <==> FallRun(s0, p, run, i + 1, n)
  {
    hide Step, EffectiveThreshold, ClampOffset;
    var s0, n := NewPolicy(p), p.clearPersistence;
    CountersAreRuns(p, run, i);
    var s := StateAt(s0, run, i);
    StepCases(s, run[i]);
    if FallRun(s0, p, run, i + 1, n) {
      assert Falls(s0, p, run, i);
    }
  }

  /** Number of outcomes up to `i` that open an episode. */
  function Opens(s0: PolicyState, run: seq<Obs>, i: nat): nat
    requires i <= |run|
  {
    if i == 0 then 0 else Opens(s0, run, i - 1) + (if IsOpen(OutcomeAt(s0, run, i - 1)) then 1 else 0)
  }

  /** Evaluations already spent on the episode under way. */
  function Progress(s: PolicyState): int {
    if s.state.Active? then s.p.minPersistence + s.below else s.above
  }

  /** Episodes opened and no longer under way after `i` observations. */
  function Closed(s0: PolicyState, run: seq<Obs>, i: nat): int
    requires i <= |run|
  {
    Opens(s0, run, i) - (if StateAt(s0, run, i).state.Active? then 1 else 0)
  }

  lemma ProgressStep(s: PolicyState, o: Obs)
    requires s.p.Valid() && Counting(s, s.p)
    ensures var (s', d) := Step(s, o);
            if d.outcome.Clear? then
              s.state.Active? && !s'.state.Active?
              && Progress(s') + s.p.minPersistence + s.p.clearPersistence == Progress(s) + 1
            else
              Progress(s') <= Progress(s) + 1
              && (s'.state.Active? <==> s.state.Active? || IsOpen(d.outcome))
              && (IsOpen(d.outcome) ==> !s.state.Active?)
  {
    hide Step, EffectiveThreshold, ClampOffset;
    StepCases(s, o);
  }

  lemma {:induction false} ProgressBound(s0: PolicyState, p: Params, run: seq<Obs>, i: nat)
    requires p.Valid() && Counting(s0, p) && s0.state.Normal? && i <= |run|
    ensures Closed(s0, run, i) * (p.minPersistence + p.clearPersistence) + Progress(StateAt(s0, run, i)) <= i
  {
    hide Step;
    if i > 0 {
      ProgressBound(s0, p, run, i - 1);
      RunCounts(s0, p, run, i - 1);
      ProgressStep(StateAt(s0, run, i - 1), run[i - 1]);
      var c, m := Closed(s0, run, i - 1), p.minPersistence + p.clearPersistence;
      if OutcomeAt(s0, run, i - 1).Clear? {
        assert Closed(s0, run, i) == c + 1;
        assert (c + 1) * m == c * m + m;
      } else {
        assert Closed(s0, run, i) == c;
      }
    }
  }

  /**
    Nuisance bound: from a fresh policy, or one rebuilt outside an episode, F
    episodes opened in N evaluations satisfy
    F*(MinPersistence+ClearPersistence) <= N + ClearPersistence.
   */
  lemma EpisodeBoundFrom(s0: PolicyState, p: Params, run: seq<Obs>)
    requires p.Valid() && Counting(s0, p) && s0.state.Normal?
    ensures Opens(s0, run, |run|) * (p.minPersistence + p.clearPersistence) <= |run| + p.clearPersistence
  {
    hide Step;
    ProgressBound(s0, p, run, |run|);
    RunCounts(s0, p, run, |run|);
    var s, c := StateAt(s0, run, |run|), Closed(s0, run, |run|);
    assert s.state.Active? ==> Progress(s) >= p.minPersistence;
    assert Progress(s) >= 0;
    hide Progress, Closed, Counting, StateAt;
    OneMoreEpisode(c, p.minPersistence + p.clearPersistence);
    assert Opens(s0, run, |run|) == if s.state.Active? then c + 1 else c by {
      OpensIs(s0, run);
    }
  }

  lemma OpensIs(s0: PolicyState, run: seq<Obs>)
    ensures Opens(s0, run, |run|)
            == Closed(s0, run, |run|) + if StateAt(s0, run, |run|).state.Active? then 1 else 0
  {
  }

  lemma OneMoreEpisode(c: int, m: int)
    ensures (c + 1) * m == c * m + m
  {
  }

  lemma EpisodeBound(p: Params, run: seq<Obs>)
    requires p.Valid()
    ensures Opens(NewPolicy(p), run, |run|) * (p.minPersistence + p.clearPersistence) <= |run| + p.clearPersistence
  {
    hide Opens;
    EpisodeBoundFrom(NewPolicy(p), p, run);
  }

  /** An opening leaves the policy just inside an episode, whatever it was before. */
  lemma OpeningCounts(s: PolicyState, o: Obs)
    requires s.p.Valid() && IsOpen(Step(s, o).1.outcome)
    ensures var s' := Step(s, o).0; Counting(s', s.p) && s'.state.Active? && s'.below == 0
  {
    hide Mean, EffectiveThreshold, Open, ClampOffset;
  }

  lemma StepKeepsParams(s: PolicyState, o: Obs)
    ensures Step(s, o).0.p == s.p
  {
    hide Mean, EffectiveThreshold, Open, ClampOffset;
  }

  lemma {:induction false} AfterFirstOpening(s0: PolicyState, p: Params, run: seq<Obs>, i: nat)
    requires s0.p == p && p.Valid() && i <= |run|
    ensures StateAt(s0, run, i).p == p
    ensures Opens(s0, run, i) > 0 ==>
              && Counting(StateAt(s0, run, i), p)
              && Closed(s0, run, i) * (p.minPersistence + p.clearPersistence) + Progress(StateAt(s0, run, i))
                 < i + p.minPersistence
  {
    hide Step;
    if i > 0 {
      AfterFirstOpening(s0, p, run, i - 1);
      var s, m := StateAt(s0, run, i - 1), p.minPersistence + p.clearPersistence;
      StepKeepsParams(s, run[i - 1]);
      if Opens(s0, run, i - 1) > 0 {
        hide Closed, Progress;
        OneMoreEvaluation(s0, p, run, i);
      } else if Opens(s0, run, i) > 0 {
        OpeningCounts(s, run[i - 1]);
        assert Closed(s0, run, i) == 0;
      }
    }
  }

  lemma OneMoreEvaluation(s0: PolicyState, p: Params, run: seq<Obs>, i: nat)
    requires p.Valid() && 0 < i <= |run| && Counting(StateAt(s0, run, i - 1), p)
    ensures Counting(StateAt(s0, run, i), p)
    ensures var m := p.minPersistence + p.clearPersistence;
            Closed(s0, run, i) * m + Progress(StateAt(s0, run, i))
            <= Closed(s0, run, i - 1) * m + Progress(StateAt(s0, run, i - 1)) + 1
  {
    hide Step;
    var s := StateAt(s0, run, i - 1);
    ProgressStep(s, run[i - 1]);
    StepCases(s, run[i - 1]);
    var c, m := Closed(s0, run, i - 1), p.minPersistence + p.clearPersistence;
    if OutcomeAt(s0, run, i - 1).Clear? {
      assert Closed(s0, run, i) == c + 1;
      assert (c + 1) * m == c * m + m;
    } else {
      assert Closed(s0, run, i) == c;
    }
  }

  /**
    From any state, also one rebuilt inside an episode: every episode opened
    after the first one costs its full price.
   */
  lemma EpisodeBoundAnyStart(s0: PolicyState, p: Params, run: seq<Obs>)
    requires s0.p == p && p.Valid() && Opens(s0, run, |run|) > 0
    ensures (Opens(s0, run, |run|) - 1) * (p.minPersistence + p.clearPersistence) < |run|
  {
    hide Step, StateAt, Opens;
    AfterFirstOpening(s0, p, run, |run|);
    var c, m := Closed(s0, run, |run|), p.minPersistence + p.clearPersistence;
    assert (c - 1) * m == c * m - m;
  }

  /** While every risk is below its threshold, a policy that is not inside an episode opens none. */
  lemma {:induction false} BelowStaysOut(s0: PolicyState, p: Params, run: seq<Obs>, i: nat)
    requires s0.p == p && p.Valid() && !s0.state.Active? && i <= |run|
    requires forall k :: 0 <= k < |run| ==> run[k].risk < ThresholdAt(p, run, k)
    ensures StateAt(s0, run, i).p == p && !StateAt(s0, run, i).state.Active? && Opens(s0, run, i) == 0
    ensures i > 0 ==> StateAt(s0, run, i).state.Normal?
  {
    hide Step, EffectiveThreshold, ClampOffset;
    if i > 0 {
      BelowStaysOut(s0, p, run, i - 1);
      assert run[i - 1].risk < ThresholdAt(p, run, i - 1);
      BelowStep(StateAt(s0, run, i - 1), run[i - 1]);
    }
  }

  lemma BelowStep(s: PolicyState, o: Obs)
    requires !s.state.Active? && o.risk < EffectiveThreshold(s.p, ClampOffset(s.p, o.offset))
    ensures var (s', d) := Step(s, o); s'.p == s.p && s'.state.Normal? && !IsOpen(d.outcome)
  {
    hide Mean, EffectiveThreshold, ClampOffset;
  }

  // ----- Spacing and rate of alerts in event time -----

  ghost predicate InTimeOrder(run: seq<Obs>) {
    forall i, j :: 0 <= i < j < |run| ==> run[i].now <= run[j].now
  }

  /** What one observation does to the parts of the policy that outlive an episode. */
  lemma SuppressionStep(s: PolicyState, o: Obs)
    ensures var (s', d) := Step(s, o);
            && s'.p == s.p
            && s'.suppressedUntil == (if d.outcome.Clear? then o.now + s.p.suppression else s.suppressedUntil)
            && (d.outcome.Fire? ==> o.now >= s.suppressedUntil)
            && (IsOpen(d.outcome) ==> !s.state.Active? && s'.state.Active?)
            && (s.state.Active? && !s'.state.Active? ==> d.outcome.Clear?)
  {
    hide Mean, EffectiveThreshold, Open, ClampOffset;
    OpenOutcome(s.suppressedUntil, s.limiter, o.now, o.site);
  }

  lemma {:induction false} SuppressionCoversClears(s0: PolicyState, p: Params, run: seq<Obs>, k: nat, i: nat)
    requires s0.p == p && p.Valid() && InTimeOrder(run) && k < i <= |run|
    requires OutcomeAt(s0, run, k).Clear?
    ensures StateAt(s0, run, i).p == p
    ensures StateAt(s0, run, i).suppressedUntil >= run[k].now + p.suppression
  {
    hide Step;
    if i == k + 1 {
      ParamsKept(s0, run, k);
    } else {
      SuppressionCoversClears(s0, p, run, k, i - 1);
    }
    SuppressionStep(StateAt(s0, run, i - 1), run[i - 1]);
  }

  lemma {:induction false} ParamsKept(s0: PolicyState, run: seq<Obs>, i: nat)
    requires i <= |run|
    ensures StateAt(s0, run, i).p == s0.p
  {
    hide Step;
    if i > 0 {
      ParamsKept(s0, run, i - 1);
      SuppressionStep(StateAt(s0, run, i - 1), run[i - 1]);
    }
  }

  /** Inside an episode until a clear: the first clear between an open state and a later normal one. */
  lemma {:induction false} ClearBetween(s0: PolicyState, run: seq<Obs>, i: nat, j: nat) returns (k: nat)
    requires i <= j <= |run|
    requires StateAt(s0, run, i).state.Active? && !StateAt(s0, run, j).state.Active?
    ensures i <= k < j && OutcomeAt(s0, run, k).Clear?
  {
    hide Step;
    if StateAt(s0, run, j - 1).state.Active? {
      SuppressionStep(StateAt(s0, run, j - 1), run[j - 1]);
      k := j - 1;
    } else {
      k := ClearBetween(s0, run, i, j - 1);
    }
  }

  /**
    An alert comes at least Suppression after every earlier clear, and two
    alerts are at least Suppression apart, whatever state the run starts in.
   */
  lemma AlertSpacing(s0: PolicyState, p: Params, run: seq<Obs>, i: nat, j: nat)
    requires s0.p == p && p.Valid() && InTimeOrder(run) && i < j < |run|
    requires OutcomeAt(s0, run, j).Fire?
    ensures OutcomeAt(s0, run, i).Clear? ==> run[i].now + p.suppression <= run[j].now
    ensures IsOpen(OutcomeAt(s0, run, i)) ==> run[i].now + p.suppression <= run[j].now
  {
    hide Step;
    SuppressionStep(StateAt(s0, run, i), run[i]);
    SuppressionStep(StateAt(s0, run, j), run[j]);
    if OutcomeAt(s0, run, i).Clear? {
      SuppressionCoversClears(s0, p, run, i, j);
    }
    if IsOpen(OutcomeAt(s0, run, i)) {
      assert StateAt(s0, run, i + 1).state.Active?;
      assert !StateAt(s0, run, j).state.Active?;
      var k := ClearBetween(s0, run, i + 1, j);
      SuppressionCoversClears(s0, p, run, k, j);
      assert run[i].now <= run[k].now;
    }
  }

  /** Times at which the first `i` observations asked the asset's own limiter. */
  function AskTimes(s0: PolicyState, run: seq<Obs>, i: nat): seq<Time>
    requires i <= |run|
  {
    if i == 0 then []
    else
      var s := StateAt(s0, run, i - 1);
      var o := run[i - 1];
      AskTimes(s0, run, i - 1)
      + (if IsOpen(OutcomeAt(s0, run, i - 1)) && !(o.now < s.suppressedUntil) then [o.now] else [])
  }

  function AlertTimes(s0: PolicyState, run: seq<Obs>, i: nat): seq<Time>
    requires i <= |run|
  {
    if i == 0 then []
    else AlertTimes(s0, run, i - 1) + (if OutcomeAt(s0, run, i - 1).Fire? then [run[i - 1].now] else [])
  }

  lemma {:induction false} AsksInOrder(s0: PolicyState, run: seq<Obs>, i: nat)
    requires InTimeOrder(run) && i <= |run|
    ensures NonDecreasing(AskTimes(s0, run, i))
    ensures i > 0 ==> AtMost(AskTimes(s0, run, i), run[i - 1].now)
  {
    hide Step;
    if i > 0 {
      AsksInOrder(s0, run, i - 1);
      assert i > 1 ==> run[i - 2].now <= run[i - 1].now;
    }
  }

  /** What one observation does to the asset's limiter. */
  lemma LimiterStep(s: PolicyState, o: Obs)
    requires s.limiter.Some?
    ensures var (s', d) := Step(s, o);
            var asks := IsOpen(d.outcome) && !(o.now < s.suppressedUntil);
            && s'.limiter == (if asks then Some(Allow(s.limiter.value, o.now).1) else s.limiter)
            && (d.outcome.Fire? ==> asks && Allow(s.limiter.value, o.now).0)
  {
    hide Mean, EffectiveThreshold, ClampOffset, Allow;
  }

  lemma AskStep(s0: PolicyState, run: seq<Obs>, i: nat)
    requires i < |run|
    ensures var s, o := StateAt(s0, run, i), run[i];
            var asks := IsOpen(Step(s, o).1.outcome) && !(o.now < s.suppressedUntil);
            && AskTimes(s0, run, i + 1) == AskTimes(s0, run, i) + (if asks then [o.now] else [])
            && AlertTimes(s0, run, i + 1)
               == AlertTimes(s0, run, i) + (if Step(s, o).1.outcome.Fire? then [o.now] else [])
            && StateAt(s0, run, i + 1) == Step(s, o).0
  {
    hide Step;
  }

  /** The asset limiter is the limiter run on the ask times, and every alert spent one of its tokens. */
  lemma {:induction false} LimiterFollowsAsks(s0: PolicyState, run: seq<Obs>, i: nat, lo: Time)
    requires s0.limiter.Some? && i <= |run|
    ensures var (l, accepted) := Run(s0.limiter.value, AskTimes(s0, run, i));
            && StateAt(s0, run, i).limiter == Some(l)
            && CountIn(AlertTimes(s0, run, i), lo, lo + HOUR) <= CountIn(accepted, lo, lo + HOUR)
  {
    hide Step, Allow, CountIn;
    if i > 0 {
      hide StateAt, AskTimes, AlertTimes, Run;
      LimiterFollowsAsks(s0, run, i - 1, lo);
      AskStep(s0, run, i - 1);
      var s, o, asks := StateAt(s0, run, i - 1), run[i - 1], AskTimes(s0, run, i - 1);
      LimiterStep(s, o);
      RunStep(s0.limiter.value, asks, o.now);
      assert asks + [] == asks;
      var d, accepted := Step(s, o).1, Run(s0.limiter.value, asks).1;
      var spent := IsOpen(d.outcome) && !(o.now < s.suppressedUntil) && Allow(s.limiter.value, o.now).0;
      SpentCounts(AlertTimes(s0, run, i - 1), accepted, o.now, d.outcome.Fire?, spent, lo, lo + HOUR);
    }
  }

  /** An instant added to the smaller list is added to the larger one as well. */
  lemma SpentCounts(xs: seq<Time>, ys: seq<Time>, t: Time, fired: bool, spent: bool, lo: Time, hi: Time)
    requires CountIn(xs, lo, hi) <= CountIn(ys, lo, hi) && (fired ==> spent)
    ensures CountIn(xs + (if fired then [t] else []), lo, hi) <= CountIn(if spent then ys + [t] else ys, lo, hi)
  {
    CountConcat(xs, [t], lo, hi);
    CountConcat(ys, [t], lo, hi);
    assert xs + [] == xs;
  }

  /**
    At most MaxAlertsPerAssetPerHour alerts lie in any one-hour window of event
    time, counted from the moment the asset's limiter was fresh. Site refusals
    only make it fewer: they spend a token too.
   */
  lemma AlertRate(s0: PolicyState, p: Params, run: seq<Obs>, lo: Time)
    requires s0.p == p && p.maxPerAsset > 0 && s0.limiter == FreshLimiter(p) && InTimeOrder(run)
    ensures CountIn(AlertTimes(s0, run, |run|), lo, lo + HOUR) <= p.maxPerAsset
  {
    LimiterFollowsAsks(s0, run, |run|, lo);
    AsksInOrder(s0, run, |run|);
    WindowBound(p.maxPerAsset, HOUR, AskTimes(s0, run, |run|), lo);
  }

  // ----- Feedback -----

  /** The offset after a sequence of verdicts. */
  function OffsetAfter(p: Params, o: real, verdicts: seq<Verdict>): real {
    if verdicts == [] then o
    else ClampOffset(p, Wanted(p, OffsetAfter(p, o, verdicts[..|verdicts| - 1]), verdicts[|verdicts| - 1]))
  }

  function Repeat(v: Verdict, k: nat): seq<Verdict> {
    seq(k, _ => v)
  }

  /** No amount of feedback moves the offset out of its clamp or the threshold out of its band. */
  lemma {:induction false} FeedbackStaysInside(p: Params, o: real, verdicts: seq<Verdict>)
    requires p.Valid() && Abs(o) <= p.adaptation.maxOffset
    ensures Abs(OffsetAfter(p, o, verdicts)) <= p.adaptation.maxOffset
    ensures var t := EffectiveThreshold(p, OffsetAfter(p, o, verdicts));
            && p.offThreshold < t <= Max(ThresholdCeiling(p), p.offThreshold + 0.01)
            && t >= Max(p.onThreshold - p.adaptation.maxOffset, p.offThreshold + 0.01)
  {
    if verdicts != [] {
      FeedbackStaysInside(p, o, verdicts[..|verdicts| - 1]);
    }
  }

  /** k steps of size d from o, stopped at m. */
  function Climb(m: real, o: real, k: nat, d: real): real {
    Min(m, o + k as real * d)
  }

  lemma ClimbStep(m: real, o: real, k: nat, d: real)
    requires d >= 0.0 && o <= m
    ensures Climb(m, o, 0, d) == o
    ensures Climb(m, o, k + 1, d) == Min(m, Climb(m, o, k, d) + d)
    ensures Climb(m, o, k, d) >= o
  {
    assert (k + 1) as real * d == k as real * d + d;
    assert k as real * d >= 0.0;
  }

  lemma LastVerdict(p: Params, o: real, v: Verdict, k: nat)
    ensures OffsetAfter(p, o, Repeat(v, k + 1)) == ClampOffset(p, Wanted(p, OffsetAfter(p, o, Repeat(v, k)), v))
  {
    assert Repeat(v, k + 1)[..k] == Repeat(v, k);
  }

  /** k dismissals in a row add up until the clamp. */
  lemma {:induction false} RepeatedDismissals(p: Params, o: real, k: nat)
    requires p.Valid() && Abs(o) <= p.adaptation.maxOffset
    ensures OffsetAfter(p, o, Repeat(Dismiss, k)) == Climb(p.adaptation.maxOffset, o, k, p.adaptation.dismissStep)
  {
    hide Climb, EffectiveThreshold, OffsetAfter;
    if k == 0 {
      NoVerdicts(p, o, Dismiss);
      ClimbStep(p.adaptation.maxOffset, o, 0, p.adaptation.dismissStep);
    } else {
      RepeatedDismissals(p, o, k - 1);
      LastVerdict(p, o, Dismiss, k - 1);
      ClimbStep(p.adaptation.maxOffset, o, k - 1, p.adaptation.dismissStep);
    }
  }

  lemma NoVerdicts(p: Params, o: real, v: Verdict)
    ensures OffsetAfter(p, o, Repeat(v, 0)) == o
  {
  }

  /** k confirmations in a row add up downwards until the clamp. */
  lemma {:induction false} RepeatedConfirmations(p: Params, o: real, k: nat)
    requires p.Valid() && Abs(o) <= p.adaptation.maxOffset
    ensures OffsetAfter(p, o, Repeat(Confirm, k)) == -Climb(p.adaptation.maxOffset, -o, k, p.adaptation.confirmStep)
  {
    hide Climb, EffectiveThreshold, OffsetAfter;
    if k == 0 {
      NoVerdicts(p, o, Confirm);
      ClimbStep(p.adaptation.maxOffset, -o, 0, p.adaptation.confirmStep);
    } else {
      RepeatedConfirmations(p, o, k - 1);
      LastVerdict(p, o, Confirm, k - 1);
      ClimbStep(p.adaptation.maxOffset, -o, k - 1, p.adaptation.confirmStep);
    }
  }

  // ----- What a verdict does to the episodes that follow -----

  /** The threshold without its clamps. */
  predicate InBand(p: Params, t: real) {
    p.offThreshold + 0.01 <= t <= Max(ThresholdCeiling(p), p.offThreshold + 0.01)
  }

  /** Neither the offset nor the threshold is stopped by a clamp, before the verdict or after it. */
  predicate Unclamped(p: Params, o: real, v: Verdict) {
    var wanted := Wanted(p, o, v);
    Abs(wanted) <= p.adaptation.maxOffset && InBand(p, p.onThreshold + o) && InBand(p, p.onThreshold + wanted)
  }

  /**
    A dismissal raises the threshold, a confirmation lowers it, by exactly the
    configured step if and only if no clamp is in the way (or the step is 0).
   */
  lemma VerdictMovesThreshold(p: Params, o: real, v: Verdict)
    requires p.Valid() && Abs(o) <= p.adaptation.maxOffset
    ensures var moved := EffectiveThreshold(p, ClampOffset(p, Wanted(p, o, v))) - EffectiveThreshold(p, o);
            match v
            case Dismiss =>
              && 0.0 <= moved <= p.adaptation.dismissStep
              && (moved == p.adaptation.dismissStep <==> p.adaptation.dismissStep == 0.0 || Unclamped(p, o, v))
            case Confirm =>
              && 0.0 <= -moved <= p.adaptation.confirmStep
              && (-moved == p.adaptation.confirmStep <==> p.adaptation.confirmStep == 0.0 || Unclamped(p, o, v))
  {
    var o' := ClampOffset(p, Wanted(p, o, v));
    if v.Dismiss? {
      ThresholdFollowsOffset(p, o, o' - o);
    } else {
      ThresholdFollowsOffset(p, o', o - o');
    }
  }

  /** From outside an episode, the exceedances of the first observations are counted one by one. */
  lemma {:induction false} CountsUp(s0: PolicyState, p: Params, run: seq<Obs>, i: nat)
    requires p.Valid() && Counting(s0, p) && s0.state.Normal? && i < p.minPersistence && i <= |run|
    requires forall k :: 0 <= k < |run| ==> run[k].risk >= ThresholdAt(p, run, k)
    ensures var s := StateAt(s0, run, i); Counting(s, p) && !s.state.Active? && s.above == i
  {
    hide Step, EffectiveThreshold, ClampOffset;
    if i > 0 {
      CountsUp(s0, p, run, i - 1);
      assert run[i - 1].risk >= ThresholdAt(p, run, i - 1);
      StepCases(StateAt(s0, run, i - 1), run[i - 1]);
    }
  }

  /** The same observations with another offset in force. */
  function AtOffset(run: seq<Obs>, o: real): seq<Obs> {
    seq(|run|, k requires 0 <= k < |run| => run[k].(offset := o))
  }

  /**
    What technicians dismiss is asked for less often: with no clamp in the way,
    risks that reach the threshold in force before a dismissal but not
    `dismissStep` above it open an episode at the MinPersistence-th observation
    before the dismissal, and never after it, however long they last.
   */
  lemma DismissalSilences(s0: PolicyState, p: Params, o: real, run: seq<Obs>)
    requires p.Valid() && Counting(s0, p) && s0.state.Normal? && Abs(o) <= p.adaptation.maxOffset
    requires Unclamped(p, o, Dismiss)
    requires forall k :: 0 <= k < |run| ==>
               p.onThreshold + o <= run[k].risk < p.onThreshold + o + p.adaptation.dismissStep
    ensures var before, n := AtOffset(run, o), p.minPersistence;
            |run| >= n ==> IsOpen(OutcomeAt(s0, before, n - 1)) && forall i :: 0 <= i < n - 1 ==>
              OutcomeAt(s0, before, i).PendingOutcome?
    ensures var after := AtOffset(run, ApplyFeedback(s0.(offset := o), Dismiss).offset);
            Opens(s0, after, |run|) == 0
            && forall i :: 0 <= i < |run| ==> OutcomeAt(s0, after, i).NoOutcome?
  {
    var o' := ApplyFeedback(s0.(offset := o), Dismiss).offset;
    assert o' == ClampOffset(p, o') == o + p.adaptation.dismissStep && o == ClampOffset(p, o);
    ThresholdFollowsOffset(p, o, p.adaptation.dismissStep);
    ThresholdFollowsOffset(p, o', 0.0);
    var before, after := AtOffset(run, o), AtOffset(run, o');
    var t, t' := EffectiveThreshold(p, o), EffectiveThreshold(p, o');
    hide Step, EffectiveThreshold, ClampOffset, ApplyFeedback;
    assert t == p.onThreshold + o && t' == t + p.adaptation.dismissStep;
    assert forall k :: 0 <= k < |run| ==> ThresholdAt(p, before, k) == t && ThresholdAt(p, after, k) == t';
    if |run| >= p.minPersistence {
      forall i: nat | i < p.minPersistence
        ensures var out := OutcomeAt(s0, before, i);
                if i == p.minPersistence - 1 then IsOpen(out) else out.PendingOutcome?
      {
        CountsUp(s0, p, before, i);
        StepCases(StateAt(s0, before, i), before[i]);
      }
    }
    BelowStaysOut(s0, p, after, |run|);
    forall i: nat | i < |run|
      ensures OutcomeAt(s0, after, i).NoOutcome?
    {
      RunCounts(s0, p, after, i);
      BelowStaysOut(s0, p, after, i);
      StepCases(StateAt(s0, after, i), after[i]);
    }
  }
}
