/**
  What each asset keeps of its history, in every reachable state and whatever
  fails: the windows hold the newest accepted values, the replay guard is the
  newest accepted time per signal, the policy is the policy run on the recorded
  evaluations, and the offset is the fold of the recorded verdicts.
 */
module EngineHistory {
  import opened Common
  import opened Policy
  import opened PolicyRuns
  import opened Extractor
  import opened WorkOrders
  import opened Pipeline
  import opened EngineModel
  import opened EngineEffects
  import opened EngineWorld
  import EngineReplay
  import Fusion
  import HstDetector
  import RateLimit

  // ----- Accepted metrics -----

  /** What a log of accepted metrics leaves for one signal: every value of every burst, converted. */
  function ValuesFor(units: Units, unit: string, signal: string, log: seq<Metric>): seq<real> {
    if log == [] then []
    else
      var m := log[|log| - 1];
      ValuesFor(units, unit, signal, log[..|log| - 1])
      + if m.signal == signal && Convertible(units, m.unit, unit)
        then ConvertEach(units, m.Values(), m.unit, unit) else []
  }

  /** The newest time per signal. */
  function NewestOf(log: seq<Metric>): map<string, Time> {
    if log == [] then map[]
    else NewestOf(log[..|log| - 1])[log[|log| - 1].signal := log[|log| - 1].ts]
  }

  /** Times of one signal strictly increase. */
  ghost predicate StrictPerSignal(log: seq<Metric>) {
    forall i, j :: 0 <= i < j < |log| && log[i].signal == log[j].signal ==> log[i].ts < log[j].ts
  }

  predicate IsRuntimeSignal(a: Asset, signal: string) {
    a.tpl.runtimeSignal != "" && signal == a.tpl.runtimeSignal
  }

  /** Each window holds the newest values accepted since the rebuild. */
  ghost predicate Windowed(cfg: Config, a: Asset)
    requires WellFormed(a)
  {
    && a.history.rebuilt <= |a.history.accepted|
    && forall g :: g in a.tpl.specs ==>
         a.samples[g] == if IsRuntimeSignal(a, g) then [] else
           LastN(ValuesFor(cfg.units, a.tpl.specs[g].unit, g, a.history.accepted[a.history.rebuilt..]),
             a.tpl.specs[g].window)
  }

  ghost predicate Guarded(a: Asset) {
    StrictPerSignal(a.history.accepted) && a.lastTS == NewestOf(a.history.accepted)
  }

  lemma {:induction false} NewestBounds(log: seq<Metric>)
    requires StrictPerSignal(log)
    ensures forall i :: 0 <= i < |log| ==> log[i].signal in NewestOf(log) && log[i].ts <= NewestOf(log)[log[i].signal]
  {
    if log != [] {
      var front, last := log[..|log| - 1], log[|log| - 1];
      assert StrictPerSignal(front);
      NewestBounds(front);
      forall i | 0 <= i < |log|
        ensures log[i].signal in NewestOf(log) && log[i].ts <= NewestOf(log)[log[i].signal]
      {
        if i < |front| {
          assert front[i] == log[i];
        }
      }
    }
  }

  lemma LogGrows(log: seq<Metric>, m: Metric)
    requires StrictPerSignal(log) && (m.signal in NewestOf(log) ==> m.ts > NewestOf(log)[m.signal])
    ensures StrictPerSignal(log + [m]) && NewestOf(log + [m]) == NewestOf(log)[m.signal := m.ts]
  {
    NewestBounds(log);
    assert (log + [m])[..|log|] == log;
  }

  lemma ValuesGrow(units: Units, unit: string, signal: string, log: seq<Metric>, m: Metric)
    ensures ValuesFor(units, unit, signal, log + [m])
            == ValuesFor(units, unit, signal, log)
               + if m.signal == signal && Convertible(units, m.unit, unit)
                 then ConvertEach(units, m.Values(), m.unit, unit) else []
  {
    assert (log + [m])[..|log|] == log;
  }

  lemma PushKeepsWindow(cfg: Config, a: Asset, m: Metric, g: string)
    requires WellFormed(a) && Windowed(cfg, a) && g in a.tpl.specs
    ensures var a' := PushMetric(cfg, a, m).0;
            && WellFormed(a') && a'.tpl == a.tpl && a'.history.rebuilt == a.history.rebuilt <= |a'.history.accepted|
            && a'.samples[g] == if IsRuntimeSignal(a, g) then [] else
                 LastN(ValuesFor(cfg.units, a.tpl.specs[g].unit, g, a'.history.accepted[a.history.rebuilt..]),
                   a.tpl.specs[g].window)
  {
    hide PushMetric, ValuesFor, ConvertEach, Convertible, LastN, EngineReplay.Settled;
    PushShape(cfg, a, m);
    EngineReplay.PushIs(cfg, a, m);
    var (a', pushed) := PushMetric(cfg, a, m);
    if pushed.Accepted? {
      var spec, log := a.tpl.specs[g], a.history.accepted[a.history.rebuilt..];
      assert a'.history.accepted[a.history.rebuilt..] == log + [m];
      ValuesGrow(cfg.units, spec.unit, g, log, m);
      var held := ValuesFor(cfg.units, spec.unit, g, log);
      if m.signal == g && !IsRuntime(a, m) {
        LastNAppend(held, ConvertEach(cfg.units, m.Values(), m.unit, spec.unit), spec.window);
      } else {
        assert held + [] == held;
      }
    }
  }

  lemma PushKeepsLog(cfg: Config, a: Asset, m: Metric)
    requires WellFormed(a) && Guarded(a)
    ensures Guarded(PushMetric(cfg, a, m).0)
  {
    hide PushReading, NewestOf, StrictPerSignal, Convertible;
    PushShape(cfg, a, m);
    if !IsDuplicate(a, m) {
      LogGrows(a.history.accepted, m);
    }
  }

  // ----- The policy's run -----

  function Plain(p: PolicyState): PolicyState {
    p.(offset := 0.0)
  }

  function Verdicts(judged: seq<(Id, Verdict)>): seq<Verdict> {
    if judged == [] then [] else Verdicts(judged[..|judged| - 1]) + [judged[|judged| - 1].1]
  }

  ghost predicate Increasing(run: seq<Obs>, last: Time) {
    && (forall i, j :: 0 <= i < j < |run| ==> run[i].now < run[j].now)
    && (forall i :: 0 <= i < |run| ==> run[i].now <= last)
  }

  /** The policy is the one at the rebuild, run on the recorded evaluations, with the offset its verdicts add up to. */
  ghost predicate Traced(a: Asset) {
    var h := a.history;
    && h.origin.p == a.policy.p == a.tpl.alerting
    && h.origin.limiter == FreshLimiter(a.policy.p)
    && Plain(a.policy) == Plain(StateAt(h.origin, h.evaluations, |h.evaluations|))
    && a.policy.offset == ClampOffset(a.policy.p, a.policy.offset)
       == OffsetAfter(a.policy.p, h.origin.offset, Verdicts(h.judged))
  }

  /** The offset after the first `k` verdicts. */
  function FoldAt(a: Asset, k: nat): real
    requires k <= |a.history.judged|
  {
    OffsetAfter(a.policy.p, a.history.origin.offset, Verdicts(a.history.judged[..k]))
  }

  /** An offset that the verdicts had reached at some point. */
  ghost predicate ReachedBy(a: Asset, offset: real) {
    exists k :: 0 <= k <= |a.history.judged| && offset == FoldAt(a, k)
  }

  /** Every evaluation was made at such an offset. */
  ghost predicate OffsetsRecorded(a: Asset) {
    forall i :: 0 <= i < |a.history.evaluations| ==> ReachedBy(a, a.history.evaluations[i].offset)
  }

  lemma StillReached(a: Asset, a': Asset, offset: real)
    requires ReachedBy(a, offset) && a'.policy.p == a.policy.p && a'.history.origin == a.history.origin
    requires a.history.judged <= a'.history.judged
    ensures ReachedBy(a', offset)
  {
    hide OffsetAfter, Verdicts;
    var k :| 0 <= k <= |a.history.judged| && offset == FoldAt(a, k);
    assert a'.history.judged[..k] == a.history.judged[..k];
    assert FoldAt(a', k) == FoldAt(a, k);
  }

  lemma SameRecorded(a: Asset, a': Asset)
    requires OffsetsRecorded(a) && a'.policy.p == a.policy.p && a'.history.origin == a.history.origin
    requires a.history.judged <= a'.history.judged && a'.history.evaluations == a.history.evaluations
    ensures OffsetsRecorded(a')
  {
    hide ReachedBy;
    forall i | 0 <= i < |a'.history.evaluations|
      ensures ReachedBy(a', a'.history.evaluations[i].offset)
    {
      StillReached(a, a', a.history.evaluations[i].offset);
    }
  }

  lemma OneMoreRecorded(a: Asset, a': Asset, o: Obs)
    requires OffsetsRecorded(a) && a'.policy.p == a.policy.p && a'.history.origin == a.history.origin
    requires a'.history.judged == a.history.judged && a'.history.evaluations == a.history.evaluations + [o]
    requires o.offset == OffsetAfter(a.policy.p, a.history.origin.offset, Verdicts(a.history.judged))
    ensures OffsetsRecorded(a')
  {
    hide OffsetAfter, Verdicts;
    var n := |a.history.judged|;
    assert a'.history.judged[..n] == a.history.judged;
    assert o.offset == FoldAt(a', n) && ReachedBy(a', o.offset);
    hide ReachedBy;
    forall i | 0 <= i < |a.history.evaluations|
      ensures ReachedBy(a', a'.history.evaluations[i].offset)
    {
      StillReached(a, a', a.history.evaluations[i].offset);
    }
  }

  lemma StepIgnoresOffset(s: PolicyState, t: PolicyState, o: Obs)
    requires Plain(s) == Plain(t)
    ensures Step(s, o) == Step(t, o)
  {
    hide Evaluate;
    assert SetOffset(s, o.offset) == SetOffset(t, o.offset);
  }

  lemma {:induction false} RunExtends(s0: PolicyState, run: seq<Obs>, o: Obs, i: nat)
    requires i <= |run|
    ensures StateAt(s0, run + [o], i) == StateAt(s0, run, i)
  {
    hide Step;
    if i > 0 {
      RunExtends(s0, run, o, i - 1);
    }
  }

  /** One more observation of a policy that already follows its run. */
  lemma RunGrows(s0: PolicyState, run: seq<Obs>, s: PolicyState, o: Obs)
    requires Plain(s) == Plain(StateAt(s0, run, |run|)) && s.offset == ClampOffset(s.p, s.offset)
             && o.offset == s.offset
    ensures var (s', d, _) := Evaluate(s, o.now, o.risk, o.site);
            && StateAt(s0, run + [o], |run| + 1) == s'
            && DecisionAt(s0, run + [o], |run|) == d
  {
    hide Evaluate, ClampOffset;
    RunExtends(s0, run, o, |run|);
    StepIgnoresOffset(s, StateAt(s0, run, |run|), o);
    assert SetOffset(s, o.offset) == s;
  }

  lemma EvaluateKeepsParams(s: PolicyState, now: Time, risk: real, site: Option<RateLimit.Limiter>)
    ensures var s' := Evaluate(s, now, risk, site).0; s'.p == s.p && s'.offset == s.offset
  {
    hide Mean, EffectiveThreshold, Open;
  }

  lemma FeedKeepsTrace(s: Progress, ts: Time, risk: real)
    requires Traced(s.asset)
    ensures Traced(FeedPolicy(s, ts, risk).0.asset)
    ensures var h := FeedPolicy(s, ts, risk).0.asset.history;
            && |h.evaluations| == |s.asset.history.evaluations| + 1
            && OutcomeAt(h.origin, h.evaluations, |h.evaluations| - 1) == FeedPolicy(s, ts, risk).1
  {
    hide Evaluate, FeedPolicy, SiteLimiter, ClampOffset, OffsetAfter, StateAt;
    FeedPolicyFrame(s, ts, risk);
    var a, a' := s.asset, FeedPolicy(s, ts, risk).0.asset;
    var seen := Obs(ts, risk, a.policy.offset, SiteLimiter(s.env, a));
    RunGrows(a.history.origin, a.history.evaluations, a.policy, seen);
    EvaluateKeepsParams(a.policy, ts, risk, seen.site);
  }

  // ----- Both, through every operation -----

  /** All of the above for one asset. */
  ghost predicate Faithful(cfg: Config, a: Asset)
    requires WellFormed(a)
  {
    && Windowed(cfg, a) && Guarded(a) && Traced(a) && OffsetsRecorded(a)
    && Increasing(a.history.evaluations, a.lastEval)
  }

  /** What acting on an outcome leaves alone. */
  ghost predicate KeepsTrace(a: Asset, a': Asset) {
    && InputsOf(a') == InputsOf(a) && a'.policy == a.policy && a'.detectors == a.detectors
    && a'.history.(raised := a.history.raised) == a.history
  }

  lemma ReactKeepsTrace(cfg: Config, f: Faults, s: Progress, ts: Time, as_: Fusion.Assessment, top: string, o: Outcome)
    ensures KeepsTrace(s.asset, React(cfg, f, s, ts, as_, top, o).asset)
  {
    hide RaiseOrder, SaveAlert, NewAlert;
  }

  lemma SameTrace(cfg: Config, a: Asset, a': Asset)
    requires WellFormed(a) && WellFormed(a') && Faithful(cfg, a) && KeepsTrace(a, a')
    ensures Faithful(cfg, a')
  {
    hide ClampOffset, OffsetAfter, StateAt, Verdicts, NewestOf, StrictPerSignal, LastN, ValuesFor, WellFormed,
      OffsetsRecorded;
    var i := InputsOf(a);
    assert i.samples == a'.samples && i.lastTS == a'.lastTS && i.tpl == a'.tpl && i.lastEval == a'.lastEval;
    assert i.accepted == a'.history.accepted && i.rebuilt == a'.history.rebuilt;
    var h := a'.history.(raised := a.history.raised);
    assert h.origin == a'.history.origin && h.evaluations == a'.history.evaluations && h.judged == a'.history.judged;
    SameRecorded(a, a');
  }

  lemma EvaluateKeepsHistory(cfg: Config, f: Faults, s: Progress, ts: Time)
    requires WellFormed(s.asset) && Faithful(cfg, s.asset)
    ensures var a' := EvaluateIfReady(cfg, f, s, ts).asset; WellFormed(a') && Faithful(cfg, a')
  {
    EvaluateShape(cfg, f, s, ts);
    if Evaluates(s.asset, ts) {
      hide Examine, FeedPolicy, React, Traced, Guarded, WellFormed, Windowed, KeepsTrace, Evaluates;
      ExamineFrame(cfg, f, s, ts);
      var x := Examine(cfg, f, s, ts);
      ExamineKeepsHistory(cfg, f, s, ts);
      if x.s.ok {
        FeedKeepsHistory(cfg, x.s, ts, x.assessment.risk);
        var (s1, outcome) := FeedPolicy(x.s, ts, x.assessment.risk);
        ReactKeepsTrace(cfg, f, s1, ts, x.assessment, x.top, outcome);
        SameTrace(cfg, s1.asset, React(cfg, f, s1, ts, x.assessment, x.top, outcome).asset);
      }
    }
  }

  /** After scoring, the asset waits for the observation at `ts`. */
  ghost predicate Awaits(cfg: Config, a: Asset, ts: Time)
    requires WellFormed(a)
  {
    && Windowed(cfg, a) && Guarded(a) && Traced(a) && OffsetsRecorded(a) && a.lastEval == ts
    && (forall i, j :: 0 <= i < j < |a.history.evaluations| ==>
          a.history.evaluations[i].now < a.history.evaluations[j].now)
    && (forall i :: 0 <= i < |a.history.evaluations| ==> a.history.evaluations[i].now < ts)
  }

  lemma ExamineKeepsHistory(cfg: Config, f: Faults, s: Progress, ts: Time)
    requires WellFormed(s.asset) && Faithful(cfg, s.asset) && Evaluates(s.asset, ts)
    ensures var a := Examine(cfg, f, s, ts).s.asset; WellFormed(a) && Faithful(cfg, a) && Awaits(cfg, a, ts)
  {
    hide Examine, StateAt, OffsetAfter, ClampOffset, Verdicts, NewestOf, StrictPerSignal, LastN, ValuesFor, Ready, Fits,
      OffsetsRecorded;
    ExamineFrame(cfg, f, s, ts);
    SameRecorded(s.asset, Examine(cfg, f, s, ts).s.asset);
  }

  lemma FeedKeepsHistory(cfg: Config, s: Progress, ts: Time, risk: real)
    requires WellFormed(s.asset) && Awaits(cfg, s.asset, ts)
    ensures var a := FeedPolicy(s, ts, risk).0.asset; WellFormed(a) && Faithful(cfg, a)
  {
    hide FeedPolicy, Evaluate, SiteLimiter, Traced, NewestOf, StrictPerSignal, LastN, ValuesFor, Fits, OffsetsRecorded;
    FeedPolicyFrame(s, ts, risk);
    FeedKeepsTrace(s, ts, risk);
    FeedRecords(s, ts, risk);
  }

  lemma FeedRecords(s: Progress, ts: Time, risk: real)
    requires Traced(s.asset) && OffsetsRecorded(s.asset)
    ensures OffsetsRecorded(FeedPolicy(s, ts, risk).0.asset)
  {
    hide Evaluate, FeedPolicy, SiteLimiter, ClampOffset, OffsetAfter, StateAt, OffsetsRecorded;
    FeedPolicyFrame(s, ts, risk);
    var seen := Obs(ts, risk, s.asset.policy.offset, SiteLimiter(s.env, s.asset));
    EvaluateKeepsParams(s.asset.policy, ts, risk, seen.site);
    OneMoreRecorded(s.asset, FeedPolicy(s, ts, risk).0.asset, seen);
  }

  lemma PushKeepsHistory(cfg: Config, a: Asset, m: Metric)
    requires WellFormed(a) && Faithful(cfg, a)
    ensures var a' := PushMetric(cfg, a, m).0; WellFormed(a') && Faithful(cfg, a')
  {
    hide PushMetric, Guarded, Traced, OffsetsRecorded, LastN, ValuesFor, Convertible, EngineReplay.Settled;
    PushShape(cfg, a, m);
    PushKeepsLog(cfg, a, m);
    PushKeepsWindowBound(cfg, a, m);
    var a' := PushMetric(cfg, a, m).0;
    forall g | g in a'.tpl.specs
      ensures a'.samples[g] == if IsRuntimeSignal(a', g) then [] else
                LastN(ValuesFor(cfg.units, a'.tpl.specs[g].unit, g, a'.history.accepted[a'.history.rebuilt..]),
                  a'.tpl.specs[g].window)
    {
      PushKeepsWindow(cfg, a, m, g);
    }
    PushKeepsTrace(cfg, a, m);
    PushKeepsRecord(cfg, a, m);
    SameRecorded(a, a');
  }

  lemma PushKeepsRecord(cfg: Config, a: Asset, m: Metric)
    requires WellFormed(a)
    ensures var a' := PushMetric(cfg, a, m).0;
            && a'.policy == a.policy && a'.history.origin == a.history.origin
            && a'.history.judged == a.history.judged && a'.history.evaluations == a.history.evaluations
  {
    hide PushReading;
  }

  lemma PushKeepsTrace(cfg: Config, a: Asset, m: Metric)
    requires WellFormed(a) && Traced(a)
    ensures var a' := PushMetric(cfg, a, m).0;
            Traced(a') && a'.history.evaluations == a.history.evaluations && a'.lastEval == a.lastEval
  {
    hide PushReading, StateAt, OffsetAfter, ClampOffset, Verdicts;
  }

  lemma PushKeepsWindowBound(cfg: Config, a: Asset, m: Metric)
    requires WellFormed(a)
    ensures var a' := PushMetric(cfg, a, m).0;
            a'.history.rebuilt == a.history.rebuilt && |a'.history.accepted| >= |a.history.accepted|
  {
    hide PushReading;
  }

  lemma {:induction false} GroupKeepsHistory(cfg: Config, f: Faults, s: Progress, pending: Time, ms: seq<Metric>)
    requires WellFormed(s.asset) && Faithful(cfg, s.asset)
    ensures var a' := IngestGroup(cfg, f, s, pending, ms).asset; WellFormed(a') && Faithful(cfg, a')
    decreases |ms|
  {
    hide EvaluateIfReady, PushMetric, WellFormed, Faithful;
    EvaluateShape(cfg, f, s, pending);
    EvaluateKeepsHistory(cfg, f, s, pending);
    if ms != [] {
      var m := ms[0];
      var s1 := if pending != ZERO_TIME && m.ts > pending then EvaluateIfReady(cfg, f, s, pending) else s;
      if s1.ok {
        PushShape(cfg, s1.asset, m);
        PushKeepsHistory(cfg, s1.asset, m);
        var (a, pushed) := PushMetric(cfg, s1.asset, m);
        GroupKeepsHistory(cfg, f, s1.(asset := a, tally := Count(s1.tally, pushed)), m.ts, ms[1..]);
      }
    }
  }

  ghost predicate AllFaithful(cfg: Config, w: World)
    requires WorldShape(w)
  {
    forall id :: id in w.assets ==> Faithful(cfg, w.assets[id])
  }

  lemma ClampTwice(p: Params, o: real)
    requires p.Valid()
    ensures ClampOffset(p, ClampOffset(p, o)) == ClampOffset(p, o)
  {
  }

  lemma BuiltFaithful(cfg: Config, id: string, site: string, tpl: Template, learned: HstDetector.Baselines,
                      offset: real, age: real, since: Id)
    requires tpl.Valid()
    ensures var a := BuiltAsset(id, site, tpl, learned, offset, age, since); WellFormed(a) && Faithful(cfg, a)
  {
    hide FreshDetectors, ClampOffset, FreshLimiter;
    ClampTwice(tpl.alerting, offset);
  }

  lemma RebuiltFaithful(cfg: Config, a: Asset, t: Template, since: Id)
    requires WellFormed(a) && Faithful(cfg, a) && t.Valid()
    ensures WellFormed(Rebuilt(a, t, since)) && Faithful(cfg, Rebuilt(a, t, since))
  {
    hide FreshDetectors, ClampOffset, FreshLimiter, StrictPerSignal, NewestOf, Fits, Traced;
    ClampTwice(t.alerting, a.policy.offset);
    assert Fits(t.specs, EmptySamples(t.specs)) by {
      RebuiltShape(a, t, since);
    }
    assert a.history.accepted[|a.history.accepted|..] == [];
    RebuiltTraced(a, t, since);
  }

  lemma RebuiltTraced(a: Asset, t: Template, since: Id)
    requires t.Valid()
    ensures Traced(Rebuilt(a, t, since))
  {
    hide FreshDetectors, ClampOffset, FreshLimiter;
    ClampTwice(t.alerting, a.policy.offset);
  }

  lemma JudgedFaithful(cfg: Config, a: Asset, id: Id, v: Verdict)
    requires WellFormed(a) && Faithful(cfg, a)
    ensures WellFormed(Judged(a, id, v)) && Faithful(cfg, Judged(a, id, v))
  {
    hide ClampOffset, Wanted, StrictPerSignal, NewestOf, StateAt, LastN, ValuesFor, Fits, OffsetsRecorded;
    SameRecorded(a, Judged(a, id, v));
    ClampTwice(a.policy.p, Wanted(a.policy.p, a.policy.offset, v));
    VerdictsGrow(a.policy.p, a.history.origin.offset, a.history.judged, id, v);
  }

  lemma VerdictsGrow(p: Params, o: real, judged: seq<(Id, Verdict)>, id: Id, v: Verdict)
    ensures OffsetAfter(p, o, Verdicts(judged + [(id, v)]))
            == ClampOffset(p, Wanted(p, OffsetAfter(p, o, Verdicts(judged)), v))
  {
    hide ClampOffset, Wanted;
    assert (judged + [(id, v)])[..|judged|] == judged;
    assert (Verdicts(judged) + [v])[..|Verdicts(judged)|] == Verdicts(judged);
  }

  lemma AssetForFaithful(cfg: Config, w: World, m: Metric)
    requires WorldShape(w) && AllFaithful(cfg, w) && AssetFor(w, m).Some?
    ensures WellFormed(AssetFor(w, m).value) && Faithful(cfg, AssetFor(w, m).value)
  {
    hide BuiltAsset, StateAt, OffsetAfter, ClampOffset, NewestOf, StrictPerSignal, LastN, ValuesFor, Fits, ReachedBy;
    if m.asset in w.assets {
      var a := w.assets[m.asset];
      assert Faithful(cfg, a);
      SameRecorded(a, AssetFor(w, m).value);
    } else {
      BuiltFaithful(cfg, m.asset, m.site, w.templates[m.class_], map[], 0.0, 0.0, w.env.nextId);
    }
  }

  lemma IngestAssetFaithful(cfg: Config, f: Faults, w: World, tally: Tally, ms: seq<Metric>)
    requires WorldShape(w) && AllFaithful(cfg, w) && ms != []
    ensures WorldShape(IngestAsset(cfg, f, w, tally, ms).world)
            && AllFaithful(cfg, IngestAsset(cfg, f, w, tally, ms).world)
  {
    hide IngestGroup, WellFormed, AssetFor, Faithful;
    IngestAssetShape(cfg, f, w, tally, ms);
    if AssetFor(w, ms[0]).Some? {
      AssetForShape(w, ms[0]);
      AssetForFaithful(cfg, w, ms[0]);
      GroupKeepsHistory(cfg, f, Progress(w.env, AssetFor(w, ms[0]).value, tally, true), ZERO_TIME, ms);
    }
  }

  lemma {:induction false} IngestAssetsFaithful(
      cfg: Config, f: Faults, w: World, tally: Tally, ids: seq<string>, ms: seq<Metric>)
    requires WorldShape(w) && AllFaithful(cfg, w) && forall id :: id in ids ==> GroupOf(ms, id) != []
    ensures var w' := IngestAssets(cfg, f, w, tally, ids, ms).world; WorldShape(w') && AllFaithful(cfg, w')
    decreases |ids|
  {
    hide WorldShape, AllFaithful, IngestAsset, SortByTime;
    if ids != [] {
      var group := SortByTime(GroupOf(ms, ids[0]));
      IngestAssetShape(cfg, f, w, tally, group);
      IngestAssetFaithful(cfg, f, w, tally, group);
      var r := IngestAsset(cfg, f, w, tally, group);
      if r.ok {
        IngestAssetsFaithful(cfg, f, r.world, r.tally, ids[1..], ms);
      }
    }
  }

  lemma IngestFaithful(cfg: Config, f: Faults, w: World, batch: seq<Metric>)
    requires WorldShape(w) && AllFaithful(cfg, w)
    ensures var w' := Ingest(cfg, f, w, batch).world; WorldShape(w') && AllFaithful(cfg, w')
  {
    hide WorldShape, AllFaithful, IngestAssets, ValidOf, AssetsOf, GroupOf;
    var ms := ValidOf(batch);
    ValidLength(batch);
    AssetsHaveGroups(ms);
    IngestAssetsFaithful(cfg, f, w, NOTHING.(rejected := |batch| - |ms|), AssetsOf(ms), ms);
  }

  lemma FeedbackFaithful(cfg: Config, f: Faults, w: World, id: Id, v: Verdict)
    requires WorldShape(w) && AllFaithful(cfg, w)
    ensures var w' := Feedback(f, w, id, v).0; WorldShape(w') && AllFaithful(cfg, w')
  {
    hide JudgeAlert, Faithful, WellFormed, Judged;
    FeedbackShape(f, w, id, v);
    if Judges(f, w, id) {
      var alert := w.env.alerts[id];
      JudgeEffect(f, w.(env := Called(w.env)), alert, v);
      if alert.asset in w.assets {
        JudgedFaithful(cfg, w.assets[alert.asset], alert.id, v);
      }
    }
  }

  lemma TemplateFaithful(cfg: Config, f: Faults, w: World, t: Template)
    requires WorldShape(w) && AllFaithful(cfg, w)
    ensures var w' := PutTemplate(f, w, t).0; WorldShape(w') && AllFaithful(cfg, w')
  {
    hide Rebuilt, Faithful, WellFormed;
    TemplateShape(f, w, t);
    if t.Valid() {
      forall id | id in w.assets
        ensures WellFormed(Rebuilt(w.assets[id], t, w.env.nextId))
                && Faithful(cfg, Rebuilt(w.assets[id], t, w.env.nextId))
      {
        RebuiltFaithful(cfg, w.assets[id], t, w.env.nextId);
      }
    }
  }

  lemma RestartFaithful(cfg: Config, w: World)
    requires WorldShape(w) && ConfigOk(cfg)
    ensures WorldShape(Restarted(cfg, w)) && AllFaithful(cfg, Restarted(cfg, w))
  {
    hide BuiltAsset, Faithful, WellFormed;
    RestartShape(cfg, w);
    var templates := cfg.defaults + w.env.templates;
    forall id | id in w.env.snapshots && w.env.snapshots[id].class_ in templates
      ensures var s := w.env.snapshots[id];
              var a := BuiltAsset(id, s.site, templates[s.class_], s.baselines, s.offset, s.age, w.env.nextId);
              WellFormed(a) && Faithful(cfg, a)
    {
      var s := w.env.snapshots[id];
      BuiltFaithful(cfg, id, s.site, templates[s.class_], s.baselines, s.offset, s.age, w.env.nextId);
    }
  }

  lemma PerformFaithful(cfg: Config, f: Faults, w: World, op: Op)
    requires WorldShape(w) && AllFaithful(cfg, w) && ConfigOk(cfg)
    ensures WorldShape(Perform(cfg, f, w, op)) && AllFaithful(cfg, Perform(cfg, f, w, op))
  {
    hide WorldShape, AllFaithful, Feedback, PutTemplate, Restarted, Ingest;
    match op
    case DoIngest(batch) => IngestFaithful(cfg, f, w, batch);
    case DoFeedback(id, v) => FeedbackFaithful(cfg, f, w, id, v);
    case DoTemplate(t) => TemplateFaithful(cfg, f, w, t);
    case DoRestart => RestartFaithful(cfg, w);
  }

  lemma {:induction false} RunFaithful(cfg: Config, f: Faults, w0: World, ops: seq<Op>)
    requires WorldShape(w0) && AllFaithful(cfg, w0) && ConfigOk(cfg)
    ensures AllFaithful(cfg, Run(cfg, f, w0, ops))
  {
    hide WorldShape, AllFaithful, Perform;
    if ops != [] {
      RunFaithful(cfg, f, w0, ops[..|ops| - 1]);
      PerformFaithful(cfg, f, Run(cfg, f, w0, ops[..|ops| - 1]), ops[|ops| - 1]);
    }
  }

  lemma BeginFaithful(cfg: Config)
    requires ConfigOk(cfg)
    ensures WorldShape(Begin(cfg)) && AllFaithful(cfg, Begin(cfg))
  {
  }

  /**
    In every state reachable from a first start, with batches, feedback, template
    updates and restarts in any order and any store or maintenance call failing,
    every asset satisfies: accepted timestamps strictly increase per signal, and
    the replay guard holds the newest of each; every window holds, oldest first,
    exactly the newest converted values accepted since the last rebuild;
    evaluation times strictly increase since then; the policy is the one at the
    rebuild, with a fresh limiter, run on the recorded evaluations; and its offset
    is the clamped fold of the recorded verdicts, inside its bounds.
   */
  lemma AssetsAreFaithful(cfg: Config, f: Faults, ops: seq<Op>, id: string)
    requires ConfigOk(cfg)
    requires (BeginFaithful(cfg); id in Run(cfg, f, Begin(cfg), ops).assets)
    ensures var a := (BeginFaithful(cfg); Run(cfg, f, Begin(cfg), ops).assets[id]);
            var h := a.history;
            && a.id == id && WellFormed(a) && h.rebuilt <= |h.accepted|
            && (forall i, j :: 0 <= i < j < |h.accepted| && h.accepted[i].signal == h.accepted[j].signal ==>
                  h.accepted[i].ts < h.accepted[j].ts)
            && a.lastTS == NewestOf(h.accepted)
            && (forall g :: g in a.tpl.specs && !IsRuntimeSignal(a, g) ==>
                  a.samples[g] == LastN(ValuesFor(cfg.units, a.tpl.specs[g].unit, g, h.accepted[h.rebuilt..]),
                    a.tpl.specs[g].window))
            && (forall i, j :: 0 <= i < j < |h.evaluations| ==> h.evaluations[i].now < h.evaluations[j].now)
            && (forall i :: 0 <= i < |h.evaluations| ==> h.evaluations[i].now <= a.lastEval)
            && h.origin.p == a.policy.p == a.tpl.alerting && h.origin.limiter == FreshLimiter(a.policy.p)
            && Plain(a.policy) == Plain(StateAt(h.origin, h.evaluations, |h.evaluations|))
            && Abs(a.policy.offset) <= a.policy.p.adaptation.maxOffset
            && a.policy.offset == OffsetAfter(a.policy.p, h.origin.offset, Verdicts(h.judged))
  {
    BeginFaithful(cfg);
    hide Run, Begin, StateAt, OffsetAfter, LastN, ValuesFor, NewestOf, Fits, Template.Valid, WorldShape, FreshLimiter;
    RunIsFaithful(cfg, f, ops, id);
    var a := Run(cfg, f, Begin(cfg), ops).assets[id];
    OffsetInBounds(a);
  }

  lemma OffsetInBounds(a: Asset)
    requires a.tpl.Valid() && Traced(a)
    ensures Abs(a.policy.offset) <= a.policy.p.adaptation.maxOffset
  {
    hide StateAt, OffsetAfter, FreshLimiter;
  }

  lemma RunIsFaithful(cfg: Config, f: Faults, ops: seq<Op>, id: string)
    requires ConfigOk(cfg)
    requires (BeginFaithful(cfg); id in Run(cfg, f, Begin(cfg), ops).assets)
    ensures WorldShape(Begin(cfg))
    ensures var a := Run(cfg, f, Begin(cfg), ops).assets[id];
            a.id == id && WellFormed(a) && a.tpl.Valid() && a.samples.Keys == a.tpl.specs.Keys && Faithful(cfg, a)
  {
    BeginFaithful(cfg);
    hide Run, Begin, Faithful, Template.Valid;
    RunFaithful(cfg, f, Begin(cfg), ops);
  }
}
