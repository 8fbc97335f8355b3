/**
  What no continuation brings back. An instant that has been evaluated, even by
  an evaluation that failed, never gets an alert later; and while an episode whose
  alert was lost has not cleared, its asset stores no alert at all.
 */
module EngineLost {
  import opened Common
  import opened Policy
  import opened PolicyRuns
  import opened WorkOrders
  import opened Pipeline
  import opened EngineModel
  import opened EngineEffects
  import opened EngineWorld
  import opened EngineSafety
  import opened EngineFaults
  import opened EngineHistory
  import Extractor
  import Fusion

  // ----- An episode without its alert -----

  /** The episode alerts, and no alert is open for it: saving its alert failed. */
  predicate LostEpisode(a: Asset) {
    a.policy.state.Active? && a.policy.alerted && a.openAlert.None?
  }

  /**
    While such an episode lasts, an evaluation calls neither the store nor the
    maintenance system for it, counts nothing and cannot fail; it leaves the
    episode as it is, or clears it.
   */
  lemma LostEpisodeIsSilent(cfg: Config, f: Faults, s: Progress, ts: Time, as_: Fusion.Assessment, top: string)
    requires s.ok && LostEpisode(s.asset)
    ensures var s', o := Decide(cfg, f, s, ts, as_, top), FeedPolicy(s, ts, as_.risk).1;
            && s'.ok && s'.tally == s.tally && s'.env == s.env.(sites := s'.env.sites)
            && (o.Hold? || o.Clear?)
            && (o.Hold? ==> LostEpisode(s'.asset))
            && (o.Clear? ==> s'.asset.policy.state.Normal? && s'.asset.openAlert.None?)
  {
    hide FeedPolicy, Evaluate, SiteLimiter;
    FeedPolicyFrame(s, ts, as_.risk);
    OutcomeStates(s.asset.policy, ts, as_.risk, SiteLimiter(s.env, s.asset));
    ClearLeavesNormal(s.asset.policy, ts, as_.risk, SiteLimiter(s.env, s.asset));
  }

  lemma ClearLeavesNormal(p: PolicyState, now: Time, risk: real, site: Option<RateLimit.Limiter>)
    ensures var (p', d, _) := Evaluate(p, now, risk, site); d.outcome.Clear? ==> p'.state.Normal?
  {
    hide Mean, EffectiveThreshold, Admit;
  }

  // ----- The alerts of one asset move on -----

  /** Alerts stay with their asset and event time; a new one is this asset's, at `ts`. */
  ghost predicate AddsAt(alerts: map<Id, Alert>, alerts': map<Id, Alert>, id: string, ts: Time) {
    && (forall x :: x in alerts ==>
          x in alerts' && alerts'[x].asset == alerts[x].asset && alerts'[x].eventTime == alerts[x].eventTime)
    && forall x :: x in alerts' && x !in alerts ==> alerts'[x].asset == id && alerts'[x].eventTime == ts
  }

  lemma RaiseAdds(env: Env, env': Env, asset: string, alert: Alert, ts: Time)
    requires RaiseEffect(env, env', asset, alert) && alert.id in env.alerts && env.alerts[alert.id] == alert
    ensures AddsAt(env.alerts, env'.alerts, asset, ts)
  {
    hide OrderAdded, CmmsStep;
  }

  lemma FireAdds(f: Faults, s: Progress, ts: Time, as_: Fusion.Assessment, top: string)
    requires AlertsKeyed(s.env)
    ensures AddsAt(s.env.alerts, OnFire(f, s, ts, as_, top).env.alerts, s.asset.id, ts)
  {
    hide OnFire, RaiseEffect;
    FireHasEffect(f, s, ts, as_, top);
    var s', alert := OnFire(f, s, ts, as_, top), NewAlert(s.env, s.asset, ts, as_, top);
    if s'.ok {
      var mid := s.env.(nextId := alert.id + 1, calls := s.env.calls + 1, alerts := s.env.alerts[alert.id := alert]);
      RaiseAdds(mid, s'.env, s.asset.id, alert, ts);
    }
  }

  lemma HoldAdds(cfg: Config, f: Faults, s: Progress, ts: Time)
    requires AlertsKeyed(s.env) && s.ok
    ensures AddsAt(s.env.alerts, OnHold(cfg, f, s).env.alerts, s.asset.id, ts)
  {
    hide OnHold, RaiseEffect;
    HoldHasEffect(cfg, f, s);
    var s' := OnHold(cfg, f, s);
    if s' != s && s'.ok {
      RaiseAdds(s.env, s'.env, s.asset.id, s.env.alerts[s.asset.openAlert.value], ts);
    }
  }

  lemma DecideAdds(cfg: Config, f: Faults, s: Progress, ts: Time, as_: Fusion.Assessment, top: string)
    requires AlertsKeyed(s.env)
    ensures AddsAt(s.env.alerts, Decide(cfg, f, s, ts, as_, top).env.alerts, s.asset.id, ts)
  {
    hide FeedPolicy, OnFire, OnHold, OnClear;
    FeedPolicyFrame(s, ts, as_.risk);
    var (s1, outcome) := FeedPolicy(s, ts, as_.risk);
    match outcome
    case Fire => FireAdds(f, s1, ts, as_, top);
    case Hold => HoldAdds(cfg, f, s1, ts);
    case Clear => ClearHasEffect(f, s1, ts);
    case _ =>
  }

  /** The evaluations recorded of `a'` since `a` did not clear an episode. */
  ghost predicate NoClear(a: Asset, a': Asset) {
    forall i :: |a.history.evaluations| <= i < |a'.history.evaluations| ==>
      !OutcomeAt(a'.history.origin, a'.history.evaluations, i).Clear?
  }

  /** The stored alerts of an asset. */
  ghost function AlertsOf(alerts: map<Id, Alert>, id: string): set<Id> {
    set x | x in alerts && alerts[x].asset == id
  }

  /**
    From one state of an asset and its alerts to a later one, without a rebuild:
    every alert that is new belongs to an instant not yet evaluated at the start;
    and as long as no episode clears, an episode that lost its alert stays so, and
    no alert is new.
   */
  ghost predicate Onward(alerts: map<Id, Alert>, a: Asset, alerts': map<Id, Alert>, a': Asset) {
    && a'.id == a.id && a.lastEval <= a'.lastEval
    && a'.history.origin == a.history.origin && a.history.evaluations <= a'.history.evaluations
    && (forall x :: x in AlertsOf(alerts, a.id) ==>
          x in AlertsOf(alerts', a.id) && alerts'[x].eventTime == alerts[x].eventTime)
    && (forall x :: x in AlertsOf(alerts', a.id) - AlertsOf(alerts, a.id) ==> alerts'[x].eventTime > a.lastEval)
    && (LostEpisode(a) && NoClear(a, a') ==>
          LostEpisode(a') && AlertsOf(alerts', a.id) == AlertsOf(alerts, a.id))
  }

  lemma {:induction false} PrefixState(s0: PolicyState, run: seq<Obs>, run': seq<Obs>, i: nat)
    requires run <= run' && i <= |run|
    ensures StateAt(s0, run', i) == StateAt(s0, run, i)
  {
    hide Step;
    if i > 0 {
      PrefixState(s0, run, run', i - 1);
    }
  }

  lemma PrefixNoClear(a: Asset, b: Asset, c: Asset)
    requires b.history.origin == c.history.origin && NoClear(a, c)
    requires a.history.evaluations <= b.history.evaluations <= c.history.evaluations
    ensures NoClear(a, b) && NoClear(b, c)
  {
    forall i | |a.history.evaluations| <= i < |b.history.evaluations|
      ensures !OutcomeAt(b.history.origin, b.history.evaluations, i).Clear?
    {
      PrefixState(b.history.origin, b.history.evaluations, c.history.evaluations, i);
      assert !OutcomeAt(c.history.origin, c.history.evaluations, i).Clear?;
    }
  }

  lemma OnwardTwice(
      w1: map<Id, Alert>, a1: Asset, w2: map<Id, Alert>, a2: Asset, w3: map<Id, Alert>, a3: Asset)
    requires Onward(w1, a1, w2, a2) && Onward(w2, a2, w3, a3)
    ensures Onward(w1, a1, w3, a3)
  {
    hide NoClear;
    if NoClear(a1, a3) {
      PrefixNoClear(a1, a2, a3);
    }
  }

  /** Nothing happened to the asset's policy and its alerts. */
  lemma StillOnward(alerts: map<Id, Alert>, a: Asset, alerts': map<Id, Alert>, a': Asset)
    requires a'.id == a.id && a'.lastEval == a.lastEval && a'.openAlert == a.openAlert
    requires a'.policy.state == a.policy.state && a'.policy.alerted == a.policy.alerted
    requires a'.history.origin == a.history.origin && a'.history.evaluations == a.history.evaluations
    requires AlertsOf(alerts', a.id) == AlertsOf(alerts, a.id)
    requires forall x :: x in AlertsOf(alerts, a.id) ==> alerts'[x].eventTime == alerts[x].eventTime
    ensures Onward(alerts, a, alerts', a')
  {
    hide AlertsOf;
  }

  lemma DecideRecords(cfg: Config, f: Faults, s: Progress, ts: Time, as_: Fusion.Assessment, top: string)
    requires Traced(s.asset) && s.ok
    ensures var a, a' := s.asset, Decide(cfg, f, s, ts, as_, top).asset;
            && a'.id == a.id && a'.lastEval == a.lastEval
            && a'.history.origin == a.history.origin && a.history.evaluations <= a'.history.evaluations
            && |a'.history.evaluations| == |a.history.evaluations| + 1
            && OutcomeAt(a'.history.origin, a'.history.evaluations, |a.history.evaluations|)
               == FeedPolicy(s, ts, as_.risk).1
  {
    hide FeedPolicy, React, Traced, Evaluate, SiteLimiter;
    FeedPolicyFrame(s, ts, as_.risk);
    FeedKeepsTrace(s, ts, as_.risk);
    var (s1, o) := FeedPolicy(s, ts, as_.risk);
    ReactKeepsTrace(cfg, f, s1, ts, as_, top, o);
    SameRecord(s1.asset, React(cfg, f, s1, ts, as_, top, o).asset);
  }

  lemma SameRecord(a: Asset, a': Asset)
    requires KeepsTrace(a, a')
    ensures a'.id == a.id && a'.lastEval == a.lastEval
    ensures a'.history.origin == a.history.origin && a'.history.evaluations == a.history.evaluations
  {
    assert InputsOf(a').id == InputsOf(a).id && InputsOf(a').lastEval == InputsOf(a).lastEval;
    assert a'.history.(raised := a.history.raised).origin == a.history.origin;
    assert a'.history.(raised := a.history.raised).evaluations == a.history.evaluations;
  }

  lemma DecideOnward(
      cfg: Config, f: Faults, s: Progress, a0: Asset, ts: Time, as_: Fusion.Assessment, top: string)
    requires AlertsKeyed(s.env) && Traced(s.asset) && s.ok
    requires a0.id == s.asset.id && a0.lastEval < s.asset.lastEval == ts && a0.policy == s.asset.policy
    requires a0.history == s.asset.history && a0.openAlert == s.asset.openAlert
    ensures var s' := Decide(cfg, f, s, ts, as_, top); Onward(s.env.alerts, a0, s'.env.alerts, s'.asset)
  {
    hide Decide, FeedPolicy, Traced, AlertsKeyed;
    DecideRecords(cfg, f, s, ts, as_, top);
    DecideAdds(cfg, f, s, ts, as_, top);
    if LostEpisode(s.asset) {
      LostEpisodeIsSilent(cfg, f, s, ts, as_, top);
    }
  }

  lemma EvaluateOnward(cfg: Config, f: Faults, s: Progress, ts: Time)
    requires WellFormed(s.asset) && Faithful(cfg, s.asset) && AlertsKeyed(s.env)
    ensures var s' := EvaluateIfReady(cfg, f, s, ts); Onward(s.env.alerts, s.asset, s'.env.alerts, s'.asset)
  {
    hide Onward, Examine, Decide, Windowed, Guarded, Traced, Increasing, AlertsKeyed;
    if Evaluates(s.asset, ts) {
      ExamineFrame(cfg, f, s, ts);
      ExamineKeepsHistory(cfg, f, s, ts);
      var x := Examine(cfg, f, s, ts);
      if x.s.ok {
        KeyedToo(s.env, x.s.env);
        DecideOnward(cfg, f, x.s, s.asset, ts, x.assessment, x.top);
      } else {
        ExaminedOnward(s.env.alerts, s.asset, x.s.asset);
      }
    } else {
      StillOnward(s.env.alerts, s.asset, s.env.alerts, s.asset);
    }
  }

  lemma KeyedToo(env: Env, env': Env)
    requires AlertsKeyed(env) && env'.alerts == env.alerts && env'.nextId == env.nextId
    ensures AlertsKeyed(env')
  {
  }

  lemma ExaminedOnward(alerts: map<Id, Alert>, a: Asset, a': Asset)
    requires a'.id == a.id && a.lastEval <= a'.lastEval && a'.openAlert == a.openAlert
    requires a'.policy == a.policy && a'.history == a.history
    ensures Onward(alerts, a, alerts, a')
  {
  }

  lemma PushOnward(cfg: Config, alerts: map<Id, Alert>, a: Asset, m: Metric)
    requires WellFormed(a)
    ensures Onward(alerts, a, alerts, PushMetric(cfg, a, m).0)
  {
    hide Extractor.PushReading, Onward;
    StillOnward(alerts, a, alerts, PushMetric(cfg, a, m).0);
  }

  lemma {:induction false} GroupOnward(cfg: Config, f: Faults, s: Progress, pending: Time, ms: seq<Metric>)
    requires WellFormed(s.asset) && Faithful(cfg, s.asset) && EnvInv(cfg, s.env) && AssetInv(cfg, s.env, s.asset)
    ensures var s' := IngestGroup(cfg, f, s, pending, ms); Onward(s.env.alerts, s.asset, s'.env.alerts, s'.asset)
    decreases |ms|
  {
    hide EvaluateIfReady, PushMetric, WellFormed, Faithful, EnvInv, AssetInv, Onward;
    EnvIsKeyed(cfg, s.env);
    EvaluateShape(cfg, f, s, pending);
    EvaluateKeeps(cfg, f, s, pending);
    EvaluateKeepsHistory(cfg, f, s, pending);
    EvaluateOnward(cfg, f, s, pending);
    StillOnward(s.env.alerts, s.asset, s.env.alerts, s.asset);
    if ms != [] {
      var m := ms[0];
      var s1 := if pending != ZERO_TIME && m.ts > pending then EvaluateIfReady(cfg, f, s, pending) else s;
      if s1.ok {
        PushShape(cfg, s1.asset, m);
        PushKeepsInv(cfg, s1.env, s1.asset, m);
        PushKeepsHistory(cfg, s1.asset, m);
        PushOnward(cfg, s1.env.alerts, s1.asset, m);
        var (a, pushed) := PushMetric(cfg, s1.asset, m);
        var s2 := s1.(asset := a, tally := Count(s1.tally, pushed));
        GroupOnward(cfg, f, s2, m.ts, ms[1..]);
        var s3 := IngestGroup(cfg, f, s2, m.ts, ms[1..]);
        OnwardTwice(s.env.alerts, s.asset, s1.env.alerts, s1.asset, s2.env.alerts, a);
        OnwardTwice(s.env.alerts, s.asset, s2.env.alerts, a, s3.env.alerts, s3.asset);
      }
    }
  }

  // ----- Through whole operations -----

  ghost predicate OnwardFor(w: World, w': World, id: string) {
    id in w.assets && id in w'.assets && Onward(w.env.alerts, w.assets[id], w'.env.alerts, w'.assets[id])
  }

  lemma SameOnward(w: World, id: string)
    requires id in w.assets
    ensures OnwardFor(w, w, id)
  {
    hide Onward;
    StillOnward(w.env.alerts, w.assets[id], w.env.alerts, w.assets[id]);
  }

  lemma OnwardForTwice(w1: World, w2: World, w3: World, id: string)
    requires OnwardFor(w1, w2, id) && OnwardFor(w2, w3, id)
    ensures OnwardFor(w1, w3, id)
  {
    hide Onward;
    OnwardTwice(w1.env.alerts, w1.assets[id], w2.env.alerts, w2.assets[id], w3.env.alerts, w3.assets[id]);
  }

  /** The share of another asset leaves the alerts of this one alone. */
  lemma OthersOnward(env: Env, env': Env, other: string, a: Asset)
    requires Touches(env, env', other) && other != a.id
    ensures Onward(env.alerts, a, env'.alerts, a)
  {
    hide CallCount, Onward;
    assert AlertsOf(env'.alerts, a.id) == AlertsOf(env.alerts, a.id);
    StillOnward(env.alerts, a, env'.alerts, a);
  }

  lemma ShareOnward(cfg: Config, f: Faults, w: World, tally: Tally, ms: seq<Metric>, id: string)
    requires WorldShape(w) && WorldInv(cfg, w) && AllFaithful(cfg, w) && ms != [] && id in w.assets
    ensures OnwardFor(w, IngestAsset(cfg, f, w, tally, ms).world, id)
  {
    hide IngestGroup, WellFormed, AssetFor, EnvInv, AssetInv, Faithful, Onward, Touches;
    SameOnward(w, id);
    if AssetFor(w, ms[0]).Some? {
      AssetForShape(w, ms[0]);
      AssetForInv(cfg, w, ms[0]);
      AssetForFaithful(cfg, w, ms[0]);
      var s := Progress(w.env, AssetFor(w, ms[0]).value, tally, true);
      GroupKeepsShape(cfg, f, s, ZERO_TIME, ms);
      var s' := IngestGroup(cfg, f, s, ZERO_TIME, ms);
      if s.asset.id == id {
        GroupOnward(cfg, f, s, ZERO_TIME, ms);
        FoundOnward(w, ms[0]);
        OnwardTwice(w.env.alerts, w.assets[id], w.env.alerts, s.asset, s'.env.alerts, s'.asset);
      } else {
        GroupKeeps(cfg, f, s, ZERO_TIME, ms);
        OthersOnward(w.env, s'.env, s.asset.id, w.assets[id]);
      }
    }
  }

  /** Finding a known asset changes its site at most. */
  lemma FoundOnward(w: World, m: Metric)
    requires m.asset in w.assets && AssetFor(w, m).Some?
    ensures Onward(w.env.alerts, w.assets[m.asset], w.env.alerts, AssetFor(w, m).value)
  {
    hide Onward;
    StillOnward(w.env.alerts, w.assets[m.asset], w.env.alerts, AssetFor(w, m).value);
  }

  lemma {:induction false} SharesOnward(
      cfg: Config, f: Faults, w: World, tally: Tally, ids: seq<string>, ms: seq<Metric>, id: string)
    requires WorldShape(w) && WorldInv(cfg, w) && AllFaithful(cfg, w) && id in w.assets
    requires forall x :: x in ids ==> GroupOf(ms, x) != []
    ensures OnwardFor(w, IngestAssets(cfg, f, w, tally, ids, ms).world, id)
    decreases |ids|
  {
    hide WorldShape, WorldInv, AllFaithful, IngestAsset, SortByTime, Onward;
    SameOnward(w, id);
    if ids != [] {
      var group := SortByTime(GroupOf(ms, ids[0]));
      IngestAssetShape(cfg, f, w, tally, group);
      IngestAssetKeeps(cfg, f, w, tally, group);
      IngestAssetFaithful(cfg, f, w, tally, group);
      ShareOnward(cfg, f, w, tally, group, id);
      var r := IngestAsset(cfg, f, w, tally, group);
      if r.ok {
        SharesOnward(cfg, f, r.world, r.tally, ids[1..], ms, id);
        OnwardForTwice(w, r.world, IngestAssets(cfg, f, r.world, r.tally, ids[1..], ms).world, id);
      }
    }
  }

  lemma IngestOnward(cfg: Config, f: Faults, w: World, batch: seq<Metric>, id: string)
    requires WorldShape(w) && WorldInv(cfg, w) && AllFaithful(cfg, w) && id in w.assets
    ensures OnwardFor(w, Ingest(cfg, f, w, batch).world, id)
  {
    hide WorldShape, WorldInv, AllFaithful, IngestAssets, ValidOf, AssetsOf, GroupOf, OnwardFor;
    var ms := ValidOf(batch);
    ValidLength(batch);
    AssetsHaveGroups(ms);
    SharesOnward(cfg, f, w, NOTHING.(rejected := |batch| - |ms|), AssetsOf(ms), ms, id);
  }

  lemma FeedbackOnward(cfg: Config, f: Faults, w: World, alert: Id, v: Verdict, id: string)
    requires WorldShape(w) && WorldInv(cfg, w) && id in w.assets
    ensures OnwardFor(w, Feedback(f, w, alert, v).0, id)
  {
    hide JudgeAlert, WellFormed, CmmsOk, CallsBounded, OneOpenEach, OrdersKeyed, AssetInv, Onward;
    SameOnward(w, id);
    var w' := Feedback(f, w, alert, v).0;
    if Judges(f, w, alert) {
      JudgeEffect(f, w.(env := Called(w.env)), w.env.alerts[alert], v);
      assert AlertsOf(w'.env.alerts, id) == AlertsOf(w.env.alerts, id);
    }
    StillOnward(w.env.alerts, w.assets[id], w'.env.alerts, w'.assets[id]);
  }

  /** Batches and verdicts, in any order. */
  ghost predicate Continues(ops: seq<Op>) {
    forall i :: 0 <= i < |ops| ==> ops[i].DoIngest? || ops[i].DoFeedback?
  }

  lemma PerformOnward(cfg: Config, f: Faults, w: World, op: Op, id: string)
    requires WorldShape(w) && WorldInv(cfg, w) && AllFaithful(cfg, w) && id in w.assets
    requires op.DoIngest? || op.DoFeedback?
    ensures OnwardFor(w, Perform(cfg, f, w, op), id)
  {
    hide WorldShape, WorldInv, AllFaithful, Feedback, Ingest, OnwardFor;
    match op
    case DoIngest(batch) => IngestOnward(cfg, f, w, batch, id);
    case DoFeedback(alert, v) => FeedbackOnward(cfg, f, w, alert, v, id);
  }

  lemma {:induction false} RunOnward(cfg: Config, f: Faults, w: World, ops: seq<Op>, id: string)
    requires WorldShape(w) && WorldInv(cfg, w) && AllFaithful(cfg, w) && ConfigOk(cfg) && id in w.assets
    requires Continues(ops)
    ensures OnwardFor(w, Run(cfg, f, w, ops), id)
    decreases |ops|
  {
    hide WorldShape, WorldInv, AllFaithful, Perform, Onward;
    SameOnward(w, id);
    if ops != [] {
      var front := ops[..|ops| - 1];
      RunOnward(cfg, f, w, front, id);
      RunKeeps(cfg, f, w, front);
      RunFaithful(cfg, f, w, front);
      PerformOnward(cfg, f, Run(cfg, f, w, front), ops[|ops| - 1], id);
      OnwardForTwice(w, Run(cfg, f, w, front), Run(cfg, f, w, ops), id);
    }
  }

  lemma AfterFits(cfg: Config, f: Faults, ops: seq<Op>)
    requires ConfigOk(cfg)
    ensures WorldInv(cfg, After(cfg, f, ops)) && AllFaithful(cfg, After(cfg, f, ops))
  {
    BeginInv(cfg);
    BeginFaithful(cfg);
    hide Run, Begin, WorldInv, AllFaithful, WorldShape;
    RunKeeps(cfg, f, Begin(cfg), ops);
    RunFaithful(cfg, f, Begin(cfg), ops);
  }

  /**
    What an abort has lost stays lost. From any reachable state, over any batches
    and verdicts that follow and whatever fails in them: an instant up to the last
    evaluation of an asset, whether that succeeded or not, gets no alert any more;
    and until an evaluation clears it, an episode whose alert was lost stays
    without one, and its asset stores no alert at all.
   */
  lemma LostStaysLost(cfg: Config, f: Faults, before: seq<Op>, ops: seq<Op>, id: string)
    requires ConfigOk(cfg) && id in After(cfg, f, before).assets && Continues(ops)
    ensures var w := After(cfg, f, before);
            var w' := Run(cfg, f, w, ops);
            && id in w'.assets
            && var a, a' := w.assets[id], w'.assets[id];
               && a.lastEval <= a'.lastEval && a.history.evaluations <= a'.history.evaluations
               && (forall x :: x in w'.env.alerts && w'.env.alerts[x].asset == id && x !in w.env.alerts ==>
                     w'.env.alerts[x].eventTime > a.lastEval)
               && (LostEpisode(a) && NoClear(a, a') ==>
                     && LostEpisode(a')
                     && forall x :: x in w'.env.alerts && w'.env.alerts[x].asset == id ==> x in w.env.alerts)
  {
    hide Run, After, WellFormed, Faithful, WorldInv, NoClear;
    AfterFits(cfg, f, before);
    var w := After(cfg, f, before);
    RunOnward(cfg, f, w, ops, id);
    var w' := Run(cfg, f, w, ops);
    assert w.assets[id].id == id;
    assert forall x :: x in w'.env.alerts && w'.env.alerts[x].asset == id ==> x in AlertsOf(w'.env.alerts, id);
  }
}
