/**
  A verdict is final: whatever fails and whatever happens, the status of a stored
  alert only moves from open to the verdict of a feedback call for it, once.
 */
module EngineVerdicts {
  import opened Common
  import opened Policy
  import opened WorkOrders
  import opened EngineModel
  import opened EngineEffects
  import opened EngineWorld
  import opened EngineSafety
  import opened Pipeline
  import EngineHistory
  import Fusion

  /** Every alert is still stored, with the same status. */
  ghost predicate StatusKept(alerts: map<Id, Alert>, alerts': map<Id, Alert>) {
    forall x :: x in alerts ==> x in alerts' && alerts'[x].status == alerts[x].status
  }

  lemma KeptTwice(a: map<Id, Alert>, b: map<Id, Alert>, c: map<Id, Alert>)
    requires StatusKept(a, b) && StatusKept(b, c)
    ensures StatusKept(a, c)
  {
  }

  lemma RaiseKeepsStatus(env: Env, env': Env, asset: string, alert: Alert)
    requires RaiseEffect(env, env', asset, alert) && alert.id in env.alerts && env.alerts[alert.id] == alert
    ensures StatusKept(env.alerts, env'.alerts)
  {
    hide OrderAdded, CmmsStep;
  }

  lemma FireKeepsStatus(f: Faults, s: Progress, ts: Time, as_: Fusion.Assessment, top: string)
    requires AlertsKeyed(s.env)
    ensures StatusKept(s.env.alerts, OnFire(f, s, ts, as_, top).env.alerts)
  {
    hide OnFire, RaiseEffect;
    FireHasEffect(f, s, ts, as_, top);
    var s', alert := OnFire(f, s, ts, as_, top), NewAlert(s.env, s.asset, ts, as_, top);
    if s'.ok {
      var mid := s.env.(nextId := alert.id + 1, calls := s.env.calls + 1, alerts := s.env.alerts[alert.id := alert]);
      RaiseKeepsStatus(mid, s'.env, s.asset.id, alert);
    }
  }

  lemma HoldKeepsStatus(cfg: Config, f: Faults, s: Progress)
    requires AlertsKeyed(s.env) && s.ok
    ensures StatusKept(s.env.alerts, OnHold(cfg, f, s).env.alerts)
  {
    hide OnHold, RaiseEffect;
    HoldHasEffect(cfg, f, s);
    var s' := OnHold(cfg, f, s);
    if s' != s && s'.ok {
      RaiseKeepsStatus(s.env, s'.env, s.asset.id, s.env.alerts[s.asset.openAlert.value]);
    }
  }

  lemma DecideKeepsStatus(cfg: Config, f: Faults, s: Progress, ts: Time, as_: Fusion.Assessment, top: string)
    requires AlertsKeyed(s.env)
    ensures StatusKept(s.env.alerts, Decide(cfg, f, s, ts, as_, top).env.alerts)
  {
    hide FeedPolicy, OnFire, OnHold, OnClear;
    FeedPolicyFrame(s, ts, as_.risk);
    var (s1, outcome) := FeedPolicy(s, ts, as_.risk);
    match outcome
    case Fire => FireKeepsStatus(f, s1, ts, as_, top);
    case Hold => HoldKeepsStatus(cfg, f, s1);
    case Clear => ClearHasEffect(f, s1, ts);
    case _ =>
  }

  lemma EvaluateKeepsStatus(cfg: Config, f: Faults, s: Progress, ts: Time)
    requires WellFormed(s.asset) && AlertsKeyed(s.env)
    ensures StatusKept(s.env.alerts, EvaluateIfReady(cfg, f, s, ts).env.alerts)
  {
    if Evaluates(s.asset, ts) {
      hide Examine, Decide;
      ExamineFrame(cfg, f, s, ts);
      var x := Examine(cfg, f, s, ts);
      DecideKeepsStatus(cfg, f, x.s, ts, x.assessment, x.top);
    }
  }

  lemma {:induction false} GroupKeepsStatus(cfg: Config, f: Faults, s: Progress, pending: Time, ms: seq<Metric>)
    requires WellFormed(s.asset) && EnvInv(cfg, s.env) && AssetInv(cfg, s.env, s.asset)
    ensures StatusKept(s.env.alerts, IngestGroup(cfg, f, s, pending, ms).env.alerts)
    decreases |ms|
  {
    hide EvaluateIfReady, PushMetric, WellFormed, EnvInv, AssetInv, Touches, AlertsKeyed, StatusKept;
    NothingChanged(s.env.alerts);
    EvaluateShape(cfg, f, s, pending);
    EvaluateKeeps(cfg, f, s, pending);
    EnvIsKeyed(cfg, s.env);
    EvaluateKeepsStatus(cfg, f, s, pending);
    if ms != [] {
      var m := ms[0];
      var s1 := if pending != ZERO_TIME && m.ts > pending then EvaluateIfReady(cfg, f, s, pending) else s;
      if s1.ok {
        PushShape(cfg, s1.asset, m);
        PushKeepsInv(cfg, s1.env, s1.asset, m);
        var (a, pushed) := PushMetric(cfg, s1.asset, m);
        var s2 := s1.(asset := a, tally := Count(s1.tally, pushed));
        GroupKeepsStatus(cfg, f, s2, m.ts, ms[1..]);
        KeptTwice(s.env.alerts, s1.env.alerts, IngestGroup(cfg, f, s2, m.ts, ms[1..]).env.alerts);
      }
    }
  }

  lemma NothingChanged(alerts: map<Id, Alert>)
    ensures StatusKept(alerts, alerts)
  {
  }

  lemma IngestAssetKeepsStatus(cfg: Config, f: Faults, w: World, tally: Tally, ms: seq<Metric>)
    requires WorldShape(w) && WorldInv(cfg, w) && ms != []
    ensures StatusKept(w.env.alerts, IngestAsset(cfg, f, w, tally, ms).world.env.alerts)
  {
    hide IngestGroup, WellFormed, AssetFor, EnvInv, AssetInv;
    if AssetFor(w, ms[0]).Some? {
      AssetForShape(w, ms[0]);
      AssetForInv(cfg, w, ms[0]);
      GroupKeepsStatus(cfg, f, Progress(w.env, AssetFor(w, ms[0]).value, tally, true), ZERO_TIME, ms);
    }
  }

  lemma {:induction false} IngestAssetsKeepStatus(
      cfg: Config, f: Faults, w: World, tally: Tally, ids: seq<string>, ms: seq<Metric>)
    requires WorldShape(w) && WorldInv(cfg, w) && forall id :: id in ids ==> GroupOf(ms, id) != []
    ensures StatusKept(w.env.alerts, IngestAssets(cfg, f, w, tally, ids, ms).world.env.alerts)
    decreases |ids|
  {
    hide WorldShape, WorldInv, IngestAsset, SortByTime, StatusKept;
    NothingChanged(w.env.alerts);
    if ids != [] {
      var group := SortByTime(GroupOf(ms, ids[0]));
      IngestAssetShape(cfg, f, w, tally, group);
      IngestAssetKeeps(cfg, f, w, tally, group);
      IngestAssetKeepsStatus(cfg, f, w, tally, group);
      var r := IngestAsset(cfg, f, w, tally, group);
      if r.ok {
        IngestAssetsKeepStatus(cfg, f, r.world, r.tally, ids[1..], ms);
        KeptTwice(w.env.alerts, r.world.env.alerts,
          IngestAssets(cfg, f, r.world, r.tally, ids[1..], ms).world.env.alerts);
      }
    }
  }

  lemma IngestKeepsStatus(cfg: Config, f: Faults, w: World, batch: seq<Metric>)
    requires WorldShape(w) && WorldInv(cfg, w)
    ensures StatusKept(w.env.alerts, Ingest(cfg, f, w, batch).world.env.alerts)
  {
    hide WorldShape, WorldInv, IngestAssets, ValidOf, AssetsOf, GroupOf, StatusKept;
    var ms := ValidOf(batch);
    ValidLength(batch);
    AssetsHaveGroups(ms);
    IngestAssetsKeepStatus(cfg, f, w, NOTHING.(rejected := |batch| - |ms|), AssetsOf(ms), ms);
  }

  /** The one legal move of a status in one operation. */
  ghost predicate MovesBy(op: Op, alerts: map<Id, Alert>, alerts': map<Id, Alert>) {
    forall x :: x in alerts ==>
      && x in alerts'
      && (alerts'[x].status == alerts[x].status
          || (alerts[x].status.AlertOpen? && op.DoFeedback? && op.alert == x
             && alerts'[x].status == StatusFor(op.verdict)))
  }

  lemma FeedbackMoves(cfg: Config, f: Faults, w: World, id: Id, v: Verdict)
    requires WorldShape(w) && WorldInv(cfg, w)
    ensures MovesBy(DoFeedback(id, v), w.env.alerts, Feedback(f, w, id, v).0.env.alerts)
  {
    hide JudgeAlert, WellFormed, CmmsOk, CallsBounded, OneOpenEach, OrdersKeyed, AssetInv, Judged;
    if Judges(f, w, id) {
      JudgeEffect(f, w.(env := Called(w.env)), w.env.alerts[id], v);
    }
  }

  lemma StatusMoves(cfg: Config, f: Faults, w: World, op: Op)
    requires WorldShape(w) && WorldInv(cfg, w)
    ensures MovesBy(op, w.env.alerts, Perform(cfg, f, w, op).env.alerts)
  {
    hide WorldShape, WorldInv, Feedback, Ingest, Rebuilt, BuiltAsset;
    match op
    case DoIngest(batch) => IngestKeepsStatus(cfg, f, w, batch);
    case DoFeedback(id, v) => FeedbackMoves(cfg, f, w, id, v);
    case DoTemplate(t) =>
    case DoRestart =>
  }

  /**
    Once an alert has a verdict it keeps it: if an alert is stored and judged after
    the first `n` operations of a run, it is stored with the same status at the
    end, with any operations in between and any call failing.
   */
  lemma {:induction false} VerdictsAreFinal(cfg: Config, f: Faults, ops: seq<Op>, n: nat, x: Id)
    requires ConfigOk(cfg) && n <= |ops|
    ensures WorldShape(Begin(cfg))
    ensures var early, late := Run(cfg, f, Begin(cfg), ops[..n]).env.alerts, Run(cfg, f, Begin(cfg), ops).env.alerts;
            x in early && !early[x].status.AlertOpen? ==> x in late && late[x].status == early[x].status
    decreases |ops|
  {
    BeginInv(cfg);
    hide Perform, WorldShape, WorldInv, Begin;
    if n == |ops| {
      assert ops[..n] == ops;
    } else {
      var front := ops[..|ops| - 1];
      VerdictsAreFinal(cfg, f, front, n, x);
      assert front[..n] == ops[..n];
      RunKeeps(cfg, f, Begin(cfg), front);
      StatusMoves(cfg, f, Run(cfg, f, Begin(cfg), front), ops[|ops| - 1]);
    }
  }

  /**
    A learned offset survives a restart: after a verdict was applied, an engine
    started over the same store brings the asset back with the offset the verdict
    left, and with its site and runtime, as long as its class keeps its template.
   */
  lemma VerdictSurvivesRestart(cfg: Config, f: Faults, w: World, alert: Alert, v: Verdict)
    requires alert.asset in w.assets && w.assets[alert.asset].id == alert.asset && StoreWorks(f)
    requires var a, templates := w.assets[alert.asset], cfg.defaults + w.env.templates;
             a.tpl.Valid() && a.policy.p == a.tpl.alerting && a.class_ in templates && templates[a.class_] == a.tpl
    ensures var w' := JudgeAlert(f, w, alert, v).0;
            && alert.asset in Restarted(cfg, w').assets
            && var before, after := w'.assets[alert.asset], Restarted(cfg, w').assets[alert.asset];
               && after.policy.offset == before.policy.offset && after.age == before.age && after.site == before.site
  {
    hide FreshDetectors, CancelOrder, Template.Valid, NewPolicy;
    JudgeEffect(f, w, alert, v);
    var a := Judged(w.assets[alert.asset], alert.id, v);
    var w' := JudgeAlert(f, w, alert, v).0;
    JudgeKeepsSnapshot(f, w, alert, v);
    assert w'.assets[alert.asset] == a;
    ValidAlerting(a.tpl);
    EngineHistory.ClampTwice(a.policy.p, Wanted(a.policy.p, w.assets[alert.asset].policy.offset, v));
    NewPolicyParams(a.tpl.alerting);
  }

  lemma ValidAlerting(tpl: Template)
    requires tpl.Valid()
    ensures tpl.alerting.Valid()
  {
  }

  lemma NewPolicyParams(p: Params)
    ensures NewPolicy(p).p == p
  {
  }

  /** The snapshot saved with a verdict is the judged asset's. */
  lemma JudgeKeepsSnapshot(f: Faults, w: World, alert: Alert, v: Verdict)
    requires alert.asset in w.assets && StoreWorks(f)
    ensures var a, env := Judged(w.assets[alert.asset], alert.id, v), JudgeAlert(f, w, alert, v).0.env;
            && a.id in env.snapshots && env.templates == w.env.templates
            && env.snapshots[a.id].class_ == a.class_ && env.snapshots[a.id].offset == a.policy.offset
            && env.snapshots[a.id].site == a.site && env.snapshots[a.id].age == a.age
  {
    hide CancelOrder, Judged;
    var a := Judged(w.assets[alert.asset], alert.id, v);
    if alert.workOrder.Some? {
      CancelFrame(f, EngineModel.SaveSnapshot(f, w.env, a).0, alert.workOrder.value);
    }
  }
}
