/**
  What holds in every reachable state, whatever fails: at most one open work
  order per asset and failure mode, one maintenance record per idempotency key,
  and a bounded number of create calls per alert.
 */
module EngineSafety {
  import opened Common
  import opened Policy
  import opened WorkOrders
  import opened Pipeline
  import opened Extractor
  import opened EngineModel
  import opened EngineEffects
  import opened EngineWorld
  import Fusion
  import RateLimit

  /** Number of create calls made for an alert. */
  function CallCount(calls: seq<Id>, alert: Id): nat {
    if calls == [] then 0 else CallCount(calls[..|calls| - 1], alert) + if calls[|calls| - 1] == alert then 1 else 0
  }

  /** Both open, for the same asset and failure mode. */
  predicate Rivals(a: WorkOrder, b: WorkOrder) {
    a.status.OrderOpen? && b.status.OrderOpen? && a.asset == b.asset && a.failureMode == b.failureMode
  }

  ghost predicate OneOpenEach(orders: map<Id, WorkOrder>) {
    forall i, j :: i in orders && j in orders && Rivals(orders[i], orders[j]) ==> i == j
  }

  ghost predicate AlertsKeyed(env: Env) {
    forall x :: x in env.alerts ==> env.alerts[x].id == x < env.nextId
  }

  ghost predicate OrdersKeyed(env: Env) {
    forall i :: i in env.orders ==> env.orders[i].id == i < env.nextId
  }

  ghost predicate CallsBounded(cfg: Config, env: Env) {
    forall x: Id :: CallCount(env.cmms.calls, x) <= 1 + cfg.maxRetry
                    && (x >= env.nextId ==> CallCount(env.cmms.calls, x) == 0)
  }

  ghost predicate EnvInv(cfg: Config, env: Env) {
    AlertsKeyed(env) && OrdersKeyed(env) && OneOpenEach(env.orders) && CmmsOk(env.cmms) && CallsBounded(cfg, env)
  }

  lemma EnvIsKeyed(cfg: Config, env: Env)
    requires EnvInv(cfg, env)
    ensures AlertsKeyed(env) && OrdersKeyed(env)
  {
    hide CmmsOk, OneOpenEach, CallsBounded, OrdersKeyed, AlertsKeyed;
  }

  /**
    The open alert is stored and is this asset's; a pending retry belongs to an
    active episode and its calls are counted.
   */
  ghost predicate AssetInv(cfg: Config, env: Env, a: Asset) {
    && (a.openAlert.Some? ==> a.openAlert.value in env.alerts && env.alerts[a.openAlert.value].asset == a.id)
    && (a.pendingTop != "" ==>
          && a.openAlert.Some? && a.policy.state.Active? && a.retry <= cfg.maxRetry
          && CallCount(env.cmms.calls, a.openAlert.value) <= 1 + a.retry)
  }

  ghost predicate WorldInv(cfg: Config, w: World) {
    EnvInv(cfg, w.env) && forall id :: id in w.assets ==> AssetInv(cfg, w.env, w.assets[id])
  }

  /** A step on behalf of one asset: other assets' alerts are left alone, and so are the calls made for them. */
  ghost predicate Touches(env: Env, env': Env, asset: string) {
    && env.nextId <= env'.nextId
    && (forall x :: x in env.alerts ==> x in env'.alerts && env'.alerts[x].asset == env.alerts[x].asset)
    && (forall x :: x in env.alerts && env.alerts[x].asset != asset ==>
          env'.alerts[x] == env.alerts[x] && CallCount(env'.cmms.calls, x) == CallCount(env.cmms.calls, x))
    && (forall x :: x in env'.alerts && x !in env.alerts ==> env'.alerts[x].asset == asset && x >= env.nextId)
  }

  lemma TouchesTwice(e1: Env, e2: Env, e3: Env, asset: string)
    requires Touches(e1, e2, asset) && Touches(e2, e3, asset)
    ensures Touches(e1, e3, asset)
  {
    hide CallCount;
  }

  lemma OthersKept(cfg: Config, env: Env, env': Env, asset: string, b: Asset)
    requires Touches(env, env', asset) && AssetInv(cfg, env, b) && b.id != asset
    ensures AssetInv(cfg, env', b)
  {
    hide CallCount;
  }

  lemma CountOne(calls: seq<Id>, alert: Id, x: Id)
    ensures CallCount(calls + [alert], x) == CallCount(calls, x) + if alert == x then 1 else 0
  {
    assert (calls + [alert])[..|calls|] == calls;
  }

  lemma CmmsStepCounts(c: Cmms, c': Cmms, alert: Id, x: Id)
    requires CmmsStep(c, c', alert)
    ensures CallCount(c.calls, x) <= CallCount(c'.calls, x) <= CallCount(c.calls, x) + if x == alert then 1 else 0
    ensures CmmsOk(c) ==> CmmsOk(c')
  {
    hide CmmsOk, CallCount;
    CountOne(c.calls, alert, x);
  }

  lemma OrderAddedKeeps(env: Env, env': Env, asset: string)
    requires OrdersKeyed(env) && OneOpenEach(env.orders) && env.nextId <= env'.nextId
    requires env'.orders == env.orders || OrderAdded(env, env', asset)
    ensures OrdersKeyed(env') && OneOpenEach(env'.orders)
  {
    if env'.orders != env.orders {
      var wo := env'.orders[env.nextId];
      forall j | j in env.orders && env.orders[j].status.OrderOpen? && env.orders[j].asset == asset
        ensures env.orders[j].failureMode != wo.failureMode
      {
        assert j !in OpenOrders(env.orders, asset, wo.failureMode);
      }
    }
  }

  /** Raising an order for an alert that may still be called for keeps everything. */
  lemma RaiseKeeps(cfg: Config, env: Env, env': Env, asset: string, alert: Alert)
    requires EnvInv(cfg, env) && RaiseEffect(env, env', asset, alert)
    requires alert.id in env.alerts && env.alerts[alert.id] == alert && alert.asset == asset
    requires CallCount(env.cmms.calls, alert.id) <= cfg.maxRetry
    ensures EnvInv(cfg, env') && Touches(env, env', asset)
    ensures CallCount(env'.cmms.calls, alert.id) <= CallCount(env.cmms.calls, alert.id) + 1
  {
    hide CallCount, CmmsOk, CmmsStep, OneOpenEach, OrderAdded;
    OrderAddedKeeps(env, env', asset);
    forall x
      ensures CallCount(env.cmms.calls, x) <= CallCount(env'.cmms.calls, x)
              <= CallCount(env.cmms.calls, x) + if x == alert.id then 1 else 0
    {
      CmmsStepCounts(env.cmms, env'.cmms, alert.id, x);
    }
    CmmsStepCounts(env.cmms, env'.cmms, alert.id, 0);
  }

  // ----- One evaluation -----

  lemma FireKeeps(cfg: Config, f: Faults, s: Progress, s': Progress, alert: Alert)
    requires EnvInv(cfg, s.env) && AssetInv(cfg, s.env, s.asset) && s.asset.pendingTop == ""
             && s.asset.policy.state.Active?
    requires FireEffect(f, s, s', alert) && alert.id == s.env.nextId && alert.asset == s.asset.id
    ensures EnvInv(cfg, s'.env) && AssetInv(cfg, s'.env, s'.asset) && Touches(s.env, s'.env, s.asset.id)
  {
    hide CallCount, CmmsOk, OneOpenEach, RaiseEffect;
    if s'.ok {
      var env1 := s.env.(nextId := alert.id + 1, calls := s.env.calls + 1, alerts := s.env.alerts[alert.id := alert]);
      assert EnvInv(cfg, env1) && Touches(s.env, env1, s.asset.id);
      assert CallCount(s.env.cmms.calls, alert.id) == 0;
      RaiseKeeps(cfg, env1, s'.env, s.asset.id, alert);
      TouchesTwice(s.env, env1, s'.env, s.asset.id);
    }
  }

  lemma HoldKeeps(cfg: Config, f: Faults, s: Progress, s': Progress)
    requires EnvInv(cfg, s.env) && AssetInv(cfg, s.env, s.asset)
    requires HoldEffect(cfg, f, s, s')
    ensures EnvInv(cfg, s'.env) && AssetInv(cfg, s'.env, s'.asset) && Touches(s.env, s'.env, s.asset.id)
  {
    hide CallCount, CmmsOk, OneOpenEach, RaiseEffect;
    if s' != s && s'.ok {
      RaiseKeeps(cfg, s.env, s'.env, s.asset.id, s.env.alerts[s.asset.openAlert.value]);
    }
  }

  /** Which outcomes an episode state allows, and where they lead. */
  lemma OutcomeStates(p: PolicyState, now: Time, risk: real, site: Option<RateLimit.Limiter>)
    ensures var (p', d, _) := Evaluate(p, now, risk, site);
            && (p.state.Active? ==> d.outcome.Hold? || d.outcome.Clear?)
            && (!p.state.Active? ==> !d.outcome.Hold? && !d.outcome.Clear?)
            && (p'.state.Active?
               <==> d.outcome.Hold? || d.outcome.Fire? || d.outcome.Suppressed? || d.outcome.RateLimited?)
            && (p'.state.Active? && p'.alerted <==> d.outcome.Fire? || (d.outcome.Hold? && p.alerted))
            && p'.p == p.p && p'.offset == p.offset
  {
    hide Mean, EffectiveThreshold;
  }

  lemma DecideKeeps(cfg: Config, f: Faults, s: Progress, ts: Time, as_: Fusion.Assessment, top: string)
    requires EnvInv(cfg, s.env) && AssetInv(cfg, s.env, s.asset)
    ensures var s' := Decide(cfg, f, s, ts, as_, top);
            EnvInv(cfg, s'.env) && AssetInv(cfg, s'.env, s'.asset) && Touches(s.env, s'.env, s.asset.id)
  {
    hide FeedPolicy, Evaluate, OnFire, OnHold, OnClear, FireEffect, HoldEffect, ClearEffect, CallCount, CmmsOk,
      OneOpenEach;
    FeedPolicyFrame(s, ts, as_.risk);
    var (s1, outcome) := FeedPolicy(s, ts, as_.risk);
    OutcomeStates(s.asset.policy, ts, as_.risk, SiteLimiter(s.env, s.asset));
    assert EnvInv(cfg, s1.env) && Touches(s.env, s1.env, s.asset.id);
    if !outcome.Clear? {
      assert AssetInv(cfg, s1.env, s1.asset);
    }
    match outcome
    case Fire =>
      FireHasEffect(f, s1, ts, as_, top);
      FireKeeps(cfg, f, s1, OnFire(f, s1, ts, as_, top), NewAlert(s1.env, s1.asset, ts, as_, top));
      TouchesTwice(s.env, s1.env, OnFire(f, s1, ts, as_, top).env, s.asset.id);
    case Hold =>
      HoldHasEffect(cfg, f, s1);
      HoldKeeps(cfg, f, s1, OnHold(cfg, f, s1));
      TouchesTwice(s.env, s1.env, OnHold(cfg, f, s1).env, s.asset.id);
    case Clear =>
      ClearHasEffect(f, s1, ts);
      ClearDropsPending(cfg, f, s1, OnClear(f, s1, ts), ts);
      TouchesTwice(s.env, s1.env, OnClear(f, s1, ts).env, s.asset.id);
    case _ =>
  }

  /** Clearing needs no more of the asset than its open alert: what was pending is dropped. */
  lemma ClearDropsPending(cfg: Config, f: Faults, s: Progress, s': Progress, ts: Time)
    requires EnvInv(cfg, s.env) && AssetInv(cfg, s.env, s.asset.(pendingTop := ""))
    requires ClearEffect(f, s, s', ts)
    ensures EnvInv(cfg, s'.env) && AssetInv(cfg, s'.env, s'.asset) && Touches(s.env, s'.env, s.asset.id)
  {
    hide CallCount, CmmsOk, OneOpenEach;
  }

  lemma EvaluateKeeps(cfg: Config, f: Faults, s: Progress, ts: Time)
    requires WellFormed(s.asset) && EnvInv(cfg, s.env) && AssetInv(cfg, s.env, s.asset)
    ensures var s' := EvaluateIfReady(cfg, f, s, ts);
            EnvInv(cfg, s'.env) && AssetInv(cfg, s'.env, s'.asset) && Touches(s.env, s'.env, s.asset.id)
  {
    hide Examine, Decide, CallCount, CmmsOk, OneOpenEach;
    if Evaluates(s.asset, ts) {
      ExamineFrame(cfg, f, s, ts);
      var x := Examine(cfg, f, s, ts);
      DecideKeeps(cfg, f, x.s, ts, x.assessment, x.top);
      if x.s.ok {
        TouchesTwice(s.env, x.s.env, Decide(cfg, f, x.s, ts, x.assessment, x.top).env, s.asset.id);
      }
    }
  }

  // ----- One batch -----

  lemma PushKeepsInv(cfg: Config, env: Env, a: Asset, m: Metric)
    requires Fits(a.tpl.specs, a.samples) && AssetInv(cfg, env, a)
    ensures AssetInv(cfg, env, PushMetric(cfg, a, m).0)
  {
    hide PushReading, CallCount;
  }

  lemma {:induction false} GroupKeeps(cfg: Config, f: Faults, s: Progress, pending: Time, ms: seq<Metric>)
    requires WellFormed(s.asset) && EnvInv(cfg, s.env) && AssetInv(cfg, s.env, s.asset)
    ensures var s' := IngestGroup(cfg, f, s, pending, ms);
            EnvInv(cfg, s'.env) && AssetInv(cfg, s'.env, s'.asset) && Touches(s.env, s'.env, s.asset.id)
    decreases |ms|
  {
    hide EvaluateIfReady, PushMetric, WellFormed, EnvInv, AssetInv, Touches;
    TouchesItself(s.env, s.asset.id);
    EvaluateShape(cfg, f, s, pending);
    EvaluateKeeps(cfg, f, s, pending);
    if ms != [] {
      var m := ms[0];
      var s1 := if pending != ZERO_TIME && m.ts > pending then EvaluateIfReady(cfg, f, s, pending) else s;
      if s1.ok {
        PushShape(cfg, s1.asset, m);
        PushKeepsInv(cfg, s1.env, s1.asset, m);
        var (a, pushed) := PushMetric(cfg, s1.asset, m);
        var s2 := s1.(asset := a, tally := Count(s1.tally, pushed));
        GroupKeeps(cfg, f, s2, m.ts, ms[1..]);
        TouchesTwice(s.env, s1.env, IngestGroup(cfg, f, s2, m.ts, ms[1..]).env, s.asset.id);
      }
    }
  }

  lemma TouchesItself(env: Env, asset: string)
    ensures Touches(env, env, asset)
  {
  }

  lemma AssetForInv(cfg: Config, w: World, m: Metric)
    requires WorldShape(w) && WorldInv(cfg, w) && AssetFor(w, m).Some?
    ensures AssetInv(cfg, w.env, AssetFor(w, m).value)
  {
    hide CallCount, EnvInv, WellFormed, NewPolicy, SetOffset, FreshDetectors;
  }

  lemma IngestAssetKeeps(cfg: Config, f: Faults, w: World, tally: Tally, ms: seq<Metric>)
    requires WorldShape(w) && WorldInv(cfg, w) && ms != []
    ensures WorldInv(cfg, IngestAsset(cfg, f, w, tally, ms).world)
  {
    hide IngestGroup, WellFormed, AssetFor, EnvInv, AssetInv, Touches;
    if AssetFor(w, ms[0]).Some? {
      AssetForShape(w, ms[0]);
      AssetForInv(cfg, w, ms[0]);
      var a := AssetFor(w, ms[0]).value;
      var s := Progress(w.env, a, tally, true);
      GroupKeeps(cfg, f, s, ZERO_TIME, ms);
      GroupKeepsShape(cfg, f, s, ZERO_TIME, ms);
      var s' := IngestGroup(cfg, f, s, ZERO_TIME, ms);
      forall id | id in w.assets && id != a.id
        ensures AssetInv(cfg, s'.env, w.assets[id])
      {
        OthersKept(cfg, w.env, s'.env, a.id, w.assets[id]);
      }
    }
  }

  lemma {:induction false} IngestAssetsKeep(
      cfg: Config, f: Faults, w: World, tally: Tally, ids: seq<string>, ms: seq<Metric>)
    requires WorldShape(w) && WorldInv(cfg, w) && forall id :: id in ids ==> GroupOf(ms, id) != []
    ensures WorldInv(cfg, IngestAssets(cfg, f, w, tally, ids, ms).world)
    decreases |ids|
  {
    hide WorldShape, WorldInv, IngestAsset, SortByTime;
    if ids != [] {
      var group := SortByTime(GroupOf(ms, ids[0]));
      IngestAssetShape(cfg, f, w, tally, group);
      IngestAssetKeeps(cfg, f, w, tally, group);
      var r := IngestAsset(cfg, f, w, tally, group);
      if r.ok {
        IngestAssetsKeep(cfg, f, r.world, r.tally, ids[1..], ms);
      }
    }
  }

  lemma IngestKeeps(cfg: Config, f: Faults, w: World, batch: seq<Metric>)
    requires WorldShape(w) && WorldInv(cfg, w)
    ensures WorldInv(cfg, Ingest(cfg, f, w, batch).world)
  {
    hide WorldShape, WorldInv, IngestAssets, ValidOf, AssetsOf, GroupOf;
    var ms := ValidOf(batch);
    ValidLength(batch);
    AssetsHaveGroups(ms);
    IngestAssetsKeep(cfg, f, w, NOTHING.(rejected := |batch| - |ms|), AssetsOf(ms), ms);
  }

  // ----- Feedback, templates, restarts -----

  /** Cancelling closes at most one order and keeps the maintenance records. */
  ghost predicate CancelEffect(env: Env, env': Env) {
    && env' == env.(orders := env'.orders, cmms := env'.cmms, snapshots := env'.snapshots, calls := env'.calls)
    && (env'.orders == env.orders
        || exists id ::
             && id in env.orders
             && env'.orders == env.orders[env.orders[id].id := env.orders[id].(status := OrderCancelled)])
    && env'.cmms.calls == env.cmms.calls && (CmmsOk(env.cmms) ==> CmmsOk(env'.cmms))
  }

  lemma CancelHasEffect(f: Faults, env: Env, id: Id)
    ensures CancelEffect(env, CancelOrder(f, env, id))
  {
    hide CmmsCancel, SaveOrder, CmmsOk;
    if id in env.orders {
      var wo := env.orders[id].(status := OrderCancelled);
      SaveOrderFrame(f, Called(env), wo);
      if wo.external.Some? {
        CmmsCancelFrame(f, Called(env), wo.external.value);
        SaveOrderFrame(f, CmmsCancel(f, Called(env), wo.external.value).0, wo);
        CancelRecordKeeps(env.cmms, wo.external.value);
      }
    }
  }

  lemma CancelRecordKeeps(c: Cmms, ref: nat)
    ensures CancelRecord(c, ref).0.calls == c.calls
    ensures CmmsOk(c) ==> CmmsOk(CancelRecord(c, ref).0)
  {
    if CmmsOk(c) {
      CancelKeepsOk(c, ref);
    }
  }

  lemma AfterAdaptingEffect(f: Faults, env: Env, a: Asset, alert: Alert, v: Verdict)
    ensures CancelEffect(env, AfterAdapting(f, env, a, alert, v).0)
  {
    hide CancelOrder, CancelEffect;
    var env1 := SaveSnapshot(f, env, a).0;
    NothingCancelled(env1);
    if alert.workOrder.Some? {
      CancelHasEffect(f, env1, alert.workOrder.value);
    }
    CancelAfterSnapshot(env, env1, AfterAdapting(f, env, a, alert, v).0);
  }

  lemma NothingCancelled(env: Env)
    ensures CancelEffect(env, env)
  {
  }

  lemma CancelAfterSnapshot(env: Env, env1: Env, env2: Env)
    requires env1 == env.(snapshots := env1.snapshots, calls := env1.calls) && CancelEffect(env1, env2)
    ensures CancelEffect(env, env2)
  {
    hide CmmsOk;
  }

  lemma CancelKeepsInv(cfg: Config, env: Env, env': Env)
    requires EnvInv(cfg, env) && CancelEffect(env, env')
    ensures EnvInv(cfg, env')
  {
    hide CallCount, CmmsOk;
  }

  lemma JudgeKeeps(cfg: Config, f: Faults, w: World, alert: Alert, v: Verdict)
    requires WorldShape(w) && WorldInv(cfg, w) && alert.id in w.env.alerts && w.env.alerts[alert.id] == alert
    ensures WorldInv(cfg, JudgeAlert(f, w, alert, v).0)
  {
    hide JudgeAlert, EnvInv, WellFormed, CallCount, ApplyFeedback;
    JudgeEffect(f, w, alert, v);
    JudgeKeepsEnv(cfg, f, w, alert, v);
    var w' := JudgeAlert(f, w, alert, v).0;
    forall id | id in w'.assets
      ensures AssetInv(cfg, w'.env, w'.assets[id])
    {
      FeedbackKeepsState(w.assets[id], alert.id, v);
    }
  }

  lemma FeedbackKeepsState(a: Asset, id: Id, v: Verdict)
    ensures Judged(a, id, v).policy == a.policy.(offset := Judged(a, id, v).policy.offset)
  {
    hide ClampOffset, Wanted;
  }

  lemma JudgeKeepsEnv(cfg: Config, f: Faults, w: World, alert: Alert, v: Verdict)
    requires EnvInv(cfg, w.env) && alert.id in w.env.alerts && w.env.alerts[alert.id] == alert
    ensures EnvInv(cfg, JudgeAlert(f, w, alert, v).0.env)
    ensures JudgeAlert(f, w, alert, v).0.env.cmms.calls == w.env.cmms.calls
  {
    hide AfterAdapting, Judged, EnvInv, RecordVerdict;
    if alert.asset in w.assets {
      var a := Judged(w.assets[alert.asset], alert.id, v);
      var env1 := AfterAdapting(f, w.env, a, alert, v).0;
      AfterAdaptingEffect(f, w.env, a, alert, v);
      CancelKeepsInv(cfg, w.env, env1);
      RecordKeepsEnv(cfg, f, w.(assets := w.assets[alert.asset := a], env := env1), alert, v);
    } else {
      RecordKeepsEnv(cfg, f, w, alert, v);
    }
  }

  lemma RecordKeepsEnv(cfg: Config, f: Faults, w: World, alert: Alert, v: Verdict)
    requires EnvInv(cfg, w.env) && alert.id in w.env.alerts && w.env.alerts[alert.id].id == alert.id
    ensures EnvInv(cfg, RecordVerdict(f, w, alert, v).0.env)
    ensures RecordVerdict(f, w, alert, v).0.env.cmms.calls == w.env.cmms.calls
  {
    hide CallCount, CmmsOk, OneOpenEach;
  }

  lemma FeedbackKeeps(cfg: Config, f: Faults, w: World, id: Id, v: Verdict)
    requires WorldShape(w) && WorldInv(cfg, w)
    ensures WorldInv(cfg, Feedback(f, w, id, v).0)
  {
    hide JudgeAlert, WellFormed, CallCount, CmmsOk, OneOpenEach;
    var w1 := w.(env := Called(w.env));
    assert WorldInv(cfg, w1) && WorldShape(w1);
    if Judges(f, w, id) {
      JudgeKeeps(cfg, f, w1, w.env.alerts[id], v);
    }
  }

  lemma RebuiltKeepsEpisode(a: Asset, t: Template, since: Id)
    ensures var a' := Rebuilt(a, t, since);
            && a'.id == a.id && a'.openAlert == a.openAlert && a'.pendingTop == a.pendingTop && a'.retry == a.retry
            && a'.policy.state == a.policy.state && a'.policy.alerted == a.policy.alerted
            && a'.lastTS == a.lastTS
  {
    hide FreshDetectors, ClampOffset, FreshLimiter;
  }

  lemma TemplateKeeps(cfg: Config, f: Faults, w: World, t: Template)
    requires WorldInv(cfg, w)
    ensures WorldInv(cfg, PutTemplate(f, w, t).0)
  {
    hide Template.Valid, Rebuilt, EnvInv, AssetInv;
    TemplateKeepsEnv(cfg, f, w, t);
    forall id | id in w.assets
      ensures AssetInv(cfg, PutTemplate(f, w, t).0.env, w.assets[id])
      ensures AssetInv(cfg, PutTemplate(f, w, t).0.env, Rebuilt(w.assets[id], t, w.env.nextId))
    {
      TemplateKeepsAsset(cfg, f, w, t, w.assets[id]);
    }
  }

  lemma TemplateKeepsEnv(cfg: Config, f: Faults, w: World, t: Template)
    requires EnvInv(cfg, w.env)
    ensures EnvInv(cfg, PutTemplate(f, w, t).0.env)
  {
    hide RebuiltClass, EnvInv, Template.Valid;
    SameRecords(cfg, w.env, PutTemplate(f, w, t).0.env);
  }

  lemma SameRecords(cfg: Config, env: Env, env': Env)
    requires EnvInv(cfg, env) && env' == env.(templates := env'.templates, calls := env'.calls)
    ensures EnvInv(cfg, env')
  {
    hide CallCount, CmmsOk, OneOpenEach;
  }

  lemma TemplateKeepsAsset(cfg: Config, f: Faults, w: World, t: Template, a: Asset)
    requires AssetInv(cfg, w.env, a)
    ensures AssetInv(cfg, PutTemplate(f, w, t).0.env, a)
    ensures AssetInv(cfg, PutTemplate(f, w, t).0.env, Rebuilt(a, t, w.env.nextId))
  {
    hide Template.Valid, Rebuilt, CallCount, RebuiltClass;
    RebuiltKeepsEpisode(a, t, w.env.nextId);
  }

  lemma RestartKeeps(cfg: Config, w: World)
    requires WorldInv(cfg, w)
    ensures WorldInv(cfg, Restarted(cfg, w))
  {
    hide CallCount, CmmsOk, OneOpenEach, FreshDetectors, NewPolicy, SetOffset;
  }

  // ----- Every reachable state -----

  lemma PerformKeeps(cfg: Config, f: Faults, w: World, op: Op)
    requires WorldShape(w) && WorldInv(cfg, w)
    ensures WorldInv(cfg, Perform(cfg, f, w, op))
  {
    hide WorldShape, WorldInv, Feedback, PutTemplate, Restarted, Ingest;
    match op
    case DoIngest(batch) => IngestKeeps(cfg, f, w, batch);
    case DoFeedback(id, v) => FeedbackKeeps(cfg, f, w, id, v);
    case DoTemplate(t) => TemplateKeeps(cfg, f, w, t);
    case DoRestart => RestartKeeps(cfg, w);
  }

  lemma BeginInv(cfg: Config)
    requires ConfigOk(cfg)
    ensures WorldShape(Begin(cfg)) && WorldInv(cfg, Begin(cfg))
  {
  }

  lemma {:induction false} RunKeeps(cfg: Config, f: Faults, w0: World, ops: seq<Op>)
    requires WorldShape(w0) && ConfigOk(cfg) && WorldInv(cfg, w0)
    ensures WorldInv(cfg, Run(cfg, f, w0, ops))
  {
    hide Perform, WorldShape, WorldInv;
    if ops != [] {
      RunKeeps(cfg, f, w0, ops[..|ops| - 1]);
      PerformKeeps(cfg, f, Run(cfg, f, w0, ops[..|ops| - 1]), ops[|ops| - 1]);
    }
  }

  /**
    In every state reachable from a first start, with batches, feedback, template
    updates and restarts in any order and any store or maintenance call failing:
    no two stored orders are open for the same asset and failure mode, no two
    maintenance records share an idempotency key, and no alert has had more than
    1 + maxRetry create calls.
   */
  lemma WorkOrdersAreSafe(cfg: Config, f: Faults, ops: seq<Op>)
    requires ConfigOk(cfg)
    ensures var env := (BeginInv(cfg); Run(cfg, f, Begin(cfg), ops).env);
            && (forall i, j :: i in env.orders && j in env.orders && i != j ==> !Rivals(env.orders[i], env.orders[j]))
            && (forall r, q :: r in env.cmms.records && q in env.cmms.records && r != q ==>
                  env.cmms.records[r].order.IdempotencyKey() != env.cmms.records[q].order.IdempotencyKey())
            && (forall x: Id :: CallCount(env.cmms.calls, x) <= 1 + cfg.maxRetry)
  {
    BeginInv(cfg);
    hide Run, Begin, CallCount;
    RunKeeps(cfg, f, Begin(cfg), ops);
  }
}
