/** The alert and work-order counts of an ingest result, against what the store gained. */
module EngineCounts {
  import opened Common
  import opened Policy
  import opened WorkOrders
  import opened EngineModel
  import opened EngineEffects
  import opened EngineWorld
  import opened EngineSafety
  import Fusion

  /**
    The store gained at most the alerts and at least the work orders counted, and
    exactly those when no store call failed.
   */
  ghost predicate Gained(f: Faults, env: Env, t: Tally, env': Env, t': Tally) {
    && t.alerts <= t'.alerts && t.workOrders <= t'.workOrders
    && |env.alerts| <= |env'.alerts| <= |env.alerts| + (t'.alerts - t.alerts)
    && |env.orders| + (t'.workOrders - t.workOrders) <= |env'.orders|
    && (StoreWorks(f) ==>
          && |env'.alerts| == |env.alerts| + (t'.alerts - t.alerts)
          && |env'.orders| == |env.orders| + (t'.workOrders - t.workOrders))
  }

  lemma GainedTwice(f: Faults, e1: Env, t1: Tally, e2: Env, t2: Tally, e3: Env, t3: Tally)
    requires Gained(f, e1, t1, e2, t2) && Gained(f, e2, t2, e3, t3)
    ensures Gained(f, e1, t1, e3, t3)
  {
  }

  lemma NothingGained(f: Faults, env: Env, t: Tally, env': Env, t': Tally)
    requires env'.alerts == env.alerts && env'.orders == env.orders && t'.alerts == t.alerts
             && t'.workOrders == t.workOrders
    ensures Gained(f, env, t, env', t')
  {
  }

  /**
    Raising an order stores no alert, and one order if it reports a creation,
    with none stored silently while the store works.
   */
  lemma RaiseGains(f: Faults, env: Env, a: Asset, alert: Alert, top: string, t: Tally)
    requires alert.id in env.alerts && OrdersKeyed(env)
    ensures var (e, outcome) := RaiseOrder(f, env, a, alert, top); Gained(f, env, t, e, CountOrder(t, outcome))
  {
    hide FindOpen, NewOrder, Register, Gained;
    var mode := a.tpl.orders.ResolveFailureMode(top);
    if !f.store(env.calls) && a.tpl.orders.Creates(alert.confidence, FindOpen(env.orders, a.id, mode)) {
      CreateGains(f, Called(env), a, alert, mode, t);
      GainedAfterCall(f, env, t, CreateOrder(f, Called(env), a, alert, mode).0,
                      CountOrder(t, CreateOrder(f, Called(env), a, alert, mode).1));
    } else {
      var e := RaiseOrder(f, env, a, alert, top).0;
      assert e.orders == env.orders && |e.alerts| == |env.alerts| && !RaiseOrder(f, env, a, alert, top).1.Created?;
      SameSizes(f, env, t, e, t);
    }
  }

  lemma SameSizes(f: Faults, env: Env, t: Tally, env': Env, t': Tally)
    requires |env'.alerts| == |env.alerts| && |env'.orders| == |env.orders| && t'.alerts == t.alerts
             && t'.workOrders == t.workOrders
    ensures Gained(f, env, t, env', t')
  {
  }

  lemma GainedAfterCall(f: Faults, env: Env, t: Tally, env': Env, t': Tally)
    requires Gained(f, Called(env), t, env', t')
    ensures Gained(f, env, t, env', t')
  {
  }

  lemma CreateGains(f: Faults, env: Env, a: Asset, alert: Alert, mode: string, t: Tally)
    requires alert.id in env.alerts && OrdersKeyed(env)
    ensures var (e, outcome) := CreateOrder(f, env, a, alert, mode); Gained(f, env, t, e, CountOrder(t, outcome))
  {
    hide CmmsCreate, StoreOrder, Gained;
    var wo := NewOrder(env, a, alert, mode);
    assert wo.id !in env.orders;
    CmmsCreateEffect(f, env.(nextId := wo.id + 1), wo);
    var (env1, ref) := CmmsCreate(f, env.(nextId := wo.id + 1), wo);
    SameSizes(f, env, t, env1, t);
    if ref.Some? {
      StoreGains(f, env1, wo.(external := ref), alert, t);
      var (e, outcome) := StoreOrder(f, env1, wo.(external := ref), alert);
      GainedTwice(f, env, t, env1, t, e, CountOrder(t, outcome));
    }
  }

  lemma StoreGains(f: Faults, env: Env, wo: WorkOrder, alert: Alert, t: Tally)
    requires alert.id in env.alerts && wo.id !in env.orders
    ensures var (e, outcome) := StoreOrder(f, env, wo, alert); Gained(f, env, t, e, CountOrder(t, outcome))
  {
  }

  // ----- One evaluation -----

  lemma FirstTryGains(f: Faults, s: Progress, alert: Alert, top: string)
    requires alert.id in s.env.alerts && OrdersKeyed(s.env)
    ensures var s' := FirstTry(f, s, alert, top); Gained(f, s.env, s.tally, s'.env, s'.tally)
  {
    hide RaiseOrder, Gained;
    RaiseGains(f, s.env, s.asset, alert, top, s.tally);
  }

  lemma SaveGains(f: Faults, env: Env, alert: Alert, t: Tally)
    requires alert.id !in env.alerts
    ensures var (e, saved) := SaveAlert(f, env, alert);
            && Gained(f, env, t, e, t.(alerts := t.alerts + 1)) && (saved ==> alert.id in e.alerts)
            && e.orders == env.orders && e.nextId == env.nextId
  {
  }

  lemma FireGains(f: Faults, s: Progress, ts: Time, as_: Fusion.Assessment, top: string)
    requires AlertsKeyed(s.env) && OrdersKeyed(s.env)
    ensures var s' := OnFire(f, s, ts, as_, top); Gained(f, s.env, s.tally, s'.env, s'.tally)
  {
    hide FirstTry, SaveAlert, Gained;
    var alert := NewAlert(s.env, s.asset, ts, as_, top);
    assert alert.id !in s.env.alerts;
    var env0, t1 := s.env.(nextId := alert.id + 1), s.tally.(alerts := s.tally.alerts + 1);
    NothingGained(f, s.env, s.tally, env0, s.tally);
    SaveGains(f, env0, alert, s.tally);
    var (env1, saved) := SaveAlert(f, env0, alert);
    GainedTwice(f, s.env, s.tally, env0, s.tally, env1, t1);
    if saved {
      var a1 := s.asset.(openAlert := Some(alert.id),
                         history := s.asset.history.(raised := s.asset.history.raised + [alert.id]));
      FirstTryGains(f, Progress(env1, a1, t1, true), alert, top);
      var s' := OnFire(f, s, ts, as_, top);
      GainedTwice(f, s.env, s.tally, env1, t1, s'.env, s'.tally);
    }
  }

  lemma HoldGains(cfg: Config, f: Faults, s: Progress)
    requires AlertsKeyed(s.env) && OrdersKeyed(s.env)
    ensures var s' := OnHold(cfg, f, s); Gained(f, s.env, s.tally, s'.env, s'.tally)
  {
    hide RaiseOrder;
    var a := s.asset;
    if a.openAlert.Some? && a.openAlert.value in s.env.alerts {
      RaiseGains(f, Called(s.env), a.(retry := a.retry + 1), s.env.alerts[a.openAlert.value], a.pendingTop, s.tally);
    }
  }

  lemma ClearGains(f: Faults, s: Progress, ts: Time)
    requires AlertsKeyed(s.env)
    ensures var s' := OnClear(f, s, ts); Gained(f, s.env, s.tally, s'.env, s'.tally)
  {
  }

  lemma EvaluateGains(cfg: Config, f: Faults, s: Progress, ts: Time)
    requires WellFormed(s.asset) && AlertsKeyed(s.env) && OrdersKeyed(s.env)
    ensures var s' := EvaluateIfReady(cfg, f, s, ts); Gained(f, s.env, s.tally, s'.env, s'.tally)
  {
    hide Examine, FeedPolicy, OnFire, OnHold, OnClear, Evaluates, Gained;
    NothingGained(f, s.env, s.tally, s.env, s.tally);
    if Evaluates(s.asset, ts) {
      ExamineFrame(cfg, f, s, ts);
      var x := Examine(cfg, f, s, ts);
      FeedPolicyFrame(x.s, ts, x.assessment.risk);
      var (s1, outcome) := FeedPolicy(x.s, ts, x.assessment.risk);
      NothingGained(f, s.env, s.tally, x.s.env, x.s.tally);
      NothingGained(f, s.env, s.tally, s1.env, s1.tally);
      if x.s.ok {
        ReactGains(cfg, f, s1, ts, x.assessment, x.top, outcome);
        var s' := React(cfg, f, s1, ts, x.assessment, x.top, outcome);
        GainedTwice(f, s.env, s.tally, s1.env, s1.tally, s'.env, s'.tally);
      }
    }
  }

  lemma ReactGains(cfg: Config, f: Faults, s: Progress, ts: Time, as_: Fusion.Assessment, top: string, o: Outcome)
    requires AlertsKeyed(s.env) && OrdersKeyed(s.env)
    ensures var s' := React(cfg, f, s, ts, as_, top, o); Gained(f, s.env, s.tally, s'.env, s'.tally)
  {
    hide OnFire, OnHold, OnClear, Gained;
    NothingGained(f, s.env, s.tally, s.env, s.tally);
    match o
    case Fire => FireGains(f, s, ts, as_, top);
    case Hold => HoldGains(cfg, f, s);
    case Clear => ClearGains(f, s, ts);
    case _ =>
  }

  // ----- One batch -----

  lemma {:induction false} GroupGains(cfg: Config, f: Faults, s: Progress, pending: Time, ms: seq<Metric>)
    requires WellFormed(s.asset) && EnvInv(cfg, s.env) && AssetInv(cfg, s.env, s.asset)
    ensures var s' := IngestGroup(cfg, f, s, pending, ms); Gained(f, s.env, s.tally, s'.env, s'.tally)
    decreases |ms|
  {
    hide EvaluateIfReady, PushMetric, WellFormed, EnvInv, AssetInv, Touches, AlertsKeyed, OrdersKeyed, Gained;
    NothingGained(f, s.env, s.tally, s.env, s.tally);
    EvaluateShape(cfg, f, s, pending);
    EvaluateKeeps(cfg, f, s, pending);
    EnvIsKeyed(cfg, s.env);
    EvaluateGains(cfg, f, s, pending);
    if ms != [] {
      var m := ms[0];
      var s1 := if pending != ZERO_TIME && m.ts > pending then EvaluateIfReady(cfg, f, s, pending) else s;
      if s1.ok {
        PushShape(cfg, s1.asset, m);
        PushKeepsInv(cfg, s1.env, s1.asset, m);
        var (a, pushed) := PushMetric(cfg, s1.asset, m);
        var s2 := s1.(asset := a, tally := Count(s1.tally, pushed));
        NothingGained(f, s1.env, s1.tally, s2.env, s2.tally);
        GainedTwice(f, s.env, s.tally, s1.env, s1.tally, s2.env, s2.tally);
        GroupGains(cfg, f, s2, m.ts, ms[1..]);
        var s' := IngestGroup(cfg, f, s2, m.ts, ms[1..]);
        GainedTwice(f, s.env, s.tally, s2.env, s2.tally, s'.env, s'.tally);
      }
    }
  }

  lemma IngestAssetGains(cfg: Config, f: Faults, w: World, tally: Tally, ms: seq<Metric>)
    requires WorldShape(w) && WorldInv(cfg, w) && ms != []
    ensures var r := IngestAsset(cfg, f, w, tally, ms); Gained(f, w.env, tally, r.world.env, r.tally)
  {
    hide IngestGroup, WellFormed, AssetFor, EnvInv, AssetInv, Gained;
    NothingGained(f, w.env, tally, w.env, tally.(rejected := tally.rejected + |ms|));
    if AssetFor(w, ms[0]).Some? {
      AssetForShape(w, ms[0]);
      AssetForInv(cfg, w, ms[0]);
      GroupGains(cfg, f, Progress(w.env, AssetFor(w, ms[0]).value, tally, true), ZERO_TIME, ms);
    }
  }

  lemma {:induction false} IngestAssetsGain(
      cfg: Config, f: Faults, w: World, tally: Tally, ids: seq<string>, ms: seq<Metric>)
    requires WorldShape(w) && WorldInv(cfg, w) && forall id :: id in ids ==> GroupOf(ms, id) != []
    ensures var r := IngestAssets(cfg, f, w, tally, ids, ms); Gained(f, w.env, tally, r.world.env, r.tally)
    decreases |ids|
  {
    hide WorldShape, WorldInv, IngestAsset, SortByTime, Gained;
    NothingGained(f, w.env, tally, w.env, tally);
    if ids != [] {
      var group := SortByTime(GroupOf(ms, ids[0]));
      IngestAssetShape(cfg, f, w, tally, group);
      IngestAssetKeeps(cfg, f, w, tally, group);
      IngestAssetGains(cfg, f, w, tally, group);
      var r := IngestAsset(cfg, f, w, tally, group);
      if r.ok {
        IngestAssetsGain(cfg, f, r.world, r.tally, ids[1..], ms);
        var last := IngestAssets(cfg, f, r.world, r.tally, ids[1..], ms);
        GainedTwice(f, w.env, tally, r.world.env, r.tally, last.world.env, last.tally);
      }
    }
  }

  lemma IngestGains(cfg: Config, f: Faults, w: World, batch: seq<Metric>)
    requires WorldShape(w) && WorldInv(cfg, w)
    ensures var r := Ingest(cfg, f, w, batch); Gained(f, w.env, NOTHING, r.world.env, r.tally)
  {
    hide WorldShape, WorldInv, IngestAssets, ValidOf, AssetsOf, GroupOf, Gained;
    var ms := ValidOf(batch);
    ValidLength(batch);
    AssetsHaveGroups(ms);
    var t := NOTHING.(rejected := |batch| - |ms|);
    NothingGained(f, w.env, NOTHING, w.env, t);
    IngestAssetsGain(cfg, f, w, t, AssetsOf(ms), ms);
    var r := Ingest(cfg, f, w, batch);
    GainedTwice(f, w.env, NOTHING, w.env, t, r.world.env, r.tally);
  }

  /**
    The result of an ingest is true of the store: in every reachable state, the
    store gains at most the alerts and at least the work orders the batch reports,
    and exactly those when no store call fails, whatever the maintenance system does.
   */
  lemma CountsAreTrue(cfg: Config, f: Faults, ops: seq<Op>, batch: seq<Metric>)
    requires ConfigOk(cfg)
    ensures WorldShape(Begin(cfg))
    ensures var w := Run(cfg, f, Begin(cfg), ops);
            var r := Ingest(cfg, f, w, batch);
            && |w.env.alerts| <= |r.world.env.alerts| <= |w.env.alerts| + r.tally.alerts
            && |w.env.orders| + r.tally.workOrders <= |r.world.env.orders|
            && (StoreWorks(f) ==> |r.world.env.alerts| == |w.env.alerts| + r.tally.alerts
                                  && |r.world.env.orders| == |w.env.orders| + r.tally.workOrders)
  {
    BeginInv(cfg);
    hide Run, Begin, WorldShape, WorldInv, Ingest, StoreWorks;
    RunKeeps(cfg, f, Begin(cfg), ops);
    IngestGains(cfg, f, Run(cfg, f, Begin(cfg), ops), batch);
  }
}
