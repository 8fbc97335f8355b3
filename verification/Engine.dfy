/**
  The engine of internal/domain/engine/engine.go as a mutable object over the
  in-memory store, the simulated maintenance system and its machines. Its value
  is an `EngineModel.World`, and each operation does to that value what the
  functions of the model say.
 */
module Engines {
  import opened Common
  import opened Policy
  import opened WorkOrders
  import opened Pipeline
  import opened DetectorPipe
  import opened EngineModel
  import opened EngineWorld
  import opened EngineSafety
  import opened MemoryStore
  import opened Machines
  import opened Fusion
  import Extractor
  import PolicyRuns
  import RateLimit

  lemma PutTwice(env: Env, site: string, x: Option<RateLimit.Limiter>, y: Option<RateLimit.Limiter>)
    requires x.Some? <==> y.Some?
    ensures PutSiteLimiter(PutSiteLimiter(env, site, x), site, y) == PutSiteLimiter(env, site, y)
  {
    if y.Some? {
      assert env.sites[site := x.value][site := y.value] == env.sites[site := y.value];
    }
  }

  class Engine {
    const cfg: Config
    const draws: Drawing
    const faults: Faults
    const store: Store
    const cmms: Simulated
    var templates: map<string, Template>
    var assets: map<string, Machine>
    var siteLimiters: map<string, RateLimit.RateLimiter>
    var nextId: Id
    var calls: nat
    ghost var born: Id
    ghost var owned: set<object>

    ghost function SiteValues(): map<string, RateLimit.Limiter>
      reads this`siteLimiters, siteLimiters.Values
    {
      map s | s in siteLimiters :: siteLimiters[s].Value()
    }

    /** Everything outside the machines. */
    ghost function EnvValue(): Env
      reads this`siteLimiters, this`nextId, this`calls, store, cmms, siteLimiters.Values
    {
      Env(SiteValues(), store.alerts, store.workOrders, store.assets, store.templates, cmms.Value(), nextId, calls)
    }

    lemma EnvFields()
      ensures EnvValue().nextId == nextId && EnvValue().calls == calls
    {
    }

    ghost predicate EnvOk()
      reads this`siteLimiters, store
    {
      && store.Valid()
      && forall s, t :: s in siteLimiters && t in siteLimiters && s != t ==> siteLimiters[s] != siteLimiters[t]
    }

    /**
      A start over what the store and the maintenance system hold: built-in
      templates are seeded under the stored ones, and assets restored from their
      snapshots. Nothing fails here: a failing start makes no engine.
     */
    constructor (cfg: Config, draws: Drawing, faults: Faults, store: Store, cmms: Simulated, nextId: Id, calls: nat)
      requires store.Valid() && Grown(cfg.kernels, draws) && ConfigOk(cfg)
      requires var w := Stopped(Left(store, cmms, nextId, calls)); WorldShape(w) && WorldInv(cfg, w)
      modifies store`templates
      ensures Valid() && this.store == store && this.cmms == cmms && fresh(owned)
      ensures this.cfg == cfg && this.draws == draws && this.faults == faults
      ensures WorldValue() == Restarted(cfg, Stopped(old(Left(store, cmms, nextId, calls))))
    {
      hide Store.Valid, Simulated.Value, WorldInv, WorldShape, Grown, Template.Valid, Restored, ConfigOk;
      this.cfg, this.draws, this.faults, this.store, this.cmms := cfg, draws, faults, store, cmms;
      this.nextId, this.calls, born := nextId, calls, nextId;
      templates, assets, siteLimiters, owned := store.templates, map[], map[], {};
      new;
      ghost var w := Stopped(Left(store, cmms, nextId, calls));
      RestartShape(cfg, w);
      RestartKeeps(cfg, w);
      ShapedTemplates(Restarted(cfg, w));
      SeedTemplates();
      RestoreMachines(store.assets);
    }

    /** A machine and the engine's own objects do not overlap. */
    ghost predicate Apart(a: Machine)
      reads this`siteLimiters, a`repr
    {
      {this, store, cmms} !! a.repr && siteLimiters.Values !! a.repr
    }

    method NewId() returns (id: Id)
      requires EnvOk()
      modifies this`nextId
      ensures EnvOk() && id == old(EnvValue()).nextId && EnvValue() == old(EnvValue()).(nextId := id + 1)
    {
      hide Store.Valid, Simulated.Value, SiteValues;
      id := nextId;
      nextId := nextId + 1;
    }

    // ----- Calls to the store and the maintenance system -----

    method SaveAlert(a: Alert) returns (ok: bool)
      requires EnvOk()
      modifies this`calls, store
      ensures EnvOk() && (EnvValue(), ok) == EngineModel.SaveAlert(faults, old(EnvValue()), a)
    {
      hide Store.Valid, Simulated.Value, SiteValues;
      ok := store.SaveAlert(a, faults.store(calls));
      calls := calls + 1;
    }

    method SaveOrder(wo: WorkOrder) returns (ok: bool)
      requires EnvOk()
      modifies this`calls, store
      ensures EnvOk() && (EnvValue(), ok) == EngineModel.SaveOrder(faults, old(EnvValue()), wo)
    {
      hide Store.Valid, Simulated.Value, SiteValues;
      ok := store.SaveWorkOrder(wo, faults.store(calls));
      calls := calls + 1;
    }

    method GetAlert(id: Id) returns (r: Lookup<Alert>)
      requires EnvOk()
      modifies this`calls
      ensures EnvOk() && EnvValue() == Called(old(EnvValue()))
      ensures var alerts := old(EnvValue()).alerts;
              r == if faults.store(old(EnvValue()).calls) then Unavailable
                   else if id in alerts then Found(alerts[id]) else NotFound
    {
      hide Store.Valid, Simulated.Value, SiteValues;
      r := store.GetAlert(id, faults.store(calls));
      calls := calls + 1;
    }

    method GetOrder(id: Id) returns (r: Lookup<WorkOrder>)
      requires EnvOk()
      modifies this`calls
      ensures EnvOk() && EnvValue() == Called(old(EnvValue()))
      ensures var orders := old(EnvValue()).orders;
              r == if faults.store(old(EnvValue()).calls) then Unavailable
                   else if id in orders then Found(orders[id]) else NotFound
    {
      hide Store.Valid, Simulated.Value, SiteValues;
      r := store.GetWorkOrder(id, faults.store(calls));
      calls := calls + 1;
    }

    /** The open order of an asset and failure mode; there is at most one. */
    method FindOpenOrder(asset: string, mode: string) returns (r: Lookup<WorkOrder>)
      requires EnvOk() && OneOpenEach(EnvValue().orders)
      modifies this`calls
      ensures EnvOk() && EnvValue() == Called(old(EnvValue()))
      ensures r.Unavailable? <==> faults.store(old(EnvValue()).calls)
      ensures !r.Unavailable? ==> (if r.Found? then Some(r.value) else None) == FindOpen(EnvValue().orders, asset, mode)
    {
      hide Store.Valid, Simulated.Value, SiteValues, OneOpenEach, FindOpen, IsOpenOrder;
      r := store.FindOpenWorkOrder(asset, mode, faults.store(calls));
      calls := calls + 1;
      if !r.Unavailable? {
        OpenOrderIsUnique(store.workOrders, asset, mode, if r.Found? then Some(r.value) else None);
      }
    }

    method SaveSnapshot(a: Machine) returns (ok: bool)
      requires EnvOk() && a.Valid()
      modifies this`calls, store
      ensures EnvOk() && (EnvValue(), ok) == EngineModel.SaveSnapshot(faults, old(EnvValue()), old(a.Value()))
    {
      hide Store.Valid, Simulated.Value, SiteValues, Machine.Valid, Machine.Value;
      a.Fields();
      var snapshot := a.TakeSnapshot();
      ok := store.SaveAssetSnapshot(snapshot, faults.store(calls));
      calls := calls + 1;
    }

    method CreateRecord(wo: WorkOrder) returns (ref: Option<nat>)
      requires EnvOk()
      modifies this`calls, cmms
      ensures EnvOk() && (EnvValue(), ref) == CmmsCreate(faults, old(EnvValue()), wo)
    {
      hide Store.Valid, SiteValues, Register;
      ref := cmms.CreateWorkOrder(wo, faults.cmms(calls));
      calls := calls + 1;
    }

    method CancelExternal(ref: nat) returns (ok: bool)
      requires EnvOk()
      modifies this`calls, cmms
      ensures EnvOk() && (EnvValue(), ok) == CmmsCancel(faults, old(EnvValue()), ref)
    {
      hide Store.Valid, SiteValues, CancelRecord;
      ok := cmms.CancelWorkOrder(ref, faults.cmms(calls));
      calls := calls + 1;
    }

    // ----- Work orders -----

    /** Applies the work-order policy for a fired alert: creates an order, or links the alert to the open one. */
    method RaiseWorkOrder(a: Machine, alert: Alert, top: string) returns (outcome: Raise)
      requires EnvOk() && OneOpenEach(EnvValue().orders) && a.Valid() && Apart(a)
      modifies this`calls, this`nextId, store, cmms
      ensures EnvOk() && (EnvValue(), outcome) == RaiseOrder(faults, old(EnvValue()), old(a.Value()), alert, top)
    {
      hide Store.Valid, Simulated.Value, SiteValues, EnvValue, OneOpenEach, FindOpen, Machine.Valid, Machine.Value;
      a.Fields();
      var policy := a.pipe.tpl.orders;
      var mode := policy.FindFailureMode(top);
      var existing := FindOpenOrder(a.id, mode);
      if existing.Unavailable? {
        return Failed;
      }
      var open := if existing.Found? then Some(existing.value) else None;
      if policy.Creates(alert.confidence, open) {
        outcome := CreateWorkOrder(a, alert, mode);
      } else if open.Some? && alert.workOrder.None? {
        var saved := SaveAlert(alert.(workOrder := Some(open.value.id)));
        outcome := if saved then Skipped else Failed;
      } else {
        outcome := Skipped;
      }
    }

    method CreateWorkOrder(a: Machine, alert: Alert, mode: string) returns (outcome: Raise)
      requires EnvOk() && a.Valid() && Apart(a)
      modifies this`calls, this`nextId, store, cmms
      ensures EnvOk() && (EnvValue(), outcome) == CreateOrder(faults, old(EnvValue()), old(a.Value()), alert, mode)
    {
      hide Store.Valid, Simulated.Value, SiteValues, EnvValue, Machine.Valid, Machine.Value;
      a.Fields();
      var id := NewId();
      var wo := WorkOrder(
        id, alert.id, a.id, mode, a.pipe.tpl.orders.priority, alert.confidence, alert.risk, OrderOpen, None);
      var ref := CreateRecord(wo);
      if ref.None? {
        return Failed;
      }
      var saved := SaveOrder(wo.(external := ref));
      if !saved {
        return Failed;
      }
      saved := SaveAlert(alert.(workOrder := Some(wo.id)));
      outcome := if saved then Created else Failed;
    }

    // ----- One evaluation -----

    ghost function At(a: Machine, t: Tally, ok: bool): Progress
      requires a.Valid()
      reads this, store, cmms, siteLimiters.Values, a, a.repr
    {
      Progress(EnvValue(), a.Value(), t, ok)
    }

    /** The shared limiter of the machine's site, made on first use; null when the site is not limited. */
    method FindSiteLimiter(a: Machine) returns (l: RateLimit.RateLimiter?)
      requires EnvOk() && a.Valid() && Apart(a)
      modifies this`siteLimiters
      ensures EnvOk() && Apart(a) && fresh(siteLimiters.Values - old(siteLimiters.Values))
      ensures LimiterValue(l) == SiteLimiter(old(EnvValue()), a.Value())
      ensures EnvValue() == PutSiteLimiter(old(EnvValue()), a.Value().site, LimiterValue(l))
      ensures l != null ==> a.Value().site in siteLimiters && siteLimiters[a.Value().site] == l
    {
      hide Store.Valid, Simulated.Value, Machine.Valid, Machine.Value, Template.Valid;
      a.Fields();
      var limit := a.pipe.tpl.alerting.maxPerSite;
      if limit <= 0 {
        return null;
      }
      if a.site !in siteLimiters {
        var made := new RateLimit.RateLimiter(limit, HOUR);
        siteLimiters := siteLimiters[a.site := made];
      }
      l := siteLimiters[a.site];
      assert SiteValues() == old(SiteValues())[a.site := l.Value()];
    }

    /** Feeds the machine's policy; of the shared limiters only the given one moves. */
    method FeedLimited(a: Machine, ts: Time, risk: real, l: RateLimit.RateLimiter?) returns (outcome: Outcome)
      requires EnvOk() && a.Valid() && Apart(a)
      requires l != null ==> a.site in siteLimiters && siteLimiters[a.site] == l
      modifies l, a.repr
      ensures EnvOk() && a.Valid() && Apart(a) && a.repr == old(a.repr)
      ensures EnvValue() == PutSiteLimiter(old(EnvValue()), old(a.site), LimiterValue(l))
      ensures var v, before := old(a.Value()), old(LimiterValue(l));
              var (p, d, after) := Policy.Evaluate(v.policy, ts, risk, before);
              && LimiterValue(l) == after && outcome == d.outcome
              && a.Value() == v.(policy := p, history := v.history.(
                   evaluations := v.history.evaluations + [PolicyRuns.Obs(ts, risk, v.policy.offset, before)]))
    {
      hide Store.Valid, Simulated.Value, Machine.Valid, Machine.Value, Policy.Evaluate;
      ghost var sites, at := SiteValues(), a.site;
      outcome := a.Feed(ts, risk, l);
      assert SiteValues() == if l == null then sites else sites[at := l.Value()];
    }

    /** Feeds the policy one risk, with the site's limiter. */
    method FeedMachine(a: Machine, ts: Time, risk: real, ghost t: Tally) returns (outcome: Outcome)
      requires EnvOk() && a.Valid() && Apart(a)
      modifies this`siteLimiters, siteLimiters.Values, a.repr
      ensures EnvOk() && a.Valid() && Apart(a) && a.repr == old(a.repr)
      ensures fresh(siteLimiters.Values - old(siteLimiters.Values))
      ensures var (s, o) := FeedPolicy(old(At(a, t, true)), ts, risk); At(a, t, true) == s && outcome == o
    {
      hide Store.Valid, Simulated.Value, SiteValues, EnvValue, Machine.Valid, Machine.Value, Policy.Evaluate,
        SiteLimiter;
      a.Fields();
      ghost var env := EnvValue();
      var l := FindSiteLimiter(a);
      ghost var before := LimiterValue(l);
      outcome := FeedLimited(a, ts, risk, l);
      PutTwice(env, old(a.site), before, LimiterValue(l));
    }

    /** The first attempt at a work order; a failure is remembered for retry. */
    method TryFirst(a: Machine, alert: Alert, top: string, t: Tally) returns (t': Tally)
      requires EnvOk() && a.Valid() && Apart(a) && OneOpenEach(EnvValue().orders)
      modifies this`calls, this`nextId, store, cmms, a
      ensures EnvOk() && a.Valid() && Apart(a) && a.repr == old(a.repr)
      ensures At(a, t', true) == FirstTry(faults, old(At(a, t, true)), alert, top)
    {
      hide Store.Valid, Simulated.Value, SiteValues, EnvValue, Machine.Valid, Machine.Value, OneOpenEach, RaiseOrder;
      a.Fields();
      var outcome := RaiseWorkOrder(a, alert, top);
      if outcome.Failed? {
        a.AwaitRetry(top);
      }
      t' := CountOrder(t, outcome);
    }

    method BuildAlert(a: Machine, ts: Time, scored: Assessment, top: string) returns (alert: Alert)
      requires EnvOk() && a.Valid() && Apart(a)
      modifies this`nextId
      ensures EnvOk() && EnvValue() == old(EnvValue()).(nextId := alert.id + 1)
      ensures alert == NewAlert(old(EnvValue()), a.Value(), ts, scored, top)
    {
      hide Store.Valid, Simulated.Value, SiteValues, EnvValue, Machine.Valid, Machine.Value;
      a.Fields();
      var id := NewId();
      var mode := a.pipe.tpl.orders.FindFailureMode(top);
      alert := Alert(id, a.id, mode, scored.risk, scored.confidence, AlertOpen, ts, None, None);
    }

    /** The policy fired: store an alert, and try to raise a work order for it. */
    method Fire(a: Machine, ts: Time, scored: Assessment, top: string, t: Tally) returns (t': Tally, ok: bool)
      requires EnvOk() && a.Valid() && Apart(a) && OneOpenEach(EnvValue().orders)
      modifies this`calls, this`nextId, store, cmms, a
      ensures EnvOk() && a.Valid() && Apart(a) && a.repr == old(a.repr)
      ensures At(a, t', ok) == OnFire(faults, old(At(a, t, true)), ts, scored, top)
    {
      hide Store.Valid, Simulated.Value, SiteValues, EnvValue, Machine.Valid, Machine.Value, OneOpenEach, FirstTry,
        NewAlert;
      a.Fields();
      var alert := BuildAlert(a, ts, scored, top);
      ok := SaveAlert(alert);
      t' := t.(alerts := t.alerts + 1);
      if !ok {
        return;
      }
      a.OpenAlert(alert.id);
      t' := TryFirst(a, alert, top, t');
    }

    /** The episode holds: retry a failed work order, a bounded number of times. */
    method Hold(a: Machine, t: Tally) returns (t': Tally, ok: bool)
      requires EnvOk() && a.Valid() && Apart(a) && OneOpenEach(EnvValue().orders)
      modifies this`calls, this`nextId, store, cmms, a
      ensures EnvOk() && a.Valid() && Apart(a) && a.repr == old(a.repr)
      ensures At(a, t', ok) == OnHold(cfg, faults, old(At(a, t, true)))
    {
      hide Store.Valid, Simulated.Value, SiteValues, EnvValue, Machine.Valid, Machine.Value, OneOpenEach, RaiseOrder;
      a.Fields();
      t', ok := t, true;
      if a.pendingTop == "" || a.openAlert.None? || a.retry >= cfg.maxRetry {
        return;
      }
      a.CountRetry();
      var found := GetAlert(a.openAlert.value);
      if !found.Found? {
        return t, false;
      }
      var outcome := RaiseWorkOrder(a, found.value, a.pendingTop);
      if !outcome.Failed? {
        a.DropPending();
      }
      t' := CountOrder(t', outcome);
    }

    /** The episode cleared: stamp its alert, if it is still stored. */
    method ClearEpisode(a: Machine, ts: Time, t: Tally) returns (ok: bool)
      requires EnvOk() && a.Valid() && Apart(a)
      modifies this`calls, store, a
      ensures EnvOk() && a.Valid() && Apart(a) && a.repr == old(a.repr)
      ensures At(a, t, ok) == OnClear(faults, old(At(a, t, true)), ts)
    {
      hide Store.Valid, Simulated.Value, SiteValues, EnvValue, Machine.Valid, Machine.Value;
      a.Fields();
      a.DropPending();
      if a.openAlert.None? {
        return true;
      }
      var found := GetAlert(a.openAlert.value);
      if found.Unavailable? {
        return false;
      }
      if found.Found? {
        ok := SaveAlert(found.value.(clearedAt := Some(ts)));
        if !ok {
          return;
        }
      }
      a.CloseAlert();
      return true;
    }

    /** Acts on the outcome of an evaluation. */
    method Act(a: Machine, ts: Time, scored: Assessment, top: string, outcome: Outcome, t: Tally)
      returns (t': Tally, ok: bool)
      requires EnvOk() && a.Valid() && Apart(a) && OneOpenEach(EnvValue().orders)
      modifies this`calls, this`nextId, store, cmms, a
      ensures EnvOk() && a.Valid() && Apart(a) && a.repr == old(a.repr)
      ensures At(a, t', ok) == React(cfg, faults, old(At(a, t, true)), ts, scored, top, outcome)
    {
      hide Store.Valid, Simulated.Value, SiteValues, EnvValue, Machine.Valid, Machine.Value, OneOpenEach, OnFire,
        OnHold, OnClear;
      a.Fields();
      t', ok := t, true;
      match outcome {
        case Fire => t', ok := Fire(a, ts, scored, top, t);
        case Hold => t', ok := Hold(a, t);
        case Clear => ok := ClearEpisode(a, ts, t);
        case _ =>
      }
    }

    /** The scoring half of an evaluation: warm-up, which may have to be persisted, detectors and fusion. */
    method ExamineMachine(a: Machine, ts: Time, t: Tally) returns (scored: Assessment, top: string, t': Tally, ok: bool)
      requires EnvOk() && a.Valid() && Apart(a) && a.kernels == cfg.kernels
      modifies this`calls, store, a.repr
      ensures EnvOk() && a.Valid() && Apart(a) && a.repr == old(a.repr)
      ensures old(a.Value()).tpl.Valid()
      ensures Examined(At(a, t', ok), scored, top) == Examine(cfg, faults, old(At(a, t, true)), ts)
    {
      hide Store.Valid, Simulated.Value, SiteValues, EnvValue, Machine.Valid, Machine.Value;
      hide Template.Valid, Learn, Assess, EngineModel.SaveSnapshot;
      a.Fields();
      scored, top, ok := NO_ASSESSMENT, "", true;
      t' := t.(evaluated := t.evaluated + 1);
      var features, fitted := a.StartEvaluation(ts);
      if fitted {
        ok := SaveSnapshot(a);
      }
      if ok {
        scored, top := a.Score(features);
      }
    }

    /** The policy's turn. */
    method DecideMachine(a: Machine, ts: Time, scored: Assessment, top: string, t: Tally) returns (t': Tally, ok: bool)
      requires EnvOk() && a.Valid() && Apart(a) && OneOpenEach(EnvValue().orders)
      modifies this`calls, this`nextId, this`siteLimiters, store, cmms, siteLimiters.Values, a.repr
      ensures EnvOk() && a.Valid() && Apart(a) && a.repr == old(a.repr)
      ensures fresh(siteLimiters.Values - old(siteLimiters.Values))
      ensures At(a, t', ok) == Decide(cfg, faults, old(At(a, t, true)), ts, scored, top)
    {
      hide Store.Valid, Simulated.Value, SiteValues, EnvValue, Machine.Valid, Machine.Value, OneOpenEach, FeedPolicy,
        React;
      a.Fields();
      FeedPolicyFrame(At(a, t, true), ts, scored.risk);
      var outcome := FeedMachine(a, ts, scored.risk, t);
      t', ok := Act(a, ts, scored, top, outcome, t);
    }

    /** The full pipeline for one machine at event time `ts`. */
    method Evaluate(a: Machine, ts: Time, t: Tally) returns (t': Tally, ok: bool)
      requires EnvOk() && a.Valid() && Apart(a) && OneOpenEach(EnvValue().orders) && a.kernels == cfg.kernels
      modifies this`calls, this`nextId, this`siteLimiters, store, cmms, siteLimiters.Values, a.repr
      ensures EnvOk() && a.Valid() && Apart(a) && a.repr == old(a.repr)
      ensures fresh(siteLimiters.Values - old(siteLimiters.Values))
      ensures old(a.Value()).tpl.Valid()
      ensures At(a, t', ok) == EvaluateAsset(cfg, faults, old(At(a, t, true)), ts)
    {
      hide Store.Valid, Simulated.Value, SiteValues, EnvValue, Machine.Valid, Machine.Value, OneOpenEach,
        Template.Valid, Examine, Decide;
      a.Fields();
      ExamineFrame(cfg, faults, At(a, t, true), ts);
      var scored, top;
      scored, top, t', ok := ExamineMachine(a, ts, t);
      if ok {
        t', ok := DecideMachine(a, ts, scored, top, t');
      }
    }

    method EvaluateWhenReady(a: Machine, ts: Time, t: Tally) returns (t': Tally, ok: bool)
      requires EnvOk() && a.Valid() && Apart(a) && OneOpenEach(EnvValue().orders) && a.kernels == cfg.kernels
      modifies this`calls, this`nextId, this`siteLimiters, store, cmms, siteLimiters.Values, a.repr
      ensures EnvOk() && a.Valid() && Apart(a) && a.repr == old(a.repr)
      ensures fresh(siteLimiters.Values - old(siteLimiters.Values))
      ensures WellFormed(old(a.Value()))
      ensures At(a, t', ok) == EvaluateIfReady(cfg, faults, old(At(a, t, true)), ts)
    {
      hide Store.Valid, Simulated.Value, SiteValues, EnvValue, Machine.Valid, Machine.Value, OneOpenEach,
        Template.Valid, EvaluateAsset;
      a.Fields();
      t', ok := t, true;
      var ready := a.IsReady();
      if ready && ts > a.lastEval {
        t', ok := Evaluate(a, ts, t);
      }
    }

    // ----- One batch -----

    /** The machine and its surroundings satisfy what every reachable state does. */
    ghost predicate Sound(a: Machine)
      reads this, store, cmms, siteLimiters.Values, a, a.repr
    {
      && EnvOk() && a.Valid() && Apart(a) && a.kernels == cfg.kernels
      && EnvInv(cfg, EnvValue()) && AssetInv(cfg, EnvValue(), a.Value())
    }

    method EvaluateSound(a: Machine, ts: Time, t: Tally) returns (t': Tally, ok: bool)
      requires Sound(a)
      modifies this`calls, this`nextId, this`siteLimiters, store, cmms, siteLimiters.Values, a.repr
      ensures Sound(a) && a.repr == old(a.repr)
      ensures fresh(siteLimiters.Values - old(siteLimiters.Values))
      ensures WellFormed(old(a.Value()))
      ensures At(a, t', ok) == EvaluateIfReady(cfg, faults, old(At(a, t, true)), ts)
    {
      hide EnvOk, Apart, EnvValue, Machine.Valid, Machine.Value, EnvInv, AssetInv, OneOpenEach, WellFormed,
        EvaluateIfReady;
      a.Fields();
      OneOpenEachHolds(cfg, EnvValue());
      EvaluateKeeps(cfg, faults, At(a, t, true), ts);
      t', ok := EvaluateWhenReady(a, ts, t);
    }

    /** One metric of a share, after the evaluation its time may call for. */
    method PushSound(a: Machine, m: Metric, t: Tally) returns (t': Tally)
      requires Sound(a)
      modifies a.repr
      ensures Sound(a) && a.repr == old(a.repr) && EnvValue() == old(EnvValue()) && siteLimiters == old(siteLimiters)
      ensures WellFormed(old(a.Value()))
      ensures var (v, pushed) := PushMetric(cfg, old(a.Value()), m); a.Value() == v && t' == Count(t, pushed)
    {
      hide Store.Valid, Simulated.Value, SiteValues, Machine.Valid, Machine.Value, EnvInv, AssetInv, PushMetric;
      a.Fields();
      PushKeepsInv(cfg, EnvValue(), a.Value(), m);
      a.OwnsBuffers();
      var pushed := a.Push(cfg, m);
      t' := Count(t, pushed);
    }

    /** The metrics of one machine in time order: evaluate whenever event time moves on, and once at the end. */
    method IngestShare(a: Machine, ms: seq<Metric>, t: Tally) returns (t': Tally, ok: bool)
      requires Sound(a)
      modifies this`calls, this`nextId, this`siteLimiters, store, cmms, siteLimiters.Values, a.repr
      ensures Sound(a) && a.repr == old(a.repr)
      ensures fresh(siteLimiters.Values - old(siteLimiters.Values))
      ensures WellFormed(old(a.Value()))
      ensures At(a, t', ok) == IngestGroup(cfg, faults, old(At(a, t, true)), ZERO_TIME, ms)
    {
      hide Sound, EnvValue, Machine.Valid, Machine.Value, WellFormed, EvaluateIfReady, PushMetric;
      SoundMachine(a);
      ghost var s := At(a, t, true);
      var pending := ZERO_TIME;
      t', ok := t, true;
      for i := 0 to |ms|
        invariant Sound(a) && a.repr == old(a.repr) && a.Valid() && WellFormed(a.Value())
        invariant fresh(siteLimiters.Values - old(siteLimiters.Values))
        invariant IngestGroup(cfg, faults, s, ZERO_TIME, ms)
                  == IngestGroup(cfg, faults, At(a, t', true), pending, ms[i..])
      {
        var m := ms[i];
        assert ms[i..][0] == m && ms[i..][1..] == ms[i + 1..];
        if pending != ZERO_TIME && m.ts > pending {
          t', ok := EvaluateSound(a, pending, t');
          if !ok {
            return;
          }
        }
        pending := m.ts;
        t' := PushSound(a, m, t');
        SoundMachine(a);
      }
      if pending != ZERO_TIME {
        t', ok := EvaluateSound(a, pending, t');
      }
    }

    lemma SoundMachine(a: Machine)
      requires Sound(a)
      ensures a.Valid() && WellFormed(a.Value())
    {
      hide Machine.Valid, Machine.Value, WellFormed, EnvInv, AssetInv;
      a.Fields();
    }

    // ----- The whole engine -----

    /** Every machine is in order, is the engine's own, and shares nothing with another. */
    ghost predicate MachinesOk()
      reads this`assets, this`owned, this`siteLimiters, assets.Values, owned
    {
      && {this, store, cmms} !! owned && siteLimiters.Values !! owned
      && (forall id :: id in assets ==>
            && assets[id] in assets[id].repr && assets[id].repr <= owned
            && assets[id].Valid() && assets[id].id == id && assets[id].kernels == cfg.kernels)
      && (forall i, j :: i in assets && j in assets && i != j ==> assets[i].repr !! assets[j].repr)
    }

    ghost function AssetValues(): map<string, Asset>
      requires MachinesOk()
      reads this`assets, this`owned, this`siteLimiters, assets.Values, owned
    {
      map id | id in assets :: assets[id].Value()
    }

    ghost function WorldValue(): World
      requires MachinesOk()
      reads this, store, cmms, siteLimiters.Values, assets.Values, owned
    {
      World(templates, AssetValues(), EnvValue(), born)
    }

    /** The engine is consistent, and in a state that keeps what every reachable state does. */
    ghost predicate Valid()
      reads this, store, cmms, siteLimiters.Values, assets.Values, owned
    {
      && EnvOk() && MachinesOk() && Grown(cfg.kernels, draws)
      && WorldShape(WorldValue()) && WorldInv(cfg, WorldValue())
    }

    /** When one machine moved inside its own objects, the others are as they were. */
    twostate lemma OneMoved(id: string)
      requires old(MachinesOk()) && id in old(assets) && assets == old(assets) && owned == old(owned)
      requires {this, store, cmms} !! owned && siteLimiters.Values !! owned
      requires var a := assets[id]; a.Valid() && a.repr == old(a.repr)
      requires forall o :: o in owned && o !in assets[id].repr ==> unchanged(o)
      ensures MachinesOk() && AssetValues() == old(AssetValues())[id := assets[id].Value()]
    {
      hide Machine.Valid, Machine.Value;
    }

    /** A new machine shares nothing with the known ones. */
    twostate lemma OneAdded(id: string, new a: Machine)
      requires old(MachinesOk()) && id !in old(assets) && assets == old(assets)[id := a] && owned == old(owned) + a.repr
      requires siteLimiters == old(siteLimiters) && a.Valid() && a.id == id && a.kernels == cfg.kernels
      requires fresh(a.repr) && a in a.repr
      requires forall o :: o in old(owned) ==> unchanged(o)
      ensures MachinesOk() && AssetValues() == old(AssetValues())[id := a.Value()]
    {
      hide Machine.Valid, Machine.Value;
    }

    /** A known machine may learn its site. */
    method JoinKnown(id: string, site: string)
      requires MachinesOk() && id in assets
      modifies assets[id]
      ensures MachinesOk()
      ensures var a := old(AssetValues())[id];
              AssetValues() == old(AssetValues())[id :=
                if site != DEFAULT_SITE && a.site == DEFAULT_SITE then a.(site := site) else a]
    {
      hide Machine.Valid, Machine.Value, Grown;
      var a := assets[id];
      a.Fields();
      a.JoinSite(site);
      OneMoved(id);
    }

    /** A machine first seen. */
    method RegisterMachine(id: string, site: string, tpl: Template)
      requires MachinesOk() && Grown(cfg.kernels, draws) && id !in assets && tpl.Valid()
      modifies this`assets, this`owned
      ensures MachinesOk() && fresh(owned - old(owned)) && id in assets
      ensures AssetValues() == old(AssetValues())[id := BuiltAsset(id, site, tpl, map[], 0.0, 0.0, nextId)]
    {
      hide Machine.Valid, Machine.Value, Grown, Template.Valid, BuiltAsset;
      var a := new Machine(cfg.kernels, draws, id, site, tpl, map[], 0.0, 0.0, nextId);
      a.Fields();
      assets, owned := assets[id := a], owned + a.repr;
      OneAdded(id, a);
    }

    /** The machine a metric belongs to: known, or new when its class has a template. */
    method FindMachine(m: Metric) returns (known: bool)
      requires Valid()
      modifies this`assets, this`owned, owned
      ensures Valid() && fresh(owned - old(owned)) && siteLimiters == old(siteLimiters)
      ensures known == AssetFor(old(WorldValue()), m).Some?
      ensures known ==> m.asset in assets
      ensures var w := old(WorldValue());
              WorldValue() == if known then w.(assets := w.assets[m.asset := AssetFor(w, m).value]) else w
    {
      hide EnvValue, Machine.Valid, Machine.Value, WorldInv, WorldShape, BuiltAsset, Grown, Template.Valid;
      AssetForKeeps(cfg, WorldValue(), m);
      known := true;
      if m.asset in assets {
        JoinKnown(m.asset, m.site);
      } else if m.class_ == "" || m.class_ !in templates {
        known := false;
      } else {
        EnvFields();
        RegisterMachine(m.asset, m.site, templates[m.class_]);
      }
    }

    /** A machine of a consistent engine is sound. */
    lemma MachineIsSound(id: string)
      requires Valid() && id in assets
      ensures Sound(assets[id]) && assets[id].Value() == WorldValue().assets[id] && assets[id].repr <= owned
    {
      hide EnvValue, Machine.Valid, Machine.Value, EnvInv, AssetInv, WorldShape, Grown;
      var a := assets[id];
      assert Apart(a) && WorldValue().assets[id] == a.Value();
      assert EnvInv(cfg, EnvValue()) && AssetInv(cfg, EnvValue(), a.Value());
    }

    /** One machine's share of a batch moves that machine and the surroundings. */
    method ShareOf(id: string, ms: seq<Metric>, t: Tally) returns (t': Tally, ok: bool)
      requires Valid() && id in assets
      modifies this`calls, this`nextId, this`siteLimiters, store, cmms, siteLimiters.Values, owned
      ensures EnvOk() && MachinesOk() && fresh(siteLimiters.Values - old(siteLimiters.Values)) && owned == old(owned)
      ensures var w := old(WorldValue());
              && WellFormed(w.assets[id])
              && var s := IngestGroup(cfg, faults, Progress(w.env, w.assets[id], t, true), ZERO_TIME, ms);
                 && WorldValue() == w.(assets := w.assets[id := s.asset], env := s.env)
                 && t' == s.tally && ok == s.ok
    {
      hide EnvValue, Machine.Valid, Machine.Value, Sound, WorldInv, WorldShape, Grown, IngestGroup, WellFormed;
      MachineIsSound(id);
      var a := assets[id];
      t', ok := IngestShare(a, ms, t);
      SoundParts(a);
      OneMoved(id);
    }

    lemma SoundParts(a: Machine)
      requires Sound(a)
      ensures EnvOk() && a.Valid() && Apart(a) && a.kernels == cfg.kernels
    {
      hide EnvValue, Machine.Valid, Machine.Value, EnvInv, AssetInv;
    }

    /** One asset's share of a batch, for a machine known or new; without a machine all of it is rejected. */
    method IngestMachine(ms: seq<Metric>, t: Tally) returns (t': Tally, ok: bool)
      requires Valid() && ms != []
      modifies this`calls, this`nextId, this`siteLimiters, this`assets, this`owned
      modifies store, cmms, siteLimiters.Values, owned
      ensures Valid() && fresh(owned - old(owned)) && fresh(siteLimiters.Values - old(siteLimiters.Values))
      ensures Ingested(WorldValue(), t', ok) == IngestAsset(cfg, faults, old(WorldValue()), t, ms)
    {
      hide EnvOk, EnvValue, MachinesOk, AssetValues, WorldInv, WorldShape, Grown, IngestGroup, WellFormed, AssetFor;
      ghost var w := WorldValue();
      IngestAssetShape(cfg, faults, w, t, ms);
      IngestAssetKeeps(cfg, faults, w, t, ms);
      var known := FindMachine(ms[0]);
      if !known {
        return t.(rejected := t.rejected + |ms|), true;
      }
      AssetForShape(w, ms[0]);
      t', ok := ShareOf(ms[0].asset, ms, t);
      assert WorldValue() == IngestAsset(cfg, faults, w, t, ms).world;
    }

    /** Ingests a batch: groups it by asset, and takes each asset's share in time order. */
    method IngestBatch(batch: seq<Metric>) returns (t: Tally, ok: bool)
      requires Valid()
      modifies this`calls, this`nextId, this`siteLimiters, this`assets, this`owned
      modifies store, cmms, siteLimiters.Values, owned
      ensures Valid() && fresh(owned - old(owned)) && fresh(siteLimiters.Values - old(siteLimiters.Values))
      ensures Ingested(WorldValue(), t, ok) == Ingest(cfg, faults, old(WorldValue()), batch)
    {
      hide EnvOk, EnvValue, MachinesOk, AssetValues, WorldInv, WorldShape, Grown, IngestAsset, ValidOf, AssetsOf,
        GroupOf, SortByTime;
      var byAsset, order, rejected := GroupBatch(batch);
      t, ok := NOTHING.(rejected := rejected), true;
      ghost var w, first, ms := WorldValue(), t, ValidOf(batch);
      ValidLength(batch);
      AssetsHaveGroups(ms);
      for i := 0 to |order|
        invariant Valid() && fresh(owned - old(owned)) && fresh(siteLimiters.Values - old(siteLimiters.Values))
        invariant WorldShape(WorldValue())
        invariant IngestAssets(cfg, faults, w, first, order, ms)
                  == IngestAssets(cfg, faults, WorldValue(), t, order[i..], ms)
      {
        assert order[i..][0] == order[i] && order[i..][1..] == order[i + 1..];
        assert order[i] in order;
        t, ok := IngestMachine(SortByTime(byAsset[order[i]]), t);
        if !ok {
          return;
        }
        ShapeOfValid();
      }
    }

    lemma ShapeOfValid()
      requires Valid()
      ensures WorldShape(WorldValue())
    {
      hide EnvOk, EnvValue, MachinesOk, AssetValues, WorldInv, WorldShape, Grown;
    }

    // ----- Feedback -----

    /** Cancels an open order, best effort: any failure leaves it as it was. */
    method CancelWorkOrder(id: Id)
      requires EnvOk()
      modifies this`calls, store, cmms
      ensures EnvOk() && EnvValue() == CancelOrder(faults, old(EnvValue()), id)
    {
      hide Store.Valid, Simulated.Value, SiteValues, EnvValue, CmmsCancel, EngineModel.SaveOrder;
      var found := GetOrder(id);
      if !found.Found? || found.value.status != OrderOpen {
        return;
      }
      var wo := found.value;
      if wo.external.Some? {
        var cancelled := CancelExternal(wo.external.value);
        if !cancelled {
          return;
        }
      }
      var _ := SaveOrder(wo.(status := OrderCancelled));
    }

    lemma NotOwned()
      requires MachinesOk()
      ensures {this, store, cmms} !! owned && siteLimiters.Values !! owned
    {
    }

    lemma AssetKeys()
      requires MachinesOk()
      ensures AssetValues().Keys == assets.Keys
    {
      hide Machine.Valid, Machine.Value;
    }

    lemma MachineOf(id: string)
      requires MachinesOk() && id in assets
      ensures assets[id].Valid() && assets[id].Value() == AssetValues()[id] && assets[id].id == id
      ensures Apart(assets[id]) && assets[id].repr <= owned
    {
      hide Machine.Valid, Machine.Value;
    }

    /** One machine adapts to a verdict. */
    method JudgeMachine(id: string, ghost alert: Id, v: Verdict)
      requires EnvOk() && MachinesOk() && id in assets
      modifies owned
      ensures EnvOk() && MachinesOk() && owned == old(owned) && EnvValue() == old(EnvValue())
      ensures AssetValues() == old(AssetValues())[id := Judged(old(AssetValues())[id], alert, v)]
      ensures assets == old(assets) && templates == old(templates) && born == old(born)
    {
      hide Store.Valid, Machine.Valid, Machine.Value, Judged;
      var a := assets[id];
      a.OwnsPolicy();
      a.Judge(alert, v);
      OneMoved(id);
    }

    /** Moves the machine's threshold, persists it, and cancels the linked order when the class says so. */
    method AdaptMachine(alert: Alert, v: Verdict) returns (ok: bool)
      requires EnvOk() && MachinesOk() && alert.asset in assets
      modifies this`calls, store, cmms, owned
      ensures EnvOk() && MachinesOk() && owned == old(owned)
      ensures var w := old(WorldValue());
              var a := Judged(w.assets[alert.asset], alert.id, v);
              var (env, saved) := AfterAdapting(faults, w.env, a, alert, v);
              WorldValue() == w.(assets := w.assets[alert.asset := a], env := env) && ok == saved
    {
      hide Store.Valid, Simulated.Value, SiteValues, EnvValue, MachinesOk, AssetValues, Machine.Valid, Machine.Value,
        Judged;
      hide EngineModel.SaveSnapshot, CancelOrder;
      NotOwned();
      JudgeMachine(alert.asset, alert.id, v);
      MachineOf(alert.asset);
      var a := assets[alert.asset];
      a.Fields();
      ok := SaveSnapshot(a);
      if ok && v.Dismiss? && alert.workOrder.Some? && a.pipe.tpl.orders.autoCancelOnDismiss {
        CancelWorkOrder(alert.workOrder.value);
      }
    }

    /** A first verdict on an alert. */
    method JudgeOpen(alert: Alert, v: Verdict) returns (reply: Reply)
      requires EnvOk() && MachinesOk()
      modifies this`calls, store, cmms, owned
      ensures EnvOk() && MachinesOk() && owned == old(owned)
      ensures (WorldValue(), reply) == JudgeAlert(faults, old(WorldValue()), alert, v)
    {
      hide Store.Valid, EnvValue, MachinesOk, AssetValues, Judged, AfterAdapting, EngineModel.SaveAlert;
      NotOwned();
      AssetKeys();
      if alert.asset in assets {
        var ok := AdaptMachine(alert, v);
        if !ok {
          return StoreError;
        }
      }
      var saved := SaveAlert(alert.(status := StatusFor(v)));
      reply := if saved then Applied else StoreError;
    }

    /** Technician feedback. A repeated verdict is a no-op and a conflicting one is refused. */
    method GiveFeedback(id: Id, v: Verdict) returns (reply: Reply)
      requires Valid()
      modifies this`calls, store, cmms, owned
      ensures Valid() && owned == old(owned)
      ensures (WorldValue(), reply) == Feedback(faults, old(WorldValue()), id, v)
    {
      hide EnvValue, MachinesOk, AssetValues, WorldInv, WorldShape, Grown, JudgeAlert, Store.Valid;
      NotOwned();
      FeedbackShape(faults, WorldValue(), id, v);
      FeedbackKeeps(cfg, faults, WorldValue(), id, v);
      var found := GetAlert(id);
      match found {
        case Unavailable => return StoreError;
        case NotFound => return UnknownAlert;
        case Found(alert) =>
          if alert.status == AlertOpen {
            reply := JudgeOpen(alert, v);
          } else {
            reply := if alert.status == StatusFor(v) then Repeated else Conflict;
          }
      }
    }

    // ----- Templates -----

    /** When one machine was rebuilt, taking fresh objects, the others are as they were. */
    twostate lemma OneRebuilt(id: string)
      requires old(MachinesOk()) && id in old(assets) && assets == old(assets) && owned == old(owned) + assets[id].repr
      requires {this, store, cmms} !! owned && siteLimiters.Values !! owned
      requires var a := assets[id]; a.Valid() && a in a.repr && fresh(a.repr - old(a.repr))
      requires forall o :: o in old(owned) && o !in old(assets[id].repr) ==> unchanged(o)
      ensures MachinesOk() && AssetValues() == old(AssetValues())[id := assets[id].Value()]
    {
      hide Machine.Valid, Machine.Value;
    }

    method RebuildMachine(id: string, t: Template)
      requires EnvOk() && MachinesOk() && Grown(cfg.kernels, draws) && id in assets && t.Valid()
      modifies this`owned, owned
      ensures EnvOk() && MachinesOk() && fresh(owned - old(owned)) && EnvValue() == old(EnvValue())
      ensures AssetValues() == old(AssetValues())[id := Rebuilt(old(AssetValues())[id], t, nextId)]
      ensures assets == old(assets) && templates == old(templates) && born == old(born)
      ensures siteLimiters == old(siteLimiters) && nextId == old(nextId)
    {
      hide Store.Valid, Machine.Valid, Machine.Value, AssetValues, Rebuilt, Grown, Template.Valid;
      MachineOf(id);
      var a := assets[id];
      a.Rebuild(t, draws, nextId);
      a.Fields();
      owned := owned + a.repr;
      OneRebuilt(id);
    }

    /** One machine in turn: rebuilt if it is of the template's class. */
    method RebuildIfOfClass(id: string, t: Template)
      requires EnvOk() && MachinesOk() && Grown(cfg.kernels, draws) && id in assets && t.Valid()
      modifies this`owned, owned
      ensures EnvOk() && MachinesOk() && fresh(owned - old(owned)) && EnvValue() == old(EnvValue())
      ensures assets == old(assets) && templates == old(templates) && born == old(born)
      ensures siteLimiters == old(siteLimiters) && nextId == old(nextId)
      ensures var before := old(AssetValues());
              && id in before && id in RebuiltClass(before, t, nextId)
              && AssetValues() == before[id := RebuiltClass(before, t, nextId)[id]]
    {
      hide Store.Valid, EnvValue, MachinesOk, AssetValues, Rebuilt, Grown, Template.Valid, Machine.Valid, Machine.Value;
      AssetKeys();
      MachineOf(id);
      assets[id].Fields();
      if assets[id].class_ == t.class_ {
        RebuildMachine(id, t);
      } else {
        assert AssetValues()[id := AssetValues()[id]] == AssetValues();
      }
    }

    /** Rebuilds every machine of the template's class, in any order. */
    method RebuildClass(t: Template)
      requires EnvOk() && MachinesOk() && Grown(cfg.kernels, draws) && t.Valid()
      modifies this`owned, owned
      ensures EnvOk() && MachinesOk() && fresh(owned - old(owned)) && EnvValue() == old(EnvValue())
      ensures AssetValues() == RebuiltClass(old(AssetValues()), t, nextId)
      ensures templates == old(templates) && born == old(born) && siteLimiters == old(siteLimiters)
              && nextId == old(nextId)
    {
      hide EnvOk, EnvValue, MachinesOk, AssetValues, RebuiltClass, Grown, Template.Valid, PartRebuilt;
      AssetKeys();
      ghost var before := AssetValues();
      NoneRebuilt(before, t, nextId);
      var left := assets.Keys;
      while left != {}
        invariant EnvOk() && MachinesOk() && fresh(owned - old(owned)) && EnvValue() == old(EnvValue())
        invariant templates == old(templates) && born == old(born) && siteLimiters == old(siteLimiters)
                  && nextId == old(nextId)
        invariant assets == old(assets) && left <= assets.Keys == before.Keys
        invariant PartRebuilt(AssetValues(), before, t, nextId, left)
      {
        var id :| id in left;
        OneMoreRebuilt(AssetValues(), before, t, nextId, left, id);
        RebuildIfOfClass(id, t);
        left := left - {id};
      }
      AllRebuilt(AssetValues(), before, t, nextId);
    }

    method StoreTemplate(t: Template) returns (ok: bool)
      requires EnvOk()
      modifies this`calls, store
      ensures EnvOk() && ok == !faults.store(old(EnvValue()).calls)
      ensures var env := old(EnvValue());
              EnvValue() == if ok then Called(env).(templates := env.templates[t.class_ := t]) else Called(env)
    {
      hide Store.Valid, Simulated.Value, SiteValues;
      ok := store.PutTemplate(t, faults.store(calls));
      calls := calls + 1;
    }

    /** Validates, stores and activates a template, and rebuilds the machines of its class. */
    method UpdateTemplate(t: Template) returns (ok: bool)
      requires Valid()
      modifies this`calls, this`templates, this`owned, store, owned
      ensures Valid() && fresh(owned - old(owned))
      ensures (WorldValue(), ok) == PutTemplate(faults, old(WorldValue()), t)
    {
      hide Store.Valid, EnvValue, MachinesOk, AssetValues, WorldInv, WorldShape, Rebuilt, Grown, Template.Valid;
      TemplateShape(faults, WorldValue(), t);
      TemplateKeeps(cfg, faults, WorldValue(), t);
      NotOwned();
      EnvFields();
      if !t.Valid() {
        return false;
      }
      ok := StoreTemplate(t);
      if ok {
        templates := templates[t.class_ := t];
        EnvFields();
        RebuildClass(t);
      }
    }

    // ----- Restoring -----

    /** Built-in templates are stored and activated for the classes that have none. */
    method SeedTemplates()
      requires EnvOk() && ConfigOk(cfg) && templates == store.templates
      modifies this`templates, store`templates
      ensures EnvOk() && templates == store.templates == cfg.defaults + old(templates)
    {
      hide Store.Valid, Template.Valid;
      var left := cfg.defaults.Keys;
      ghost var stored := templates;
      while left != {}
        invariant EnvOk() && left <= cfg.defaults.Keys && templates == store.templates
        invariant templates.Keys == stored.Keys + (cfg.defaults.Keys - left)
        invariant forall c :: c in templates ==> templates[c] == if c in stored then stored[c] else cfg.defaults[c]
      {
        var c :| c in left;
        if c !in templates {
          assert cfg.defaults[c].class_ == c;
          var _ := store.PutTemplate(cfg.defaults[c], false);
          templates := store.templates;
        }
        left := left - {c};
      }
    }

    /** One machine back from its snapshot. */
    method RestoreMachine(id: string, snap: Snapshot)
      requires EnvOk() && MachinesOk() && Grown(cfg.kernels, draws) && id !in assets
      requires snap.class_ in templates && templates[snap.class_].Valid()
      modifies this`assets, this`owned
      ensures EnvOk() && MachinesOk() && fresh(owned - old(owned)) && EnvValue() == old(EnvValue())
      ensures AssetValues() == old(AssetValues())[id := Restored(id, snap, templates, nextId)]
    {
      hide Store.Valid, Machine.Valid, Machine.Value, Grown, Template.Valid, BuiltAsset;
      var tpl := templates[snap.class_];
      var a := new Machine(cfg.kernels, draws, id, snap.site, tpl, snap.baselines, snap.offset, snap.age, nextId);
      a.Fields();
      assets, owned := assets[id := a], owned + a.repr;
      OneAdded(id, a);
    }

    /** Every asset with a snapshot of a known class comes back. */
    method RestoreMachines(snapshots: map<string, Snapshot>)
      requires EnvOk() && MachinesOk() && Grown(cfg.kernels, draws) && assets == map[]
      requires forall c :: c in templates ==> templates[c].Valid()
      modifies this`assets, this`owned
      ensures EnvOk() && MachinesOk() && fresh(owned - old(owned)) && EnvValue() == old(EnvValue())
      ensures AssetValues() == map id | id in snapshots && snapshots[id].class_ in templates ::
                Restored(id, snapshots[id], templates, nextId)
    {
      hide Store.Valid, EnvValue, MachinesOk, AssetValues, Grown, Template.Valid, Restored;
      AssetKeys();
      var left := snapshots.Keys;
      while left != {}
        invariant EnvOk() && MachinesOk() && fresh(owned - old(owned)) && EnvValue() == old(EnvValue())
        invariant left <= snapshots.Keys && assets.Keys == AssetValues().Keys
        invariant assets.Keys == set id | id in snapshots && id !in left && snapshots[id].class_ in templates
        invariant forall id :: id in assets ==> AssetValues()[id] == Restored(id, snapshots[id], templates, nextId)
      {
        var id :| id in left;
        if snapshots[id].class_ in templates {
          RestoreMachine(id, snapshots[id]);
          AssetKeys();
        }
        left := left - {id};
      }
    }
  }

  /** What is outside an engine that has stopped. */
  ghost function Left(store: Store, cmms: Simulated, nextId: Id, calls: nat): Env
    reads store, cmms
  {
    Env(map[], store.alerts, store.workOrders, store.assets, store.templates, cmms.Value(), nextId, calls)
  }

  /** A world without a running engine. */
  function Stopped(env: Env): World {
    World(map[], map[], env, 0)
  }

  /** Over an empty store a start is the first start of the runs. */
  lemma FirstStart(cfg: Config)
    requires ConfigOk(cfg)
    ensures var w := Stopped(Env(map[], map[], map[], map[], map[], EMPTY_CMMS, 0, 0));
            WorldShape(w) && WorldInv(cfg, w) && Restarted(cfg, w) == Begin(cfg)
  {
    assert cfg.defaults + map[] == cfg.defaults;
  }

  /** A first start over an empty in-memory store and a new simulated maintenance system: where every run begins. */
  method Start(cfg: Config, draws: Drawing, faults: Faults) returns (engine: Engine)
    requires Grown(cfg.kernels, draws) && ConfigOk(cfg)
    ensures fresh(engine) && fresh(engine.store) && fresh(engine.cmms) && fresh(engine.owned)
    ensures engine.Valid() && engine.cfg == cfg && engine.draws == draws && engine.faults == faults
    ensures engine.WorldValue() == Begin(cfg)
  {
    hide Engine.Valid, Engine.WorldValue, Store.Valid, WorldInv, WorldShape, Grown, Restarted, Begin, ConfigOk;
    FirstStart(cfg);
    var store := new Store();
    var cmms := new Simulated();
    engine := new Engine(cfg, draws, faults, store, cmms, 0, 0);
  }

  /** Every asset outside `left` is rebuilt if it is of the class. */
  ghost predicate PartRebuilt(
      now: map<string, Asset>, before: map<string, Asset>, t: Template, since: Id, left: set<string>) {
    && now.Keys == before.Keys
    && forall id :: id in before ==> now[id] == if id in left then before[id] else RebuiltClass(before, t, since)[id]
  }

  lemma NoneRebuilt(before: map<string, Asset>, t: Template, since: Id)
    ensures PartRebuilt(before, before, t, since, before.Keys)
  {
  }

  lemma OneMoreRebuilt(
      now: map<string, Asset>, before: map<string, Asset>, t: Template, since: Id, left: set<string>, id: string)
    requires PartRebuilt(now, before, t, since, left) && id in left && id in before
    ensures id in RebuiltClass(now, t, since)
    ensures PartRebuilt(now[id := RebuiltClass(now, t, since)[id]], before, t, since, left - {id})
  {
    hide Rebuilt;
  }

  lemma AllRebuilt(now: map<string, Asset>, before: map<string, Asset>, t: Template, since: Id)
    requires PartRebuilt(now, before, t, since, {})
    ensures now == RebuiltClass(before, t, since)
  {
    hide Rebuilt;
  }

  /** One more metric, grouped. */
  lemma GroupGrows(batch: seq<Metric>, i: nat, id: string)
    requires i < |batch|
    ensures var before, after := ValidOf(batch[..i]), ValidOf(batch[..i + 1]);
            match Validated(batch[i])
            case None => after == before
            case Some(m) =>
              && after == before + [m]
              && AssetsOf(after)
                 == (if m.asset in AssetsOf(before) then AssetsOf(before) else AssetsOf(before) + [m.asset])
              && GroupOf(after, id) == GroupOf(before, id) + if m.asset == id then [m] else []
  {
    assert batch[..i + 1][..i] == batch[..i];
    var before := ValidOf(batch[..i]);
    if Validated(batch[i]).Some? {
      assert (before + [Validated(batch[i]).value])[..|before|] == before;
    }
  }

  /** Groups the valid metrics of a batch by asset, in order of first appearance. */
  method GroupBatch(batch: seq<Metric>) returns (byAsset: map<string, seq<Metric>>, order: seq<string>, rejected: nat)
    ensures order == AssetsOf(ValidOf(batch)) && rejected == |batch| - |ValidOf(batch)|
    ensures forall id :: id in order ==> id in byAsset && byAsset[id] == GroupOf(ValidOf(batch), id)
  {
    hide ValidOf, AssetsOf, GroupOf, Validated;
    byAsset, order, rejected := map[], [], 0;
    NothingGrouped();
    for i := 0 to |batch|
      invariant order == AssetsOf(ValidOf(batch[..i])) && rejected == i - |ValidOf(batch[..i])|
      invariant forall id :: id in order <==> id in byAsset
      invariant forall id :: id in byAsset ==> byAsset[id] == GroupOf(ValidOf(batch[..i]), id)
    {
      var valid := Validated(batch[i]);
      forall id
        ensures valid.None? ==> GroupOf(ValidOf(batch[..i + 1]), id) == GroupOf(ValidOf(batch[..i]), id)
        ensures valid.Some? ==> GroupOf(ValidOf(batch[..i + 1]), id)
                                == GroupOf(ValidOf(batch[..i]), id)
                                   + if valid.value.asset == id then [valid.value] else []
      {
        GroupGrows(batch, i, id);
      }
      GroupGrows(batch, i, "");
      match valid {
        case None => rejected := rejected + 1;
        case Some(m) =>
          if m.asset !in byAsset {
            AssetsHaveGroups(ValidOf(batch[..i]));
            order := order + [m.asset];
            byAsset := byAsset[m.asset := [m]];
          } else {
            byAsset := byAsset[m.asset := byAsset[m.asset] + [m]];
          }
      }
    }
    assert batch[..|batch|] == batch;
  }

  lemma NothingGrouped()
    ensures ValidOf([]) == [] && AssetsOf([]) == []
  {
  }

  lemma ShapedTemplates(w: World)
    requires WorldShape(w)
    ensures forall c :: c in w.templates ==> w.templates[c].Valid()
  {
  }

  lemma AssetForKeeps(cfg: Config, w: World, m: Metric)
    requires WorldShape(w) && WorldInv(cfg, w)
    ensures m.class_ in w.templates ==> w.templates[m.class_].Valid()
    ensures AssetFor(w, m).Some? ==>
              var w' := w.(assets := w.assets[m.asset := AssetFor(w, m).value]); WorldShape(w') && WorldInv(cfg, w')
  {
    hide Template.Valid, AssetFor, EnvInv, AssetInv, Extractor.Fits;
    if AssetFor(w, m).Some? {
      AssetForShape(w, m);
      AssetForInv(cfg, w, m);
    }
  }

  lemma OneOpenEachHolds(cfg: Config, env: Env)
    requires EnvInv(cfg, env)
    ensures OneOpenEach(env.orders)
  {
    hide OneOpenEach, AlertsKeyed, OrdersKeyed, CmmsOk, CallsBounded;
  }
}
