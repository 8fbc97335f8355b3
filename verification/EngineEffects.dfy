/** What raising a work order can do to the world around an asset, whatever fails. */
module EngineEffects {
  import opened Common
  import opened WorkOrders
  import opened EngineModel
  import Fusion

  /** At most one more create call, for this alert; the records stay in order. */
  ghost predicate CmmsStep(c: Cmms, c': Cmms, alert: Id) {
    c' == c || (c'.calls == c.calls + [alert] && (CmmsOk(c) ==> CmmsOk(c')))
  }

  /** One new open order, under a fresh identifier, for an asset and failure mode that had none. */
  ghost predicate OrderAdded(env: Env, env': Env, asset: string) {
    && env.nextId < env'.nextId && env.nextId in env'.orders
    && var wo := env'.orders[env.nextId];
       && wo.id == env.nextId && wo.asset == asset && wo.status.OrderOpen?
       && env'.orders == env.orders[env.nextId := wo]
       && OpenOrders(env.orders, asset, wo.failureMode) == {}
  }

  /** The alert saved again, with another link. */
  ghost predicate AlertLinked(alerts: map<Id, Alert>, alerts': map<Id, Alert>, alert: Alert) {
    alert.id in alerts' && alerts' == alerts[alert.id := alert.(workOrder := alerts'[alert.id].workOrder)]
  }

  ghost predicate RaiseEffect(env: Env, env': Env, asset: string, alert: Alert) {
    && env' == env.(alerts := env'.alerts, orders := env'.orders, cmms := env'.cmms,
                    nextId := env'.nextId, calls := env'.calls)
    && env.nextId <= env'.nextId
    && (env'.alerts == env.alerts || AlertLinked(env.alerts, env'.alerts, alert))
    && (env'.orders == env.orders || OrderAdded(env, env', asset))
    && CmmsStep(env.cmms, env'.cmms, alert.id)
  }

  lemma LinkEffect(f: Faults, env: Env, alert: Alert, id: Id, done: Raise)
    ensures var (e, _) := LinkOrder(f, env, alert, id, done);
            && e == env.(alerts := e.alerts, calls := e.calls)
            && (e.alerts == env.alerts || AlertLinked(env.alerts, e.alerts, alert))
  {
  }

  lemma StoreOrderEffect(f: Faults, env: Env, wo: WorkOrder, alert: Alert)
    ensures var (e, _) := StoreOrder(f, env, wo, alert);
            && e == env.(alerts := e.alerts, orders := e.orders, calls := e.calls)
            && (e.alerts == env.alerts || AlertLinked(env.alerts, e.alerts, alert))
            && (e.orders == env.orders || e.orders == env.orders[wo.id := wo])
  {
    hide LinkOrder, AlertLinked;
    LinkEffect(f, SaveOrder(f, env, wo).0, alert, wo.id, Created);
  }

  lemma CmmsCreateEffect(f: Faults, env: Env, wo: WorkOrder)
    ensures var (e, ref) := CmmsCreate(f, env, wo);
            && e == env.(cmms := e.cmms, calls := e.calls)
            && CmmsStep(env.cmms, e.cmms, wo.alert)
  {
    hide Register, CmmsOk;
    var called := env.cmms.(calls := env.cmms.calls + [wo.alert]);
    RegisterStep(env.cmms, called, wo);
  }

  lemma RegisterStep(c: Cmms, called: Cmms, wo: WorkOrder)
    requires called == c.(calls := called.calls)
    ensures CmmsOk(c) ==> CmmsOk(called)
    ensures Register(called, wo).0.calls == called.calls
    ensures CmmsOk(c) ==> CmmsOk(Register(called, wo).0)
  {
    if CmmsOk(c) {
      assert CmmsOk(called);
      RegisterIsIdempotent(called, wo, wo);
    }
  }

  lemma CreateEffect(f: Faults, env: Env, a: Asset, alert: Alert, mode: string)
    requires OpenOrders(env.orders, a.id, mode) == {}
    ensures RaiseEffect(env, CreateOrder(f, env, a, alert, mode).0, a.id, alert)
  {
    hide CmmsCreate, StoreOrder, RaiseEffect, OpenOrders, CmmsStep, AlertLinked;
    var wo := NewOrder(env, a, alert, mode);
    var env0 := env.(nextId := wo.id + 1);
    CmmsCreateEffect(f, env0, wo);
    var (env1, ref) := CmmsCreate(f, env0, wo);
    StoreOrderEffect(f, env1, wo.(external := ref), alert);
    var env2 := if ref.None? then env1 else StoreOrder(f, env1, wo.(external := ref), alert).0;
    CreateCombines(env, env1, env2, a.id, alert, mode, wo.(external := ref));
  }

  lemma CreateCombines(env: Env, env1: Env, env2: Env, asset: string, alert: Alert, mode: string, wo: WorkOrder)
    requires OpenOrders(env.orders, asset, mode) == {}
    requires wo.id == env.nextId && wo.asset == asset && wo.failureMode == mode && wo.status.OrderOpen?
    requires env1 == env.(nextId := env.nextId + 1, cmms := env1.cmms, calls := env1.calls)
    requires CmmsStep(env.cmms, env1.cmms, alert.id)
    requires env2 == env1.(alerts := env2.alerts, orders := env2.orders, calls := env2.calls)
    requires env2.alerts == env1.alerts || AlertLinked(env1.alerts, env2.alerts, alert)
    requires env2.orders == env1.orders || env2.orders == env1.orders[wo.id := wo]
    ensures RaiseEffect(env, env2, asset, alert)
  {
    hide OpenOrders, CmmsStep, AlertLinked;
  }

  lemma NothingRaised(env: Env, asset: string, alert: Alert)
    ensures RaiseEffect(env, Called(env), asset, alert)
  {
  }

  lemma RaiseHasEffect(f: Faults, env: Env, a: Asset, alert: Alert, top: string)
    ensures RaiseEffect(env, RaiseOrder(f, env, a, alert, top).0, a.id, alert)
  {
    var mode := a.tpl.orders.ResolveFailureMode(top);
    var open := FindOpen(env.orders, a.id, mode);
    NothingRaised(env, a.id, alert);
    if !f.store(env.calls) {
      if a.tpl.orders.Creates(alert.confidence, open) {
        hide CreateOrder, RaiseEffect;
        CreateEffect(f, Called(env), a, alert, mode);
        EffectAfterCall(env, CreateOrder(f, Called(env), a, alert, mode).0, a.id, alert);
      } else {
        if open.Some? {
          LinkEffect(f, Called(env), alert, open.value.id, Skipped);
        }
        hide LinkOrder, AlertLinked, FindOpen;
      }
    }
  }

  lemma EffectAfterCall(env: Env, env': Env, asset: string, alert: Alert)
    requires RaiseEffect(Called(env), env', asset, alert)
    ensures RaiseEffect(env, env', asset, alert)
  {
    hide AlertLinked, OpenOrders, CmmsStep;
  }

  // ----- Acting on the policy's outcome -----

  /** The counts that only pushing and evaluating change. */
  ghost predicate SameCounts(t: Tally, t': Tally) {
    t' == t.(alerts := t'.alerts, workOrders := t'.workOrders)
  }

  /** A fire: a new alert under a fresh identifier is stored and becomes the open one; or the store failed. */
  ghost predicate FireEffect(f: Faults, s: Progress, s': Progress, alert: Alert) {
    && SameCounts(s.tally, s'.tally) && s'.tally.alerts == s.tally.alerts + 1
    && var env0 := s.env.(nextId := alert.id + 1, calls := s.env.calls + 1);
       if !s'.ok then !StoreWorks(f) && s'.env == env0 && s'.asset == s.asset
       else
         && RaiseEffect(env0.(alerts := s.env.alerts[alert.id := alert]), s'.env, s.asset.id, alert)
         && s'.asset
            == s.asset.(openAlert := Some(alert.id), pendingTop := s'.asset.pendingTop, retry := s'.asset.retry,
                                 history := s.asset.history.(raised := s.asset.history.raised + [alert.id]))
         && ((s'.asset.pendingTop == s.asset.pendingTop && s'.asset.retry == s.asset.retry) || s'.asset.retry == 0)
  }

  lemma FirstTryEffect(f: Faults, s: Progress, alert: Alert, top: string)
    ensures var s' := FirstTry(f, s, alert, top);
            && RaiseEffect(s.env, s'.env, s.asset.id, alert)
            && s'.ok && SameCounts(s.tally, s'.tally) && s'.tally.alerts == s.tally.alerts
            && s'.asset == s.asset.(pendingTop := s'.asset.pendingTop, retry := s'.asset.retry)
            && ((s'.asset.pendingTop == s.asset.pendingTop && s'.asset.retry == s.asset.retry) || s'.asset.retry == 0)
  {
    hide RaiseOrder, RaiseEffect;
    RaiseHasEffect(f, s.env, s.asset, alert, top);
  }

  lemma FireHasEffect(f: Faults, s: Progress, ts: Time, as_: Fusion.Assessment, top: string)
    ensures FireEffect(f, s, OnFire(f, s, ts, as_, top), NewAlert(s.env, s.asset, ts, as_, top))
  {
    hide FirstTry, RaiseEffect, NewAlert;
    var alert := NewAlert(s.env, s.asset, ts, as_, top);
    var a1 := s.asset.(openAlert := Some(alert.id),
                       history := s.asset.history.(raised := s.asset.history.raised + [alert.id]));
    var env1 := s.env.(nextId := alert.id + 1, calls := s.env.calls + 1, alerts := s.env.alerts[alert.id := alert]);
    FirstTryEffect(f, Progress(env1, a1, s.tally.(alerts := s.tally.alerts + 1), true), alert, top);
  }

  /** A hold: nothing, or one more bounded retry for the open alert. */
  ghost predicate HoldEffect(cfg: Config, f: Faults, s: Progress, s': Progress) {
    || s' == s
    || (&& SameCounts(s.tally, s'.tally) && s'.tally.alerts == s.tally.alerts
        && s.asset.pendingTop != "" && s.asset.openAlert.Some? && s.asset.retry < cfg.maxRetry
        && s'.asset == s.asset.(retry := s.asset.retry + 1, pendingTop := s'.asset.pendingTop)
        && (s'.asset.pendingTop == s.asset.pendingTop || s'.asset.pendingTop == "")
        && if s'.ok then
             && s.asset.openAlert.value in s.env.alerts
             && RaiseEffect(s.env, s'.env, s.asset.id, s.env.alerts[s.asset.openAlert.value])
           else
             && s'.env == Called(s.env)
             && (StoreWorks(f) ==> s.asset.openAlert.value !in s.env.alerts))
  }

  lemma TryAgainEffect(f: Faults, s: Progress, alert: Alert)
    ensures var s' := TryAgain(f, s, alert);
            && RaiseEffect(s.env, s'.env, s.asset.id, alert)
            && s'.ok && SameCounts(s.tally, s'.tally) && s'.tally.alerts == s.tally.alerts
            && s'.asset == s.asset.(pendingTop := s'.asset.pendingTop)
            && (s'.asset.pendingTop == s.asset.pendingTop || s'.asset.pendingTop == "")
  {
    hide RaiseOrder, RaiseEffect;
    RaiseHasEffect(f, s.env, s.asset, alert, s.asset.pendingTop);
  }

  lemma HoldHasEffect(cfg: Config, f: Faults, s: Progress)
    requires s.ok
    ensures HoldEffect(cfg, f, s, OnHold(cfg, f, s))
  {
    hide TryAgain, RaiseEffect;
    var a := s.asset;
    if a.openAlert.Some? && a.openAlert.value in s.env.alerts {
      var alert, s1 :=
        s.env.alerts[a.openAlert.value], Progress(Called(s.env), a.(retry := a.retry + 1), s.tally, true);
      TryAgainEffect(f, s1, alert);
      EffectAfterCall(s.env, TryAgain(f, s1, alert).env, a.id, alert) by {
        hide RaiseEffect;
      }
    }
  }

  /** A clear: the open alert is stamped and closed, unless the store fails. */
  ghost predicate ClearEffect(f: Faults, s: Progress, s': Progress, ts: Time) {
    && s'.tally == s.tally
    && s'.asset == s.asset.(pendingTop := "", openAlert := s'.asset.openAlert)
    && (s'.asset.openAlert == s.asset.openAlert || s'.asset.openAlert == None)
    && s'.env == s.env.(alerts := s'.env.alerts, calls := s'.env.calls)
    && (StoreWorks(f) ==> s'.ok && s'.asset.openAlert == None)
    && var stamped := s.asset.openAlert.Some? && s.asset.openAlert.value in s.env.alerts;
       && (s'.env.alerts == s.env.alerts || (stamped && s'.env.alerts == Stamped(s, ts)))
       && (StoreWorks(f) && stamped ==> s'.env.alerts == Stamped(s, ts))
  }

  function Stamped(s: Progress, ts: Time): map<Id, Alert>
    requires s.asset.openAlert.Some? && s.asset.openAlert.value in s.env.alerts
  {
    var alert := s.env.alerts[s.asset.openAlert.value];
    s.env.alerts[alert.id := alert.(clearedAt := Some(ts))]
  }

  lemma ClearHasEffect(f: Faults, s: Progress, ts: Time)
    requires s.ok
    ensures ClearEffect(f, s, OnClear(f, s, ts), ts)
  {
  }
}
