/**
  When a work order is created: exactly what raising one does, call by call, and
  what that means over runs in which nothing fails.
 */
module EngineOrders {
  import opened Common
  import opened Policy
  import opened WorkOrders
  import opened Pipeline
  import opened EngineModel
  import opened EngineEffects
  import opened EngineWorld
  import opened EngineSafety
  import Extractor
  import Fusion
  import RateLimit

  // ----- Raising one order -----

  /** The alert is confident enough, and no open order covers its asset and failure mode. */
  ghost predicate NeedsOrder(env: Env, a: Asset, alert: Alert, mode: string) {
    alert.confidence >= a.tpl.orders.confidenceThreshold && OpenOrders(env.orders, a.id, mode) == {}
  }

  /** An open order covers it already, and the alert has no link yet. */
  ghost predicate NeedsLink(env: Env, a: Asset, alert: Alert, mode: string) {
    OpenOrders(env.orders, a.id, mode) != {} && alert.workOrder.None?
  }

  /**
    The calls an attempt makes, from number n on: look for an open order, then
    either create in the maintenance system, store the order and link the alert,
    or link the alert only.
   */
  ghost predicate SomeCallFails(f: Faults, n: nat, needsOrder: bool, needsLink: bool) {
    || f.store(n)
    || (needsOrder && (f.cmms(n + 1) || f.store(n + 2) || f.store(n + 3)))
    || (needsLink && f.store(n + 1))
  }

  /** The order an alert asks for. */
  function OrderFor(id: Id, a: Asset, alert: Alert, mode: string): WorkOrder {
    WorkOrder(id, alert.id, a.id, mode, a.tpl.orders.priority, alert.confidence, alert.risk, OrderOpen, None)
  }

  /**
    The maintenance system was asked for the order once, and has a record under its
    key: the one it had, or the order as a new one.
   */
  ghost predicate Registered(c: Cmms, c': Cmms, wo: WorkOrder, ref: nat) {
    var key := Key(wo.asset, wo.failureMode, wo.alert);
    && c'.calls == c.calls + [wo.alert]
    && ref in c'.records && c'.records[ref].order.IdempotencyKey() == key
    && if key in c.byKey then c'.records == c.records
       else ref !in c.records && c'.records == c.records[ref := Record(wo, false)]
  }

  /** One more order, with the reference of its record. */
  ghost predicate OrderStored(env: Env, env': Env, a: Asset, alert: Alert, mode: string) {
    Stored(env.cmms, env.orders, OrderFor(env.nextId, a, alert, mode), env')
  }

  ghost predicate Stored(c: Cmms, orders: map<Id, WorkOrder>, wo: WorkOrder, env': Env) {
    exists ref :: Registered(c, env'.cmms, wo, ref) && env'.orders == orders[wo.id := wo.(external := Some(ref))]
  }

  ghost predicate LinkedAs(alerts: map<Id, Alert>, alerts': map<Id, Alert>, alert: Alert, order: Id) {
    alerts' == alerts[alert.id := alert.(workOrder := Some(order))]
  }

  lemma CreateCase(f: Faults, env: Env, a: Asset, alert: Alert, mode: string)
    requires CmmsOk(env.cmms)
    ensures var (env', outcome) := CreateOrder(f, env, a, alert, mode);
            var n := env.calls;
            && (outcome.Created? <==> !f.cmms(n) && !f.store(n + 1) && !f.store(n + 2))
            && (outcome.Failed? <==> !outcome.Created?)
            && env' == env.(orders := env'.orders, alerts := env'.alerts, cmms := env'.cmms, calls := env'.calls,
                            nextId := env.nextId + 1)
            && (outcome.Created? ==> LinkedAs(env.alerts, env'.alerts, alert, env.nextId))
            && (outcome.Failed? ==> env'.alerts == env.alerts)
            && (if f.cmms(n) then
                  env'.orders == env.orders && env'.cmms == env.cmms.(calls := env.cmms.calls + [alert.id])
                else if f.store(n + 1) then
                  env'.orders == env.orders
                  && exists ref :: Registered(env.cmms, env'.cmms, OrderFor(env.nextId, a, alert, mode), ref)
                else
                  OrderStored(env, env', a, alert, mode))
  {
    var wo := NewOrder(env, a, alert, mode);
    var env0 := env.(nextId := wo.id + 1);
    RegisterCase(f, env0, wo);
    assert wo == OrderFor(env.nextId, a, alert, mode);
    hide CmmsCreate, CmmsOk, Registered, StoreOrder, OrderStored;
    var (env1, ref) := CmmsCreate(f, env0, wo);
    assert CreateOrder(f, env, a, alert, mode)
           == if ref.None? then (env1, Failed) else StoreOrder(f, env1, wo.(external := ref), alert);
    hide CreateOrder, NewOrder, LinkedAs;
    if ref.Some? {
      StoreCase(f, env1, wo.(external := ref), alert);
      assert Registered(env.cmms, env1.cmms, wo, ref.value);
      if !f.store(env1.calls) {
        NewOrderStored(env, StoreOrder(f, env1, wo.(external := ref), alert).0, a, alert, mode, ref.value);
      }
    }
  }

  lemma NewOrderStored(env: Env, env': Env, a: Asset, alert: Alert, mode: string, ref: nat)
    requires Registered(env.cmms, env'.cmms, NewOrder(env, a, alert, mode), ref)
    requires env'.orders == env.orders[env.nextId := NewOrder(env, a, alert, mode).(external := Some(ref))]
    ensures OrderStored(env, env', a, alert, mode)
  {
    hide Registered;
  }

  lemma StoreCase(f: Faults, env: Env, wo: WorkOrder, alert: Alert)
    ensures var (env', outcome) := StoreOrder(f, env, wo, alert);
            var n := env.calls;
            && (outcome.Created? <==> !f.store(n) && !f.store(n + 1))
            && (outcome.Failed? <==> !outcome.Created?)
            && env' == env.(orders := env'.orders, alerts := env'.alerts, calls := env'.calls)
            && (if outcome.Created? then LinkedAs(env.alerts, env'.alerts, alert, wo.id) else env'.alerts == env.alerts)
            && env'.orders == if f.store(n) then env.orders else env.orders[wo.id := wo]
  {
  }

  lemma RegisterCase(f: Faults, env: Env, wo: WorkOrder)
    requires CmmsOk(env.cmms)
    ensures var (env', ref) := CmmsCreate(f, env, wo);
            && env' == env.(cmms := env'.cmms, calls := env.calls + 1)
            && (ref.None? <==> f.cmms(env.calls))
            && (ref.None? ==> env'.cmms == env.cmms.(calls := env.cmms.calls + [wo.alert]))
            && (ref.Some? ==> Registered(env.cmms, env'.cmms, wo, ref.value))
  {
    var called := env.cmms.(calls := env.cmms.calls + [wo.alert]);
    RegisterCalled(env.cmms, called, wo);
    hide Register, Registered, CmmsOk;
  }

  lemma RegisterCalled(c: Cmms, called: Cmms, wo: WorkOrder)
    requires CmmsOk(c) && called == c.(calls := c.calls + [wo.alert])
    ensures var (c', ref) := Register(called, wo); Registered(c, c', wo, ref)
  {
    assert c.seq_ + 1 !in c.records;
  }

  /**
    Raising an order, exactly. It creates one if and only if the alert is confident
    enough, no open order covers it and no call fails; it fails if and only if a
    call does. A created order is the only new one, carries the alert's data and
    the reference of its maintenance record, and the alert links to it. An open
    order that exists already gets the link instead. A failing call leaves what the
    calls before it did.
   */
  lemma RaiseExactly(f: Faults, env: Env, a: Asset, alert: Alert, top: string)
    requires OrdersKeyed(env) && CmmsOk(env.cmms)
    ensures var mode := a.tpl.orders.ResolveFailureMode(top);
            var needsOrder, needsLink := NeedsOrder(env, a, alert, mode), NeedsLink(env, a, alert, mode);
            var fails := SomeCallFails(f, env.calls, needsOrder, needsLink);
            var (env', outcome) := RaiseOrder(f, env, a, alert, top);
            && (outcome.Failed? <==> fails)
            && (outcome.Created? <==> needsOrder && !fails)
            && (needsOrder && !fails ==>
                  OrderStored(env, env', a, alert, mode) && LinkedAs(env.alerts, env'.alerts, alert, env.nextId))
            && (needsLink && !fails ==>
                  && env'.orders == env.orders && env'.cmms == env.cmms
                  && exists i :: i in OpenOrders(env.orders, a.id, mode) && LinkedAs(env.alerts, env'.alerts, alert, i))
            && (fails ==> env'.alerts == env.alerts && RaiseFails(f, env, env', a, alert, mode))
            && (!needsOrder && !needsLink ==> env' == Called(env))
  {
    var mode := a.tpl.orders.ResolveFailureMode(top);
    hide OrderPolicy.ResolveFailureMode, CreateOrder, CmmsOk, OrderStored, Registered;
    if !f.store(env.calls) {
      if NeedsOrder(env, a, alert, mode) {
        CreateCase(f, Called(env), a, alert, mode);
        var env' := RaiseOrder(f, env, a, alert, top).0;
        assert RaiseOrder(f, env, a, alert, top) == CreateOrder(f, Called(env), a, alert, mode);
        StoredAfterCall(env, env', a, alert, mode);
      } else {
        SkipCase(f, env, a, alert, top);
      }
    }
  }

  /** What a failed attempt leaves behind. */
  ghost predicate RaiseFails(f: Faults, env: Env, env': Env, a: Asset, alert: Alert, mode: string) {
    if f.store(env.calls) then env' == Called(env)
    else if !NeedsOrder(env, a, alert, mode) then env' == Called(Called(env))
    else if f.cmms(env.calls + 1) then
      env'.orders == env.orders && env'.cmms == env.cmms.(calls := env.cmms.calls + [alert.id])
    else if f.store(env.calls + 2) then
      env'.orders == env.orders
      && exists ref :: Registered(env.cmms, env'.cmms, OrderFor(env.nextId, a, alert, mode), ref)
    else OrderStored(env, env', a, alert, mode)
  }

  lemma StoredAfterCall(env: Env, env': Env, a: Asset, alert: Alert, mode: string)
    ensures OrderStored(Called(env), env', a, alert, mode) == OrderStored(env, env', a, alert, mode)
  {
    hide Stored;
  }

  lemma SkipCase(f: Faults, env: Env, a: Asset, alert: Alert, top: string)
    requires OrdersKeyed(env) && !f.store(env.calls)
    requires !NeedsOrder(env, a, alert, a.tpl.orders.ResolveFailureMode(top))
    ensures var mode := a.tpl.orders.ResolveFailureMode(top);
            var (env', outcome) := RaiseOrder(f, env, a, alert, top);
            if !NeedsLink(env, a, alert, mode) then env' == Called(env) && outcome.Skipped?
            else if f.store(env.calls + 1) then env' == Called(Called(env)) && outcome.Failed?
            else
              && outcome.Skipped? && env'.orders == env.orders && env'.cmms == env.cmms
              && exists i :: i in OpenOrders(env.orders, a.id, mode) && LinkedAs(env.alerts, env'.alerts, alert, i)
  {
    hide OrderPolicy.ResolveFailureMode, CreateOrder;
    var mode := a.tpl.orders.ResolveFailureMode(top);
    var open := FindOpen(env.orders, a.id, mode);
    if open.Some? {
      assert open.value.id in OpenOrders(env.orders, a.id, mode);
    }
  }

  // ----- The first attempt, and the retries -----

  /** The retry state an attempt leaves: what failed is remembered. */
  function Attempted(a: Asset, failed: bool, top: string): Asset {
    if failed then a.(pendingTop := top, retry := 0) else a
  }

  /** What an attempt with the maintenance system and the store does for an alert, from call number n on. */
  ghost predicate AttemptDone(f: Faults, env: Env, env': Env, a: Asset, alert: Alert, mode: string, n: nat) {
    var needsOrder, needsLink := NeedsOrder(env, a, alert, mode), NeedsLink(env, a, alert, mode);
    var fails := SomeCallFails(f, n, needsOrder, needsLink);
    && (fails || !(needsOrder || needsLink) ==> env'.alerts == env.alerts)
    && (needsOrder && !fails ==>
          OrderStored(env, env', a, alert, mode) && LinkedAs(env.alerts, env'.alerts, alert, env.nextId))
    && (needsLink && !fails ==>
          && env'.orders == env.orders && env'.cmms == env.cmms
          && exists i :: i in OpenOrders(env.orders, a.id, mode) && LinkedAs(env.alerts, env'.alerts, alert, i))
  }

  /**
    A fire, exactly. If the store takes the alert it is stored open, with the
    assessment's risk and confidence and the failure mode of the leading feature,
    and becomes the open alert; a work order is attempted at once, and only a failed
    attempt is left pending, with all retries to go.
   */
  lemma FireExactly(f: Faults, s: Progress, ts: Time, as_: Fusion.Assessment, top: string)
    requires OrdersKeyed(s.env) && CmmsOk(s.env.cmms)
    ensures var s', mode := OnFire(f, s, ts, as_, top), s.asset.tpl.orders.ResolveFailureMode(top);
            var alert := Alert(s.env.nextId, s.asset.id, mode, as_.risk, as_.confidence, AlertOpen, ts, None, None);
            var env1 := s.env.(nextId := alert.id + 1, calls := s.env.calls + 1);
            var saved := env1.(alerts := s.env.alerts[alert.id := alert]);
            var needsOrder := NeedsOrder(saved, s.asset, alert, mode);
            var fails := SomeCallFails(f, saved.calls, needsOrder, NeedsLink(saved, s.asset, alert, mode));
            var tally := s.tally.(alerts := s.tally.alerts + 1);
            if f.store(s.env.calls) then s' == Progress(env1, s.asset, tally, false)
            else
              && s'.ok && s'.asset == Attempted(Opened(s.asset, alert.id), fails, top)
              && s'.tally == tally.(workOrders := tally.workOrders + if needsOrder && !fails then 1 else 0)
              && AttemptDone(f, saved, s'.env, s.asset, alert, mode, saved.calls)
  {
    hide RaiseOrder, OrderPolicy.ResolveFailureMode, CmmsOk, OrderStored, FirstTry, AttemptDone;
    var alert := NewAlert(s.env, s.asset, ts, as_, top);
    var env1 := SaveAlert(f, s.env.(nextId := alert.id + 1), alert).0;
    if !f.store(s.env.calls) {
      var s1 := Progress(env1, Opened(s.asset, alert.id), s.tally.(alerts := s.tally.alerts + 1), true);
      assert OnFire(f, s, ts, as_, top) == FirstTry(f, s1, alert, top);
      FirstTryExactly(f, s1, alert, top);
      SameAttempt(f, env1, s.asset, alert, FirstTry(f, s1, alert, top).env);
    }
  }

  /** The alert is open, and counts as raised. */
  function Opened(a: Asset, alert: Id): Asset {
    a.(openAlert := Some(alert), history := a.history.(raised := a.history.raised + [alert]))
  }

  lemma SameAttempt(f: Faults, env: Env, a: Asset, alert: Alert, env': Env)
    ensures var mode, a1 := alert.failureMode, Opened(a, alert.id);
            && NeedsOrder(env, a1, alert, mode) == NeedsOrder(env, a, alert, mode)
            && NeedsLink(env, a1, alert, mode) == NeedsLink(env, a, alert, mode)
            && AttemptDone(f, env, env', a1, alert, mode, env.calls)
               == AttemptDone(f, env, env', a, alert, mode, env.calls)
  {
    hide Stored, OpenOrders;
  }

  lemma SameNeeds(env: Env, a: Asset, env1: Env, a1: Asset, alert: Alert, top: string, env': Env)
    requires env1.orders == env.orders && env1.cmms == env.cmms && a1.id == a.id && a1.tpl == a.tpl
    ensures var mode := a.tpl.orders.ResolveFailureMode(top);
            && NeedsOrder(env1, a1, alert, mode) == NeedsOrder(env, a, alert, mode)
            && NeedsLink(env1, a1, alert, mode) == NeedsLink(env, a, alert, mode)
            && OrderStored(env1, env', a1, alert, mode)
               == OrderStored(env.(nextId := env1.nextId), env', a, alert, mode)
  {
    hide Stored, OpenOrders, OrderPolicy.ResolveFailureMode;
  }

  lemma FirstTryExactly(f: Faults, s: Progress, alert: Alert, top: string)
    requires OrdersKeyed(s.env) && CmmsOk(s.env.cmms)
    ensures var s', mode := FirstTry(f, s, alert, top), s.asset.tpl.orders.ResolveFailureMode(top);
            var needsOrder, needsLink :=
              NeedsOrder(s.env, s.asset, alert, mode), NeedsLink(s.env, s.asset, alert, mode);
            var fails := SomeCallFails(f, s.env.calls, needsOrder, needsLink);
            && s'.ok && s'.asset == Attempted(s.asset, fails, top)
            && s'.tally
               == s.tally.(workOrders := s.tally.workOrders + if needsOrder && !fails then 1 else 0)
            && AttemptDone(f, s.env, s'.env, s.asset, alert, mode, s.env.calls)
  {
    hide RaiseOrder, OrderPolicy.ResolveFailureMode, CmmsOk, OrderStored;
    RaiseExactly(f, s.env, s.asset, alert, top);
  }

  /**
    A hold, exactly. Nothing happens unless an attempt is pending, an alert is open
    and retries are left. Then one retry is spent; a store that cannot load the
    alert ends the evaluation, and otherwise the order is attempted again and stays
    pending if and only if that fails.
   */
  lemma HoldExactly(cfg: Config, f: Faults, s: Progress)
    requires OrdersKeyed(s.env) && CmmsOk(s.env.cmms)
    ensures var s', a := OnHold(cfg, f, s), s.asset;
            if a.pendingTop == "" || a.openAlert.None? || a.retry >= cfg.maxRetry then s' == s
            else if f.store(s.env.calls) || a.openAlert.value !in s.env.alerts then
              s' == Progress(Called(s.env), a.(retry := a.retry + 1), s.tally, false)
            else
              var alert, mode := s.env.alerts[a.openAlert.value], a.tpl.orders.ResolveFailureMode(a.pendingTop);
              var needsOrder, needsLink := NeedsOrder(s.env, a, alert, mode), NeedsLink(s.env, a, alert, mode);
              var fails := SomeCallFails(f, s.env.calls + 1, needsOrder, needsLink);
              && s'.ok
              && s'.asset == a.(retry := a.retry + 1, pendingTop := if fails then a.pendingTop else "")
              && s'.tally
                 == s.tally.(workOrders := s.tally.workOrders + if needsOrder && !fails then 1 else 0)
              && AttemptDone(f, s.env, s'.env, a, alert, mode, s.env.calls + 1)
  {
    hide RaiseOrder, OrderPolicy.ResolveFailureMode, CmmsOk, AttemptDone;
    var a := s.asset;
    if a.openAlert.Some? && a.openAlert.value in s.env.alerts && !f.store(s.env.calls) {
      var alert := s.env.alerts[a.openAlert.value];
      RaiseExactly(f, Called(s.env), a.(retry := a.retry + 1), alert, a.pendingTop);
      AgainDone(f, s.env, a, alert);
    }
  }

  lemma AgainDone(f: Faults, env: Env, a: Asset, alert: Alert)
    requires OrdersKeyed(env) && CmmsOk(env.cmms)
    ensures var mode := a.tpl.orders.ResolveFailureMode(a.pendingTop);
            AttemptDone(f, env, RaiseOrder(f, Called(env), a.(retry := a.retry + 1), alert, a.pendingTop).0, a, alert,
                        mode, env.calls + 1)
  {
    hide RaiseOrder, OrderPolicy.ResolveFailureMode, CmmsOk, OrderStored;
    var a1 := a.(retry := a.retry + 1);
    RaiseExactly(f, Called(env), a1, alert, a.pendingTop);
    SameNeeds(env, a, Called(env), a1, alert, a.pendingTop, RaiseOrder(f, Called(env), a1, alert, a.pendingTop).0);
  }

  // ----- Over runs in which nothing fails -----

  ghost predicate EverythingWorks(f: Faults) {
    StoreWorks(f) && forall n :: !f.cmms(n)
  }

  /** The alert's order is stored, and is for the same asset and failure mode. */
  ghost predicate Linked(orders: map<Id, WorkOrder>, alert: Alert) {
    && alert.workOrder.Some? && alert.workOrder.value in orders
    && orders[alert.workOrder.value].asset == alert.asset
    && orders[alert.workOrder.value].failureMode == alert.failureMode
  }

  /** Alerts and orders stay what they are about, and a linked alert stays linked. */
  ghost predicate LinksKept(env: Env, env': Env) {
    forall x :: x in env.alerts ==>
      && x in env'.alerts && env'.alerts[x].asset == env.alerts[x].asset
      && env'.alerts[x].confidence == env.alerts[x].confidence
      && (Linked(env.orders, env.alerts[x]) ==> Linked(env'.orders, env'.alerts[x]))
  }

  lemma LinksKeptTwice(e1: Env, e2: Env, e3: Env)
    requires LinksKept(e1, e2) && LinksKept(e2, e3)
    ensures LinksKept(e1, e3)
  {
    hide Linked;
  }

  /** No retry is pending, and every alert raised that was confident enough for an order is linked to one. */
  ghost predicate Covered(env: Env, a: Asset) {
    && a.pendingTop == ""
    && forall x :: x in a.history.raised ==>
         x in env.alerts
         && (env.alerts[x].confidence >= a.tpl.orders.confidenceThreshold ==> Linked(env.orders, env.alerts[x]))
  }

  lemma StaysCovered(env: Env, env': Env, a: Asset, a': Asset)
    requires Covered(env, a) && LinksKept(env, env')
    requires a'.pendingTop == "" && a'.tpl == a.tpl && a'.history.raised == a.history.raised
    ensures Covered(env', a')
  {
    hide Linked;
  }

  lemma FireCovers(f: Faults, s: Progress, ts: Time, as_: Fusion.Assessment, top: string)
    requires EverythingWorks(f) && AlertsKeyed(s.env) && OrdersKeyed(s.env) && CmmsOk(s.env.cmms)
    requires Covered(s.env, s.asset)
    ensures var s' := OnFire(f, s, ts, as_, top); LinksKept(s.env, s'.env) && Covered(s'.env, s'.asset)
  {
    hide RaiseOrder, OrderPolicy.ResolveFailureMode, CmmsOk, EverythingWorks;
    var alert := NewAlert(s.env, s.asset, ts, as_, top);
    var env1 := SaveAlert(f, s.env.(nextId := alert.id + 1), alert).0;
    WorksAt(f, s.env.calls);
    var a1 := s.asset.(openAlert := Some(alert.id),
                       history := s.asset.history.(raised := s.asset.history.raised + [alert.id]));
    RaiseLinks(f, env1, a1, alert, top);
    var (env2, outcome) := RaiseOrder(f, env1, a1, alert, top);
    var s' := OnFire(f, s, ts, as_, top);
    assert s'.env == env2 && s'.asset == a1;
    assert LinksKept(s.env, env1);
    LinksKeptTwice(s.env, env1, env2);
  }

  lemma WorksAt(f: Faults, n: nat)
    requires EverythingWorks(f)
    ensures !f.store(n) && !f.cmms(n)
  {
  }

  /** When nothing fails, raising an order for a confident alert links it. */
  lemma RaiseLinks(f: Faults, env: Env, a: Asset, alert: Alert, top: string)
    requires EverythingWorks(f) && OrdersKeyed(env) && CmmsOk(env.cmms)
    requires alert.id in env.alerts && env.alerts[alert.id] == alert && alert.asset == a.id
    requires alert.failureMode == a.tpl.orders.ResolveFailureMode(top)
    ensures var (env', outcome) := RaiseOrder(f, env, a, alert, top);
            && !outcome.Failed? && LinksKept(env, env')
            && (alert.confidence >= a.tpl.orders.confidenceThreshold && alert.workOrder.None? ==>
                  Linked(env'.orders, env'.alerts[alert.id]))
  {
    hide RaiseOrder, OrderPolicy.ResolveFailureMode, CmmsOk, Registered;
    RaiseExactly(f, env, a, alert, top);
  }

  lemma ClearCovers(f: Faults, s: Progress, ts: Time)
    requires AlertsKeyed(s.env) && Covered(s.env, s.asset)
    ensures var s' := OnClear(f, s, ts); LinksKept(s.env, s'.env) && Covered(s'.env, s'.asset)
  {
    hide Covered;
    ClearHasEffect(f, s.(ok := true), ts);
    var s' := OnClear(f, s, ts);
    assert LinksKept(s.env, s'.env);
    StaysCovered(s.env, s'.env, s.asset, s'.asset);
  }

  /** Everything a covered asset keeps, from one state to the next. */
  ghost predicate Covers(env: Env, a: Asset, env': Env, a': Asset) {
    LinksKept(env, env') && (Covered(env, a) ==> Covered(env', a'))
  }

  lemma SameCovers(env: Env, a: Asset, env': Env, a': Asset)
    requires env'.alerts == env.alerts && env'.orders == env.orders
    requires a'.pendingTop == a.pendingTop && a'.tpl == a.tpl && a'.history.raised == a.history.raised
    ensures Covers(env, a, env', a')
  {
    hide Linked;
  }

  lemma CoversTwice(e1: Env, a1: Asset, e2: Env, a2: Asset, e3: Env, a3: Asset)
    requires Covers(e1, a1, e2, a2) && Covers(e2, a2, e3, a3)
    ensures Covers(e1, a1, e3, a3)
  {
    hide Covered, LinksKept;
    LinksKeptTwice(e1, e2, e3);
  }

  lemma DecideCovers(cfg: Config, f: Faults, s: Progress, ts: Time, as_: Fusion.Assessment, top: string)
    requires EverythingWorks(f) && EnvInv(cfg, s.env) && Covered(s.env, s.asset)
    ensures var s' := Decide(cfg, f, s, ts, as_, top); Covers(s.env, s.asset, s'.env, s'.asset)
  {
    hide FeedPolicy, React, EverythingWorks, CmmsOk, OneOpenEach, CallsBounded, LinksKept, Covers, Covered, AlertsKeyed,
      OrdersKeyed;
    FeedPolicyFrame(s, ts, as_.risk);
    var (s1, outcome) := FeedPolicy(s, ts, as_.risk);
    SameKeys(cfg, s.env, s1.env);
    SameCovers(s.env, s.asset, s1.env, s1.asset);
    CoversIs(s.env, s.asset, s1.env, s1.asset);
    ReactCovers(cfg, f, s1, ts, as_, top, outcome);
    CoversTwice(s.env, s.asset, s1.env, s1.asset,
                Decide(cfg, f, s, ts, as_, top).env, Decide(cfg, f, s, ts, as_, top).asset);
  }

  lemma ReactCovers(cfg: Config, f: Faults, s: Progress, ts: Time, as_: Fusion.Assessment, top: string, o: Outcome)
    requires EverythingWorks(f) && AlertsKeyed(s.env) && OrdersKeyed(s.env) && CmmsOk(s.env.cmms)
    requires Covered(s.env, s.asset)
    ensures var s' := React(cfg, f, s, ts, as_, top, o); Covers(s.env, s.asset, s'.env, s'.asset)
  {
    hide OnFire, OnClear, EverythingWorks, CmmsOk, LinksKept, Covers;
    SameCovers(s.env, s.asset, s.env, s.asset);
    match o
    case Fire =>
      FireCovers(f, s, ts, as_, top);
      CoversIf(s.env, s.asset, OnFire(f, s, ts, as_, top).env, OnFire(f, s, ts, as_, top).asset);
    case Clear =>
      ClearCovers(f, s, ts);
      CoversIf(s.env, s.asset, OnClear(f, s, ts).env, OnClear(f, s, ts).asset);
    case _ =>
  }

  lemma SameKeys(cfg: Config, env: Env, env': Env)
    requires EnvInv(cfg, env) && env' == env.(sites := env'.sites)
    ensures AlertsKeyed(env') && OrdersKeyed(env') && CmmsOk(env'.cmms)
  {
  }

  lemma CoversIs(env: Env, a: Asset, env': Env, a': Asset)
    requires Covers(env, a, env', a') && Covered(env, a)
    ensures Covered(env', a')
  {
    hide Covered;
  }

  lemma CoversIf(env: Env, a: Asset, env': Env, a': Asset)
    requires LinksKept(env, env') && Covered(env', a')
    ensures Covers(env, a, env', a')
  {
    hide Covered;
  }

  lemma EvaluateCovers(cfg: Config, f: Faults, s: Progress, ts: Time)
    requires EverythingWorks(f) && WellFormed(s.asset) && EnvInv(cfg, s.env) && Covered(s.env, s.asset)
    ensures var s' := EvaluateIfReady(cfg, f, s, ts); Covers(s.env, s.asset, s'.env, s'.asset)
  {
    hide Examine, Decide, EverythingWorks, EnvInv, Covers, Covered;
    SameCovers(s.env, s.asset, s.env, s.asset);
    if Evaluates(s.asset, ts) {
      ExamineFrame(cfg, f, s, ts);
      var x := Examine(cfg, f, s, ts);
      SameCovers(s.env, s.asset, x.s.env, x.s.asset);
      if x.s.ok {
        CoversIs(s.env, s.asset, x.s.env, x.s.asset);
        SameInv(cfg, s.env, x.s.env);
        DecideCovers(cfg, f, x.s, ts, x.assessment, x.top);
        var s' := Decide(cfg, f, x.s, ts, x.assessment, x.top);
        CoversTwice(s.env, s.asset, x.s.env, x.s.asset, s'.env, s'.asset);
      }
    }
  }

  lemma SameInv(cfg: Config, env: Env, env': Env)
    requires EnvInv(cfg, env) && env' == env.(snapshots := env'.snapshots, calls := env'.calls)
    ensures EnvInv(cfg, env')
  {
    hide CallCount, CmmsOk, OneOpenEach;
  }

  lemma PushCovers(cfg: Config, env: Env, a: Asset, m: Metric)
    requires WellFormed(a)
    ensures Covers(env, a, env, PushMetric(cfg, a, m).0)
  {
    hide Extractor.PushReading, Covers;
    SameCovers(env, a, env, PushMetric(cfg, a, m).0);
  }

  lemma {:induction false} GroupCovers(cfg: Config, f: Faults, s: Progress, pending: Time, ms: seq<Metric>)
    requires EverythingWorks(f) && WellFormed(s.asset) && EnvInv(cfg, s.env) && AssetInv(cfg, s.env, s.asset)
    requires Covered(s.env, s.asset)
    ensures var s' := IngestGroup(cfg, f, s, pending, ms); Covers(s.env, s.asset, s'.env, s'.asset)
    decreases |ms|
  {
    hide EvaluateIfReady, PushMetric, WellFormed, EnvInv, AssetInv, Covers, Covered, EverythingWorks;
    EvaluateShape(cfg, f, s, pending);
    EvaluateKeeps(cfg, f, s, pending);
    EvaluateCovers(cfg, f, s, pending);
    SameCovers(s.env, s.asset, s.env, s.asset);
    if ms != [] {
      var m := ms[0];
      var s1 := if pending != ZERO_TIME && m.ts > pending then EvaluateIfReady(cfg, f, s, pending) else s;
      if s1.ok {
        PushShape(cfg, s1.asset, m);
        PushKeepsInv(cfg, s1.env, s1.asset, m);
        PushCovers(cfg, s1.env, s1.asset, m);
        CoversIs(s.env, s.asset, s1.env, s1.asset);
        var (a, pushed) := PushMetric(cfg, s1.asset, m);
        var s2 := s1.(asset := a, tally := Count(s1.tally, pushed));
        CoversIs(s1.env, s1.asset, s2.env, s2.asset);
        GroupCovers(cfg, f, s2, m.ts, ms[1..]);
        var s3 := IngestGroup(cfg, f, s2, m.ts, ms[1..]);
        CoversTwice(s.env, s.asset, s1.env, s1.asset, s2.env, s2.asset);
        CoversTwice(s.env, s.asset, s2.env, s2.asset, s3.env, s3.asset);
      }
    }
  }

  // ----- Whole operations -----

  ghost predicate AllCovered(w: World) {
    forall id :: id in w.assets ==> Covered(w.env, w.assets[id])
  }

  lemma AssetForCovered(w: World, m: Metric)
    requires AllCovered(w) && AssetFor(w, m).Some?
    ensures Covered(w.env, AssetFor(w, m).value)
  {
    hide Linked, FreshDetectors, NewPolicy, SetOffset;
  }

  lemma ShareCovers(cfg: Config, f: Faults, w: World, tally: Tally, ms: seq<Metric>)
    requires EverythingWorks(f) && WorldShape(w) && WorldInv(cfg, w) && ms != [] && AllCovered(w)
    ensures AllCovered(IngestAsset(cfg, f, w, tally, ms).world)
  {
    hide IngestGroup, WellFormed, AssetFor, EnvInv, AssetInv, EverythingWorks, Covered, Covers;
    if AssetFor(w, ms[0]).Some? {
      AssetForShape(w, ms[0]);
      AssetForInv(cfg, w, ms[0]);
      AssetForCovered(w, ms[0]);
      var a := AssetFor(w, ms[0]).value;
      var s := Progress(w.env, a, tally, true);
      GroupCovers(cfg, f, s, ZERO_TIME, ms);
      GroupKeepsShape(cfg, f, s, ZERO_TIME, ms);
      var s' := IngestGroup(cfg, f, s, ZERO_TIME, ms);
      CoversIs(w.env, a, s'.env, s'.asset);
      forall id | id in w.assets
        ensures Covered(s'.env, w.assets[id])
      {
        CoversKeepsLinks(w.env, a, s'.env, s'.asset);
        OtherCovered(w.env, s'.env, w.assets[id]);
      }
    }
  }

  lemma CoversKeepsLinks(env: Env, a: Asset, env': Env, a': Asset)
    requires Covers(env, a, env', a')
    ensures LinksKept(env, env')
  {
  }

  lemma OtherCovered(env: Env, env': Env, a: Asset)
    requires Covered(env, a) && LinksKept(env, env')
    ensures Covered(env', a)
  {
    hide Linked;
  }

  lemma {:induction false} SharesCover(
      cfg: Config, f: Faults, w: World, tally: Tally, ids: seq<string>, ms: seq<Metric>)
    requires EverythingWorks(f) && WorldShape(w) && WorldInv(cfg, w) && AllCovered(w)
    requires forall id :: id in ids ==> GroupOf(ms, id) != []
    ensures AllCovered(IngestAssets(cfg, f, w, tally, ids, ms).world)
    decreases |ids|
  {
    hide WorldShape, WorldInv, AllCovered, EverythingWorks, IngestAsset, SortByTime;
    if ids != [] {
      var group := SortByTime(GroupOf(ms, ids[0]));
      IngestAssetShape(cfg, f, w, tally, group);
      IngestAssetKeeps(cfg, f, w, tally, group);
      ShareCovers(cfg, f, w, tally, group);
      var r := IngestAsset(cfg, f, w, tally, group);
      if r.ok {
        SharesCover(cfg, f, r.world, r.tally, ids[1..], ms);
      }
    }
  }

  lemma IngestCovers(cfg: Config, f: Faults, w: World, batch: seq<Metric>)
    requires EverythingWorks(f) && WorldShape(w) && WorldInv(cfg, w) && AllCovered(w)
    ensures AllCovered(Ingest(cfg, f, w, batch).world)
  {
    hide WorldShape, WorldInv, AllCovered, EverythingWorks, IngestAssets, ValidOf, AssetsOf, GroupOf;
    var ms := ValidOf(batch);
    ValidLength(batch);
    AssetsHaveGroups(ms);
    SharesCover(cfg, f, w, NOTHING.(rejected := |batch| - |ms|), AssetsOf(ms), ms);
  }

  /** A verdict stamps its alert and may cancel one order; no link is touched. */
  lemma JudgeKeepsLinks(f: Faults, w: World, id: Id, v: Verdict)
    requires AlertsKeyed(w.env) && OrdersKeyed(w.env) && id in w.env.alerts
    ensures LinksKept(w.env, JudgeAlert(f, w, w.env.alerts[id], v).0.env)
  {
    hide Judged, AfterAdapting, SaveAlert;
    var alert := w.env.alerts[id];
    var w' := JudgeAlert(f, w, alert, v).0;
    JudgeEffect(f, w, alert, v);
    JudgeOrders(f, w, alert, v);
  }

  lemma JudgeOrders(f: Faults, w: World, alert: Alert, v: Verdict)
    requires OrdersKeyed(w.env)
    ensures var orders, orders' := w.env.orders, JudgeAlert(f, w, alert, v).0.env.orders;
            forall i :: i in orders ==> i in orders' && orders'[i] == orders[i].(status := orders'[i].status)
  {
    if alert.asset in w.assets {
      var a := Judged(w.assets[alert.asset], alert.id, v);
      AfterAdaptingEffect(f, w.env, a, alert, v);
      hide Judged, AfterAdapting, CmmsOk;
      var env1 := AfterAdapting(f, w.env, a, alert, v).0;
      assert JudgeAlert(f, w, alert, v).0.env.orders == env1.orders;
    }
  }

  lemma FeedbackCovers(cfg: Config, f: Faults, w: World, id: Id, v: Verdict)
    requires WorldShape(w) && WorldInv(cfg, w) && AllCovered(w)
    ensures AllCovered(Feedback(f, w, id, v).0)
  {
    hide JudgeAlert, WellFormed, AssetInv, CallCount, CmmsOk, OneOpenEach, Covered, LinksKept;
    var w1, w' := w.(env := Called(w.env)), Feedback(f, w, id, v).0;
    if Judges(f, w, id) {
      JudgeEffect(f, w1, w.env.alerts[id], v);
      JudgeKeepsLinks(f, w1, id, v);
    }
    forall x | x in w'.assets
      ensures Covered(w'.env, w'.assets[x])
    {
      if !Judges(f, w, id) {
        SameLinks(w.env, w'.env);
      } else {
        SameLinks(w.env, w1.env);
        LinksKeptTwice(w.env, w1.env, w'.env);
      }
      CoveredToo(w.env, w'.env, w.assets[x], w'.assets[x]);
    }
  }

  lemma SameLinks(env: Env, env': Env)
    requires env'.alerts == env.alerts && env'.orders == env.orders
    ensures LinksKept(env, env')
  {
  }

  lemma CoveredToo(env: Env, env': Env, a: Asset, a': Asset)
    requires Covered(env, a) && LinksKept(env, env')
    requires a' == a.(policy := a'.policy, history := a.history.(judged := a'.history.judged))
    ensures Covered(env', a')
  {
    hide LinksKept;
    StaysCovered(env, env', a, a');
  }

  lemma TemplateCovers(f: Faults, w: World, t: Template)
    requires AllCovered(w)
    ensures AllCovered(PutTemplate(f, w, t).0)
  {
    hide Template.Valid, FreshDetectors, SetParams, SetOffset, Linked;
  }

  lemma RestartCovers(cfg: Config, w: World)
    ensures AllCovered(Restarted(cfg, w))
  {
    hide FreshDetectors, NewPolicy, SetOffset, Linked;
  }

  lemma PerformCovers(cfg: Config, f: Faults, w: World, op: Op)
    requires EverythingWorks(f) && WorldShape(w) && WorldInv(cfg, w) && AllCovered(w)
    ensures AllCovered(Perform(cfg, f, w, op))
  {
    hide WorldShape, WorldInv, AllCovered, EverythingWorks, Feedback, PutTemplate, Restarted, Ingest;
    match op
    case DoIngest(batch) => IngestCovers(cfg, f, w, batch);
    case DoFeedback(id, v) => FeedbackCovers(cfg, f, w, id, v);
    case DoTemplate(t) => TemplateCovers(f, w, t);
    case DoRestart => RestartCovers(cfg, w);
  }

  lemma {:induction false} RunCovers(cfg: Config, f: Faults, w0: World, ops: seq<Op>)
    requires EverythingWorks(f) && WorldShape(w0) && ConfigOk(cfg) && WorldInv(cfg, w0) && AllCovered(w0)
    ensures AllCovered(Run(cfg, f, w0, ops))
  {
    hide Perform, WorldShape, WorldInv, AllCovered, EverythingWorks;
    if ops != [] {
      RunCovers(cfg, f, w0, ops[..|ops| - 1]);
      RunKeeps(cfg, f, w0, ops[..|ops| - 1]);
      PerformCovers(cfg, f, Run(cfg, f, w0, ops[..|ops| - 1]), ops[|ops| - 1]);
    }
  }

  /**
    In every state reachable from a first start while no call fails: no retry is
    pending, and every alert an asset raised under its current template is stored,
    and is linked to a stored work order for the same asset and failure mode, unless
    its confidence is below the class's threshold for orders.
   */
  lemma ConfidentAlertsHaveOrders(cfg: Config, f: Faults, ops: seq<Op>, id: string, x: Id)
    requires ConfigOk(cfg) && EverythingWorks(f)
    requires id in After(cfg, f, ops).assets && x in After(cfg, f, ops).assets[id].history.raised
    ensures var w := After(cfg, f, ops);
            && w.assets[id].pendingTop == ""
            && x in w.env.alerts
            && var alert := w.env.alerts[x];
               alert.confidence >= w.assets[id].tpl.orders.confidenceThreshold ==>
                 && alert.workOrder.Some? && alert.workOrder.value in w.env.orders
                 && var order := w.env.orders[alert.workOrder.value];
                    order.asset == alert.asset && order.failureMode == alert.failureMode
  {
    BeginInv(cfg);
    hide Run, WorldInv, EverythingWorks;
    RunCovers(cfg, f, Begin(cfg), ops);
  }
}
