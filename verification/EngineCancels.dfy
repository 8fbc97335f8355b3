/**
  What technician feedback does to work orders: which calls cancel the order an
  alert is linked to, and what each failing call leaves.
 */
module EngineCancels {
  import opened Common
  import opened Policy
  import opened WorkOrders
  import opened EngineModel
  import opened EngineWorld
  import opened EngineSafety

  /** A first verdict on an open alert of a known asset. */
  ghost predicate FirstVerdict(w: World, id: Id) {
    id in w.env.alerts && w.env.alerts[id].status.AlertOpen? && w.env.alerts[id].asset in w.assets
  }

  /** The alert is dismissed, its class cancels on dismissal, and it is linked to a stored open order. */
  ghost predicate WantsCancel(w: World, id: Id, v: Verdict) {
    && FirstVerdict(w, id)
    && var alert := w.env.alerts[id];
       && v.Dismiss? && w.assets[alert.asset].tpl.orders.autoCancelOnDismiss
       && alert.workOrder.Some? && alert.workOrder.value in w.env.orders
       && w.env.orders[alert.workOrder.value].status.OrderOpen?
  }

  /**
    Cancelling a loaded order, from call number n on: its record first, if it has
    one, then the order. What a failing call leaves: the record is cancelled unless
    its own call fails or it is unknown; the order is cancelled unless the record
    could not be, or storing it fails.
   */
  ghost predicate Cancelling(f: Faults, n: nat, env: Env, env': Env, o: Id)
    requires o in env.orders
  {
    match env.orders[o].external
    case None =>
      env'.cmms == env.cmms && env'.orders == if f.store(n) then env.orders else WithoutOrder(env.orders, o)
    case Some(ref) =>
      if f.cmms(n) || ref !in env.cmms.records then env'.cmms == env.cmms && env'.orders == env.orders
      else
        && env'.cmms == WithoutRecord(env.cmms, ref)
        && env'.orders == if f.store(n + 1) then env.orders else WithoutOrder(env.orders, o)
  }

  /** The orders with one marked as cancelled. */
  function WithoutOrder(orders: map<Id, WorkOrder>, o: Id): map<Id, WorkOrder>
    requires o in orders
  {
    orders[o := orders[o].(status := OrderCancelled)]
  }

  /** The maintenance system with one record marked as cancelled. */
  function WithoutRecord(c: Cmms, ref: nat): Cmms
    requires ref in c.records
  {
    c.(records := c.records[ref := Record(c.records[ref].order, true)])
  }

  predicate SameOrders(env: Env, env': Env) {
    env'.orders == env.orders && env'.cmms == env.cmms
  }

  /**
    Feedback cancels if and only if it is a first dismissal on an alert of a known
    asset whose class cancels on dismissal, the alert is linked to a stored open
    order, and the calls that load the alert, save the snapshot and load the order
    succeed. Otherwise no order and no record changes.
   */
  lemma CancelsExactly(f: Faults, w: World, id: Id, v: Verdict)
    requires AlertsKeyed(w.env) && OrdersKeyed(w.env)
    ensures var env', n := Feedback(f, w, id, v).0.env, w.env.calls;
            if WantsCancel(w, id, v) && !f.store(n) && !f.store(n + 1) && !f.store(n + 2) then
              Cancelling(f, n + 3, w.env, env', w.env.alerts[id].workOrder.value)
            else SameOrders(w.env, env')
  {
    hide StatusFor, Judged, AfterAdapting, RecordVerdict, Cancelling;
    var env' := Feedback(f, w, id, v).0.env;
    if Judges(f, w, id) {
      var alert, w1 := w.env.alerts[id], w.(env := Called(w.env));
      if alert.asset in w.assets {
        var a := Judged(w.assets[alert.asset], id, v);
        AdaptingCancels(f, w1.env, a, alert, v);
        JudgedTemplate(w.assets[alert.asset], id, v);
        var env2 := AfterAdapting(f, w1.env, a, alert, v).0;
        var w2 := w1.(assets := w.assets[alert.asset := a], env := env2);
        RecordOrders(f, w2, alert, v);
        if WantsCancel(w, id, v) {
          SameCancelling(f, w.env.calls + 3, w.env, w1.env, env2, env', alert.workOrder.value);
        }
      } else {
        RecordOrders(f, w1, alert, v);
      }
    }
  }

  lemma JudgedTemplate(a: Asset, id: Id, v: Verdict)
    ensures Judged(a, id, v).tpl == a.tpl
  {
  }

  lemma RecordOrders(f: Faults, w: World, alert: Alert, v: Verdict)
    ensures SameOrders(w.env, RecordVerdict(f, w, alert, v).0.env)
  {
  }

  lemma SameCancelling(f: Faults, n: nat, env: Env, env1: Env, env2: Env, env3: Env, o: Id)
    requires SameOrders(env, env1) && SameOrders(env2, env3) && o in env.orders
    ensures Cancelling(f, n, env1, env2, o) == Cancelling(f, n, env, env3, o)
  {
    hide WithoutOrder, WithoutRecord;
  }

  lemma AdaptingCancels(f: Faults, env: Env, a: Asset, alert: Alert, v: Verdict)
    requires OrdersKeyed(env)
    ensures var (env', ok) := AfterAdapting(f, env, a, alert, v);
            var n := env.calls;
            if v.Dismiss? && a.tpl.orders.autoCancelOnDismiss && alert.workOrder.Some?
               && alert.workOrder.value in env.orders && env.orders[alert.workOrder.value].status.OrderOpen?
               && !f.store(n) && !f.store(n + 1) then
              Cancelling(f, n + 2, env, env', alert.workOrder.value)
            else SameOrders(env, env')
  {
    hide CancelOrder, Cancelling;
    if alert.workOrder.Some? {
      var env1, o := SaveSnapshot(f, env, a).0, alert.workOrder.value;
      OrderCancels(f, env1, o);
      if o in env.orders {
        SameCancelling(f, env.calls + 2, env, env1, CancelOrder(f, env1, o), CancelOrder(f, env1, o), o);
      }
    }
  }

  lemma OrderCancels(f: Faults, env: Env, o: Id)
    requires OrdersKeyed(env)
    ensures var env' := CancelOrder(f, env, o);
            if o in env.orders && env.orders[o].status.OrderOpen? && !f.store(env.calls) then
              Cancelling(f, env.calls + 1, env, env', o)
            else SameOrders(env, env')
  {
    hide CancelBoth, WithoutRecord;
    if o in env.orders && env.orders[o].external.Some? {
      CancelsBoth(f, Called(env), env.orders[o], env.orders[o].external.value);
    }
  }

  lemma CancelsBoth(f: Faults, env: Env, wo: WorkOrder, ref: nat)
    ensures var env' := CancelBoth(f, env, wo, ref);
            var withdrawn := ref in env.cmms.records && !f.cmms(env.calls);
            && env'.cmms == (if withdrawn then WithoutRecord(env.cmms, ref) else env.cmms)
            && env'.orders == (if withdrawn && !f.store(env.calls + 1)
                               then env.orders[wo.id := wo.(status := OrderCancelled)] else env.orders)
  {
    RecordCancels(f, env, ref);
    hide CmmsCancel, WithoutRecord;
  }

  lemma RecordCancels(f: Faults, env: Env, ref: nat)
    ensures var (env', ok) := CmmsCancel(f, env, ref);
            && (ok <==> ref in env.cmms.records && !f.cmms(env.calls))
            && env' == Called(env).(cmms := if ok then WithoutRecord(env.cmms, ref) else env.cmms)
  {
  }

  /**
    When no call fails: after a first verdict on an alert linked to a stored open
    order (whose record the maintenance system knows, if it has one), the order is
    cancelled, and its record with it, if and only if the verdict is a dismissal
    and the class cancels on dismissal. No other order and no other record changes.
   */
  lemma DismissalCancelsIff(f: Faults, w: World, id: Id, v: Verdict)
    requires AlertsKeyed(w.env) && OrdersKeyed(w.env) && StoreWorks(f) && forall n :: !f.cmms(n)
    requires FirstVerdict(w, id) && w.env.alerts[id].workOrder.Some?
    requires w.env.alerts[id].workOrder.value in w.env.orders
    requires var order := w.env.orders[w.env.alerts[id].workOrder.value];
             order.status.OrderOpen? && (order.external.Some? ==> order.external.value in w.env.cmms.records)
    ensures var env, env' := w.env, Feedback(f, w, id, v).0.env;
            var o := env.alerts[id].workOrder.value;
            var external := env.orders[o].external;
            var cancels := v.Dismiss? && w.assets[env.alerts[id].asset].tpl.orders.autoCancelOnDismiss;
            && env'.orders.Keys == env.orders.Keys && env'.cmms.records.Keys == env.cmms.records.Keys
            && (env'.orders[o].status.OrderCancelled? <==> cancels)
            && env'.orders[o] == env.orders[o].(status := env'.orders[o].status)
            && (forall i :: i in env.orders && i != o ==> env'.orders[i] == env.orders[i])
            && (external.Some? && cancels ==> env'.cmms.records[external.value].cancelled)
            && (external.Some? && !cancels ==> env'.cmms == env.cmms)
            && (forall r :: r in env.cmms.records && external != Some(r) ==>
                  env'.cmms.records[r] == env.cmms.records[r])
  {
    hide Feedback;
    CancelsExactly(f, w, id, v);
    var n := w.env.calls;
    assert !f.store(n) && !f.store(n + 1) && !f.store(n + 2) && !f.store(n + 3) && !f.store(n + 4);
    assert !f.cmms(n + 3);
  }
}
