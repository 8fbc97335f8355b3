/** The in-memory store of internal/adapters/memory/store.go. */
module MemoryStore {
  import opened Common
  import opened WorkOrders
  import opened Pipeline
  import opened EngineModel
  import opened EngineSafety

  datatype Lookup<+T> = Found(value: T) | NotFound | Unavailable

  /** Some open order of the asset and failure mode, or none. */
  ghost predicate IsOpenOrder(orders: map<Id, WorkOrder>, asset: string, mode: string, r: Option<WorkOrder>) {
    match r
    case None => OpenOrders(orders, asset, mode) == {}
    case Some(wo) => exists i :: i in OpenOrders(orders, asset, mode) && orders[i] == wo
  }

  /** While at most one is open there is only one answer. */
  lemma OpenOrderIsUnique(orders: map<Id, WorkOrder>, asset: string, mode: string, r: Option<WorkOrder>)
    requires OneOpenEach(orders) && IsOpenOrder(orders, asset, mode, r)
    ensures r == FindOpen(orders, asset, mode)
  {
    var open := FindOpen(orders, asset, mode);
    if r.Some? {
      var i :| i in OpenOrders(orders, asset, mode) && orders[i] == r.value;
      var j :| j in OpenOrders(orders, asset, mode) && orders[j] == open.value;
      assert Rivals(orders[i], orders[j]);
    }
  }

  /** Sequence numbers remember the order of first insertion. */
  ghost predicate Numbered(keys: set<Id>, numbers: map<Id, nat>, seq_: nat) {
    && numbers.Keys == keys
    && (forall k :: k in numbers ==> 1 <= numbers[k] <= seq_)
    && (forall j, k :: j in numbers && k in numbers && j != k ==> numbers[j] != numbers[k])
  }

  class Store {
    var alerts: map<Id, Alert>
    var workOrders: map<Id, WorkOrder>
    var templates: map<string, Template>
    var assets: map<string, Snapshot>
    var alertSeq: map<Id, nat>
    var woSeq: map<Id, nat>
    var count: nat

    ghost predicate Valid()
      reads this
    {
      Numbered(alerts.Keys, alertSeq, count) && Numbered(workOrders.Keys, woSeq, count)
    }

    constructor ()
      ensures Valid() && alerts == map[] && workOrders == map[] && templates == map[] && assets == map[]
    {
      alerts, workOrders, templates, assets := map[], map[], map[], map[];
      alertSeq, woSeq, count := map[], map[], 0;
    }

    /** Upserts an alert; a new one is numbered after everything stored before. A failing call has no effect. */
    method SaveAlert(a: Alert, fails: bool) returns (ok: bool)
      requires Valid()
      modifies this`alerts, this`alertSeq, this`count
      ensures Valid() && ok == !fails
      ensures alerts == if ok then old(alerts)[a.id := a] else old(alerts)
      ensures forall x :: x in old(alertSeq) ==> x in alertSeq && alertSeq[x] == old(alertSeq)[x]
      ensures ok && a.id !in old(alerts) ==> forall x :: x in old(alertSeq) ==> alertSeq[x] < alertSeq[a.id]
    {
      if fails {
        return false;
      }
      if a.id !in alertSeq {
        count := count + 1;
        alertSeq := alertSeq[a.id := count];
      }
      alerts := alerts[a.id := a];
      return true;
    }

    method GetAlert(id: Id, fails: bool) returns (r: Lookup<Alert>)
      ensures r == if fails then Unavailable else if id in alerts then Found(alerts[id]) else NotFound
    {
      if fails {
        return Unavailable;
      }
      if id !in alerts {
        return NotFound;
      }
      return Found(alerts[id]);
    }

    method SaveWorkOrder(wo: WorkOrder, fails: bool) returns (ok: bool)
      requires Valid()
      modifies this`workOrders, this`woSeq, this`count
      ensures Valid() && ok == !fails
      ensures workOrders == if ok then old(workOrders)[wo.id := wo] else old(workOrders)
      ensures forall x :: x in old(woSeq) ==> x in woSeq && woSeq[x] == old(woSeq)[x]
      ensures ok && wo.id !in old(workOrders) ==> forall x :: x in old(woSeq) ==> woSeq[x] < woSeq[wo.id]
    {
      if fails {
        return false;
      }
      if wo.id !in woSeq {
        count := count + 1;
        woSeq := woSeq[wo.id := count];
      }
      workOrders := workOrders[wo.id := wo];
      return true;
    }

    method GetWorkOrder(id: Id, fails: bool) returns (r: Lookup<WorkOrder>)
      ensures r == if fails then Unavailable else if id in workOrders then Found(workOrders[id]) else NotFound
    {
      if fails {
        return Unavailable;
      }
      if id !in workOrders {
        return NotFound;
      }
      return Found(workOrders[id]);
    }

    /** Looks through the orders, in no particular order, for an open one of the asset and failure mode. */
    method FindOpenWorkOrder(asset: string, mode: string, fails: bool) returns (r: Lookup<WorkOrder>)
      ensures r.Unavailable? <==> fails
      ensures !fails ==> IsOpenOrder(workOrders, asset, mode, if r.Found? then Some(r.value) else None)
    {
      if fails {
        return Unavailable;
      }
      var left := workOrders.Keys;
      while left != {}
        invariant left <= workOrders.Keys
        invariant OpenOrders(workOrders, asset, mode) <= left
      {
        var i :| i in left;
        var wo := workOrders[i];
        if wo.asset == asset && wo.failureMode == mode && wo.status == OrderOpen {
          assert i in OpenOrders(workOrders, asset, mode);
          return Found(wo);
        }
        left := left - {i};
      }
      return NotFound;
    }

    method PutTemplate(t: Template, fails: bool) returns (ok: bool)
      requires Valid()
      modifies this`templates
      ensures Valid() && ok == !fails && templates == if ok then old(templates)[t.class_ := t] else old(templates)
    {
      if !fails {
        templates := templates[t.class_ := t];
      }
      return !fails;
    }

    method SaveAssetSnapshot(s: Snapshot, fails: bool) returns (ok: bool)
      requires Valid()
      modifies this`assets
      ensures Valid() && ok == !fails && assets == if ok then old(assets)[s.asset := s] else old(assets)
    {
      if !fails {
        assets := assets[s.asset := s];
      }
      return !fails;
    }
  }
}
