/**
  The work-order policy of internal/domain/cmms/cmms.go and the simulated
  maintenance system of internal/domain/cmms/simulated.go.
 */
module WorkOrders {
  import opened Common

  /** Identifiers handed out by the engine: never repeated. */
  type Id = nat

  datatype OrderStatus = OrderOpen | OrderCancelled | OrderClosed

  /** The idempotency key asset|failure mode|alert. */
  datatype Key = Key(asset: string, failureMode: string, alert: Id)

  datatype WorkOrder = WorkOrder(
    id: Id, alert: Id, asset: string, failureMode: string, priority: int,
    confidence: real, risk: real, status: OrderStatus, external: Option<nat>)
  {
    function IdempotencyKey(): Key {
      Key(asset, failureMode, alert)
    }
  }

  datatype OrderPolicy = OrderPolicy(
    confidenceThreshold: real, failureMode: string, failureModeBySignal: map<string, string>,
    priority: int, autoCancelOnDismiss: bool)
  {
    predicate Valid() {
      0.0 <= confidenceThreshold <= 1.0 && failureMode != "" && 1 <= priority <= 5
    }

    /** Rule WO-1: create when confident enough and no open order already covers the asset and failure mode. */
    predicate Creates(confidence: real, open: Option<WorkOrder>) {
      confidence >= confidenceThreshold && !(open.Some? && open.value.status.OrderOpen?)
    }

    /** The failure mode implied by a feature name "<signal>.<stat>". */
    function ResolveFailureMode(top: string): string {
      var signal := UpToDot(top);
      if signal.Some? && signal.value in failureModeBySignal then failureModeBySignal[signal.value] else failureMode
    }

    method FindFailureMode(top: string) returns (mode: string)
      ensures mode == ResolveFailureMode(top)
    {
      for i := 0 to |top|
        invariant '.' !in top[..i]
      {
        if top[i] == '.' {
          DotSplits(top, i);
          if top[..i] in failureModeBySignal {
            return failureModeBySignal[top[..i]];
          }
          return failureMode;
        }
      }
      assert top[..|top|] == top;
      NoDot(top);
      return failureMode;
    }
  }

  /** What precedes the first dot, if there is one. */
  function UpToDot(s: string): Option<string> {
    if s == "" then None
    else if s[0] == '.' then Some("")
    else
      match UpToDot(s[1..])
      case None => None
      case Some(rest) => Some([s[0]] + rest)
  }

  lemma {:induction false} DotSplits(s: string, i: nat)
    requires i < |s| && s[i] == '.' && '.' !in s[..i]
    ensures UpToDot(s) == Some(s[..i])
  {
    if i > 0 {
      assert s[0] == s[..i][0];
      assert s[1..][..i - 1] == s[..i][1..];
      DotSplits(s[1..], i - 1);
      assert s[..i] == [s[0]] + s[1..][..i - 1];
    }
  }

  lemma {:induction false} NoDot(s: string)
    requires '.' !in s
    ensures UpToDot(s) == None
  {
    if s != "" {
      NoDot(s[1..]);
    }
  }

  /**
    A feature of a mapped signal gets that signal's failure mode, whatever the
    statistic; a name without one the default.
   */
  lemma MappedSignal(p: OrderPolicy, signal: string, stat: string)
    requires '.' !in signal
    ensures p.ResolveFailureMode(signal + "." + stat)
            == if signal in p.failureModeBySignal then p.failureModeBySignal[signal] else p.failureMode
    ensures p.ResolveFailureMode(signal) == p.failureMode
  {
    NoDot(signal);
    var top := signal + "." + stat;
    assert top[..|signal|] == signal && top[|signal|] == '.';
    DotSplits(top, |signal|);
  }

  /** The key as it is written: bar-separated. */
  function KeyText(asset: string, failureMode: string, alert: string): string {
    asset + "|" + failureMode + "|" + alert
  }

  /**
    Key texts identify their triples: asset identifiers and generated alert ids
    have no bar, so the failure mode may contain anything.
   */
  lemma KeyTextInjective(a: string, f: string, x: string, b: string, g: string, y: string)
    requires '|' !in a && '|' !in b && '|' !in x && '|' !in y
    requires KeyText(a, f, x) == KeyText(b, g, y)
    ensures a == b && f == g && x == y
  {
    var s := KeyText(a, f, x);
    FirstBar(a, f + "|" + x, b, g + "|" + y, s) by {
      assert s == a + "|" + (f + "|" + x) && s == b + "|" + (g + "|" + y);
    }
    LastBar(f, x, g, y, f + "|" + x);
  }

  lemma FirstBar(a: string, r: string, b: string, q: string, s: string)
    requires '|' !in a && '|' !in b && s == a + "|" + r && s == b + "|" + q
    ensures a == b && r == q
  {
    assert s[|a|] == '|' && s[|b|] == '|';
    assert a == s[..|a|] && b == s[..|b|];
    assert r == s[|a| + 1..] && q == s[|b| + 1..];
  }

  lemma LastBar(f: string, x: string, g: string, y: string, s: string)
    requires '|' !in x && '|' !in y && s == f + "|" + x && s == g + "|" + y
    ensures f == g && x == y
  {
    assert s[|f|] == '|' && s[|g|] == '|';
    assert f == s[..|f|] && g == s[..|g|];
    assert x == s[|f| + 1..] && y == s[|g| + 1..];
  }

  // ----- The simulated maintenance system -----

  datatype Record = Record(order: WorkOrder, cancelled: bool)

  /** Sequence number, references by key, records by reference; `calls` logs the alert of every create call. */
  datatype Cmms = Cmms(seq_: nat, byKey: map<Key, nat>, records: map<nat, Record>, calls: seq<Id>)

  const EMPTY_CMMS := Cmms(0, map[], map[], [])

  /** Create, idempotent on the key. */
  function Register(c: Cmms, wo: WorkOrder): (Cmms, nat) {
    if wo.IdempotencyKey() in c.byKey then (c, c.byKey[wo.IdempotencyKey()])
    else
      var ref := c.seq_ + 1;
      (c.(seq_ := ref, byKey := c.byKey[wo.IdempotencyKey() := ref],
          records := c.records[ref := Record(wo, false)]),
       ref)
  }

  /** Cancel; an unknown reference is an error. */
  function CancelRecord(c: Cmms, ref: nat): (Cmms, bool) {
    if ref !in c.records then (c, false)
    else (c.(records := c.records[ref := c.records[ref].(cancelled := true)]), true)
  }

  /** Each key has exactly the one record its entry names, and references run from 1 to the sequence number. */
  ghost predicate CmmsOk(c: Cmms) {
    && (forall k :: k in c.byKey ==> c.byKey[k] in c.records && c.records[c.byKey[k]].order.IdempotencyKey() == k)
    && (forall r :: r in c.records ==>
          1 <= r <= c.seq_ && c.records[r].order.IdempotencyKey() in c.byKey
          && c.byKey[c.records[r].order.IdempotencyKey()] == r)
  }

  /** At most one record per idempotency key. */
  lemma OneRecordPerKey(c: Cmms, r: nat, s: nat)
    requires CmmsOk(c) && r in c.records && s in c.records
    requires c.records[r].order.IdempotencyKey() == c.records[s].order.IdempotencyKey()
    ensures r == s
  {
  }

  /**
    Registering keeps that, never changes an existing record, and registering
    again changes nothing and returns the same reference.
   */
  lemma RegisterIsIdempotent(c: Cmms, wo: WorkOrder, again: WorkOrder)
    requires CmmsOk(c) && again.IdempotencyKey() == wo.IdempotencyKey()
    ensures var (c', ref) := Register(c, wo);
            && CmmsOk(c') && ref in c'.records
            && c'.records[ref].order.IdempotencyKey() == wo.IdempotencyKey()
            && Register(c', again) == (c', ref)
            && (if wo.IdempotencyKey() in c.byKey then c' == c else ref == c'.seq_ == c.seq_ + 1)
            && forall r :: r in c.records ==> r in c'.records && c'.records[r] == c.records[r]
  {
  }

  lemma CancelKeepsOk(c: Cmms, ref: nat)
    requires CmmsOk(c)
    ensures CmmsOk(CancelRecord(c, ref).0)
  {
  }

  class Simulated {
    var count: nat
    var byKey: map<Key, nat>
    var records: map<nat, Record>
    ghost var calls: seq<Id>

    ghost function Value(): Cmms
      reads this
    {
      Cmms(count, byKey, records, calls)
    }

    constructor ()
      ensures Value() == EMPTY_CMMS
    {
      count, byKey, records, calls := 0, map[], map[], [];
    }

    /** Creates the order unless its key is known; `fails` is a call that errors without effect. */
    method CreateWorkOrder(wo: WorkOrder, fails: bool) returns (ref: Option<nat>)
      modifies this
      ensures var called := old(Value()).(calls := old(calls) + [wo.alert]);
              if fails then ref == None && Value() == called
              else (Value(), ref) == (Register(called, wo).0, Some(Register(called, wo).1))
    {
      calls := calls + [wo.alert];
      if fails {
        return None;
      }
      var key := wo.IdempotencyKey();
      if key in byKey {
        return Some(byKey[key]);
      }
      count := count + 1;
      byKey := byKey[key := count];
      records := records[count := Record(wo, false)];
      return Some(count);
    }

    method CancelWorkOrder(ref: nat, fails: bool) returns (ok: bool)
      modifies this
      ensures (Value(), ok) == if fails then (old(Value()), false) else CancelRecord(old(Value()), ref)
    {
      if fails || ref !in records {
        return false;
      }
      records := records[ref := records[ref].(cancelled := true)];
      return true;
    }
  }
}
