/**
  Redelivery and conservation: when a batch changes nothing, that a batch just
  ingested is such a batch, and what the accepted metrics of an asset leave in
  its windows.
 */
module EngineReplay {
  import opened Common
  import opened Extractor
  import opened Pipeline
  import opened EngineModel
  import opened EngineWorld
  import EngineEffects
  import Fusion
  import Policy

  // ----- One metric -----

  /** Refused whatever the replay guard says: wrong class, unit or signal. */
  predicate Refuses(cfg: Config, a: Asset, m: Metric) {
    || (m.class_ != "" && m.class_ != a.class_)
    || (if IsRuntime(a, m) then !Convertible(cfg.units, m.unit, "h")
       else !Takes(cfg.units, a.tpl.specs, m.signal, m.unit))
  }

  /** Pushing it again would change nothing. */
  predicate Settled(cfg: Config, a: Asset, m: Metric) {
    Refuses(cfg, a, m) || IsDuplicate(a, m)
  }

  /** The effect of one push, in full: refused, a duplicate, or accepted into the runtime counter or a window. */
  lemma PushIs(cfg: Config, a: Asset, m: Metric)
    requires WellFormed(a)
    ensures var (a', pushed) := PushMetric(cfg, a, m);
            && (pushed.Accepted? <==> !Settled(cfg, a, m))
            && (pushed.Duplicate? ==> IsDuplicate(a, m))
            && (if pushed.Accepted? then
                  a' == Marked(a, m).(age := a'.age, samples := a'.samples)
                  && (if IsRuntime(a, m) then
                        Convertible(cfg.units, m.unit, "h")
                        && a'.samples == a.samples && a'.age == Convert(cfg.units, m.value, m.unit, "h")
                      else m.signal in a.tpl.specs && a'.age == a.age
                           && Convertible(cfg.units, m.unit, a.tpl.specs[m.signal].unit)
                           && a'.samples == a.samples[m.signal := LastN(
                                a.samples[m.signal]
                                + ConvertEach(cfg.units, m.Values(), m.unit, a.tpl.specs[m.signal].unit),
                                a.tpl.specs[m.signal].window)])
                else a' == a)
  {
    hide PushReading, LastN, Convert, ConvertEach;
    BurstAllOrNothing(cfg.units, a.tpl.specs, a.samples, m.signal, m.Values(), m.unit);
  }

  /** The asset has only moved forward: same identity and template, later high-water marks. */
  ghost predicate Advances(a: Asset, a': Asset) {
    && a'.id == a.id && a'.site == a.site && a'.class_ == a.class_ && a'.tpl == a.tpl
    && forall g :: g in a.lastTS ==> g in a'.lastTS && a.lastTS[g] <= a'.lastTS[g]
  }

  lemma PushAdvances(cfg: Config, a: Asset, m: Metric)
    requires WellFormed(a)
    ensures var a' := PushMetric(cfg, a, m).0; WellFormed(a') && Advances(a, a') && Settled(cfg, a', m)
  {
    hide PushMetric, Convertible, Takes, LastN, WellFormed;
    PushShape(cfg, a, m);
    PushIs(cfg, a, m);
  }

  lemma SettledStays(cfg: Config, a: Asset, a': Asset, m: Metric)
    requires Advances(a, a') && Settled(cfg, a, m)
    ensures Settled(cfg, a', m)
  {
    hide Convertible, Takes;
  }

  // ----- Quiet batches -----

  /** Nothing in the batch is new to the asset, and none of its times calls for an evaluation. */
  ghost predicate Quiet(cfg: Config, a: Asset, ms: seq<Metric>)
    requires WellFormed(a)
  {
    forall m :: m in ms ==> Settled(cfg, a, m) && !Evaluates(a, m.ts)
  }

  ghost predicate Later(ms: seq<Metric>, pending: Time) {
    forall m :: m in ms ==> m.ts != ZERO_TIME && (pending != ZERO_TIME ==> m.ts >= pending)
  }

  /** A quiet batch only counts rejections and duplicates. */
  ghost predicate OnlyRefused(t: Tally, t': Tally, n: nat) {
    && t' == t.(rejected := t'.rejected, duplicates := t'.duplicates)
    && t'.rejected + t'.duplicates == t.rejected + t.duplicates + n
  }

  lemma {:induction false} QuietIsNoop(cfg: Config, f: Faults, s: Progress, pending: Time, ms: seq<Metric>)
    requires WellFormed(s.asset) && Quiet(cfg, s.asset, ms)
    requires pending != ZERO_TIME ==> !Evaluates(s.asset, pending)
    requires s.ok
    ensures var s' := IngestGroup(cfg, f, s, pending, ms);
            s' == s.(tally := s'.tally) && OnlyRefused(s.tally, s'.tally, |ms|)
    decreases |ms|
  {
    hide EvaluateAsset, PushMetric, Settled, WellFormed, Ready;
    if ms != [] {
      var m := ms[0];
      assert m in ms;
      PushShape(cfg, s.asset, m);
      PushIs(cfg, s.asset, m);
      var s1 := s.(tally := Count(s.tally, PushMetric(cfg, s.asset, m).1));
      assert Quiet(cfg, s.asset, ms[1..]);
      QuietIsNoop(cfg, f, s1, m.ts, ms[1..]);
    }
  }

  /** Counts only grow, and an evaluation or an acceptance shows in them. */
  lemma EvaluateCounts(cfg: Config, f: Faults, s: Progress, ts: Time)
    requires WellFormed(s.asset)
    ensures var s' := EvaluateIfReady(cfg, f, s, ts);
            && s'.tally == s.tally.(evaluated := s'.tally.evaluated, alerts := s'.tally.alerts,
                                    workOrders := s'.tally.workOrders)
            && s'.tally.evaluated == s.tally.evaluated + if Evaluates(s.asset, ts) then 1 else 0
  {
    hide Examine, FeedPolicy, React;
    if Evaluates(s.asset, ts) {
      ExamineFrame(cfg, f, s, ts);
      var x := Examine(cfg, f, s, ts);
      FeedPolicyFrame(x.s, ts, x.assessment.risk);
      var (s1, outcome) := FeedPolicy(x.s, ts, x.assessment.risk);
      ReactCounts(cfg, f, s1, ts, x.assessment, x.top, outcome);
    }
  }

  lemma ReactCounts(
      cfg: Config, f: Faults, s: Progress, ts: Time, as_: Fusion.Assessment, top: string, o: Policy.Outcome)
    requires s.ok
    ensures EngineEffects.SameCounts(s.tally, React(cfg, f, s, ts, as_, top, o).tally)
  {
    hide OnFire, OnHold, OnClear, NewAlert, EngineEffects.RaiseEffect;
    match o
    case Fire => EngineEffects.FireHasEffect(f, s, ts, as_, top);
    case Hold => EngineEffects.HoldHasEffect(cfg, f, s);
    case Clear => EngineEffects.ClearHasEffect(f, s, ts);
    case _ =>
  }

  lemma {:induction false} CountsGrow(cfg: Config, f: Faults, s: Progress, pending: Time, ms: seq<Metric>)
    requires WellFormed(s.asset)
    ensures var t' := IngestGroup(cfg, f, s, pending, ms).tally;
            s.tally.accepted <= t'.accepted && s.tally.evaluated <= t'.evaluated
    decreases |ms|
  {
    hide EvaluateIfReady, PushMetric, WellFormed;
    EvaluateShape(cfg, f, s, pending);
    EvaluateCounts(cfg, f, s, pending);
    if ms != [] {
      var m := ms[0];
      var s1 := if pending != ZERO_TIME && m.ts > pending then EvaluateIfReady(cfg, f, s, pending) else s;
      if s1.ok {
        PushShape(cfg, s1.asset, m);
        var (a, pushed) := PushMetric(cfg, s1.asset, m);
        CountsGrow(cfg, f, s1.(asset := a, tally := Count(s1.tally, pushed)), m.ts, ms[1..]);
      }
    }
  }

  /** Conversely, a batch that accepts nothing and evaluates nothing was quiet. */
  lemma {:induction false} NoopIsQuiet(cfg: Config, f: Faults, s: Progress, pending: Time, ms: seq<Metric>)
    requires WellFormed(s.asset) && InTimeOrder(ms) && Later(ms, pending) && s.ok
    requires var s' := IngestGroup(cfg, f, s, pending, ms);
             s'.ok && s'.tally.accepted == s.tally.accepted && s'.tally.evaluated == s.tally.evaluated
    ensures Quiet(cfg, s.asset, ms) && (pending != ZERO_TIME ==> !Evaluates(s.asset, pending))
    decreases |ms|
  {
    hide EvaluateIfReady, PushMetric, WellFormed, Evaluates, Settled;
    EvaluateShape(cfg, f, s, pending);
    EvaluateCounts(cfg, f, s, pending);
    EvaluateOrNot(cfg, f, s, pending);
    if ms != [] {
      var m := ms[0];
      assert m in ms;
      var s1 := if pending != ZERO_TIME && m.ts > pending then EvaluateIfReady(cfg, f, s, pending) else s;
      assert s1.ok;
      PushShape(cfg, s1.asset, m);
      PushIs(cfg, s1.asset, m);
      var (a, pushed) := PushMetric(cfg, s1.asset, m);
      var s2 := s1.(asset := a, tally := Count(s1.tally, pushed));
      CountsGrow(cfg, f, s2, m.ts, ms[1..]);
      assert s2.asset == s.asset;
      assert Later(ms[1..], m.ts) && InTimeOrder(ms[1..]);
      NoopIsQuiet(cfg, f, s2, m.ts, ms[1..]);
    }
  }

  lemma EvaluateOrNot(cfg: Config, f: Faults, s: Progress, ts: Time)
    requires WellFormed(s.asset)
    ensures !Evaluates(s.asset, ts) ==> EvaluateIfReady(cfg, f, s, ts) == s
  {
    hide EvaluateAsset, WellFormed;
  }

  // ----- A batch just ingested is quiet -----

  /** What was taken so far is settled, and not later than the time waiting to be evaluated. */
  ghost predicate DoneBy(cfg: Config, a: Asset, done: seq<Metric>, pending: Time) {
    forall m :: m in done ==> Settled(cfg, a, m) && pending != ZERO_TIME && m.ts <= pending
  }

  /** After an evaluation opportunity at `ts`, no time up to `ts` calls for another. */
  lemma EvaluationSettles(cfg: Config, f: Faults, s: Progress, ts: Time, done: seq<Metric>)
    requires WellFormed(s.asset) && DoneBy(cfg, s.asset, done, ts)
    ensures var s' := EvaluateIfReady(cfg, f, s, ts); WellFormed(s'.asset) && Quiet(cfg, s'.asset, done)
  {
    hide EvaluateIfReady, Settled, Ready, WellFormed;
    EvaluateShape(cfg, f, s, ts);
    EvaluateKeepsInputs(cfg, f, s, ts);
    var a' := EvaluateIfReady(cfg, f, s, ts).asset;
    assert InputsOf(a').lastTS == s.asset.lastTS && InputsOf(a').samples == s.asset.samples
      && InputsOf(a').tpl == s.asset.tpl;
    forall m | m in done
      ensures Settled(cfg, a', m)
    {
      SettledStays(cfg, s.asset, a', m);
    }
  }

  lemma EvaluationAdvances(cfg: Config, f: Faults, s: Progress, ts: Time)
    requires WellFormed(s.asset)
    ensures Advances(s.asset, EvaluateIfReady(cfg, f, s, ts).asset)
  {
    hide EvaluateIfReady, WellFormed;
    EvaluateKeepsInputs(cfg, f, s, ts);
    var i := InputsOf(EvaluateIfReady(cfg, f, s, ts).asset);
    assert i.id == s.asset.id && i.lastTS == s.asset.lastTS && i.tpl == s.asset.tpl;
    assert i.site == s.asset.site && i.class_ == s.asset.class_;
  }

  lemma TailInOrder(ms: seq<Metric>, pending: Time)
    requires ms != [] && InTimeOrder(ms) && Later(ms, pending)
    ensures ms[0].ts != ZERO_TIME && (pending != ZERO_TIME ==> pending <= ms[0].ts)
    ensures InTimeOrder(ms[1..]) && Later(ms[1..], ms[0].ts)
  {
    assert ms[0] in ms;
  }

  /** One step of a group keeps what came before settled, and settles the metric it takes. */
  lemma StepSettles(cfg: Config, f: Faults, s: Progress, pending: Time, m: Metric, done: seq<Metric>)
    requires WellFormed(s.asset) && DoneBy(cfg, s.asset, done, pending)
    requires m.ts != ZERO_TIME && (pending != ZERO_TIME ==> pending <= m.ts)
    ensures var s1 := if pending != ZERO_TIME && m.ts > pending then EvaluateIfReady(cfg, f, s, pending) else s;
            && WellFormed(s1.asset)
            && var a := PushMetric(cfg, s1.asset, m).0;
               WellFormed(a) && DoneBy(cfg, a, done + [m], m.ts)
  {
    hide EvaluateIfReady, PushMetric, WellFormed, Settled;
    EvaluateShape(cfg, f, s, pending);
    EvaluationAdvances(cfg, f, s, pending);
    var s1 := if pending != ZERO_TIME && m.ts > pending then EvaluateIfReady(cfg, f, s, pending) else s;
    PushShape(cfg, s1.asset, m);
    PushAdvances(cfg, s1.asset, m);
    forall q | q in done
      ensures Settled(cfg, PushMetric(cfg, s1.asset, m).0, q)
    {
      SettledStays(cfg, s.asset, s1.asset, q);
      SettledStays(cfg, s1.asset, PushMetric(cfg, s1.asset, m).0, q);
    }
  }

  lemma {:induction false} GroupSettles(
      cfg: Config, f: Faults, s: Progress, pending: Time, ms: seq<Metric>, done: seq<Metric>)
    requires WellFormed(s.asset) && InTimeOrder(ms) && Later(ms, pending) && DoneBy(cfg, s.asset, done, pending)
    requires pending == ZERO_TIME ==> done == []
    requires IngestGroup(cfg, f, s, pending, ms).ok
    ensures var s' := IngestGroup(cfg, f, s, pending, ms); WellFormed(s'.asset) && Quiet(cfg, s'.asset, done + ms)
    decreases |ms|
  {
    hide EvaluateIfReady, PushMetric, WellFormed, Quiet, DoneBy, InTimeOrder, Later;
    if ms == [] {
      assert done + ms == done;
      if pending != ZERO_TIME {
        EvaluationSettles(cfg, f, s, pending, done);
      } else {
        NothingIsQuiet(cfg, s.asset);
      }
    } else {
      var m := ms[0];
      var s1 := if pending != ZERO_TIME && m.ts > pending then EvaluateIfReady(cfg, f, s, pending) else s;
      TailInOrder(ms, pending);
      StepSettles(cfg, f, s, pending, m, done);
      PushShape(cfg, s1.asset, m);
      var (a, pushed) := PushMetric(cfg, s1.asset, m);
      GroupSettles(cfg, f, s1.(asset := a, tally := Count(s1.tally, pushed)), m.ts, ms[1..], done + [m]);
      assert done + [m] + ms[1..] == done + ms;
    }
  }

  lemma NothingIsQuiet(cfg: Config, a: Asset)
    requires WellFormed(a)
    ensures Quiet(cfg, a, [])
  {
  }
}
