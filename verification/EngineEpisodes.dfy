/**
  How many alerts an asset of a running engine can raise, and when it can raise
  none: the bounds of PolicyRuns and QuietDetectors in every reachable state.
 */
module EngineEpisodes {
  import opened Common
  import opened Policy
  import opened PolicyRuns
  import opened QuietDetectors
  import opened WorkOrders
  import opened EngineModel
  import opened EngineWorld
  import opened EngineHistory
  import opened EngineLockstep
  import opened EngineAlerts
  import Pipeline

  lemma {:induction false} WithinLength(xs: seq<Time>, ys: seq<Time>)
    requires Within(xs, ys)
    ensures |xs| <= |ys|
  {
    if xs != [] {
      var front := ys[..|ys| - 1];
      if xs[|xs| - 1] == ys[|ys| - 1] && Within(xs[..|xs| - 1], front) {
        WithinLength(xs[..|xs| - 1], front);
      } else {
        WithinLength(xs, front);
      }
    }
  }

  lemma {:induction false} FiresOpen(s0: PolicyState, run: seq<Obs>, i: nat)
    requires i <= |run|
    ensures |AlertTimes(s0, run, i)| <= Opens(s0, run, i)
  {
    hide OutcomeAt;
    if i > 0 {
      FiresOpen(s0, run, i - 1);
    }
  }

  lemma {:induction false} EventTimesLength(alerts: Alerts, raised: seq<Id>)
    requires forall i :: 0 <= i < |raised| ==> raised[i] in alerts
    ensures |EventTimes(alerts, raised)| == |raised|
  {
    if raised != [] {
      EventTimesLength(alerts, raised[..|raised| - 1]);
    }
  }

  /** Whatever fails, an asset stores no more alerts than episodes open in its recorded run. */
  lemma AlertsAreOpenings(cfg: Config, f: Faults, ops: seq<Op>, id: string)
    requires ConfigOk(cfg) && id in After(cfg, f, ops).assets
    ensures var a := After(cfg, f, ops).assets[id];
            var h := a.history;
            && |h.raised| <= Opens(h.origin, h.evaluations, |h.evaluations|)
            && h.origin.p == a.policy.p && a.policy.p.Valid()
            && a.policy.state == StateAt(h.origin, h.evaluations, |h.evaluations|).state
  {
    hide After, EventTimes, AlertTimes, Within, StateAt, Opens, OffsetAfter, ClampOffset, Increasing;
    StoredAlertsFollowFires(cfg, f, ops, id);
    var w := After(cfg, f, ops);
    var a, h := w.assets[id], w.assets[id].history;
    EventTimesLength(w.env.alerts, h.raised);
    WithinLength(EventTimes(w.env.alerts, h.raised), AlertTimes(h.origin, h.evaluations, |h.evaluations|));
    FiresOpen(h.origin, h.evaluations, |h.evaluations|);
    PlainState(a.policy, StateAt(h.origin, h.evaluations, |h.evaluations|));
  }

  lemma PlainState(s: PolicyState, t: PolicyState)
    requires Plain(s) == Plain(t)
    ensures s.state == t.state
  {
    assert Plain(s).state == s.state && Plain(t).state == t.state;
  }

  lemma LessTimes(n: nat, k: nat, m: int)
    requires n <= k && m >= 0
    ensures n * m <= k * m
  {
  }

  /**
    Nuisance bound in every reachable state, whatever fails: of the alerts an
    asset has stored since its last rebuild, each after the first took
    MinPersistence + ClearPersistence evaluations; and if it was rebuilt outside an
    episode, or never, the first took MinPersistence.
   */
  lemma AlertsAreBounded(cfg: Config, f: Faults, ops: seq<Op>, id: string)
    requires ConfigOk(cfg) && id in After(cfg, f, ops).assets
    ensures var a := After(cfg, f, ops).assets[id];
            var h, p := a.history, a.policy.p;
            var n, m := |h.raised|, p.minPersistence + p.clearPersistence;
            && (n > 0 ==> (n - 1) * m < |h.evaluations|)
            && (Counting(h.origin, p) && h.origin.state.Normal? ==> n * m <= |h.evaluations| + p.clearPersistence)
  {
    hide After, Opens, StateAt, Counting;
    AlertsAreOpenings(cfg, f, ops, id);
    var a := After(cfg, f, ops).assets[id];
    var h, p := a.history, a.policy.p;
    var n, k, m := |h.raised|, Opens(h.origin, h.evaluations, |h.evaluations|), p.minPersistence + p.clearPersistence;
    if n > 0 {
      EpisodeBoundAnyStart(h.origin, p, h.evaluations);
      LessTimes(n - 1, k - 1, m);
    }
    if Counting(h.origin, p) && h.origin.state.Normal? {
      EpisodeBoundFrom(h.origin, p, h.evaluations);
      LessTimes(n, k, m);
    }
  }

  /** At whatever offset an evaluation was recorded, its threshold is no lower than the floors. */
  lemma RecordedThreshold(a: Asset, i: nat)
    requires OffsetsRecorded(a) && a.policy.p.Valid() && i < |a.history.evaluations|
    ensures var t := ThresholdAt(a.policy.p, a.history.evaluations, i);
            && t >= ThresholdFloor(a.policy.p)
            && (a.history.origin.offset >= 0.0 ==> t >= FeedbackFloor(a.policy.p))
  {
    hide OffsetAfter, ThresholdFloor, FeedbackFloor, EffectiveThreshold, ClampOffset, Verdicts;
    var p, o, h := a.policy.p, a.history.evaluations[i].offset, a.history;
    FloorIsReached(p, o);
    var k :| 0 <= k <= |h.judged| && o == FoldAt(a, k);
    if h.origin.offset >= 0.0 {
      FeedbackFloorHolds(p, h.origin.offset, Verdicts(h.judged[..k]));
    }
  }

  lemma RecordedInRun(cfg: Config, f: Faults, ops: seq<Op>, id: string)
    requires ConfigOk(cfg) && id in After(cfg, f, ops).assets
    ensures var a := After(cfg, f, ops).assets[id]; OffsetsRecorded(a) && a.tpl.Valid()
  {
    BeginFaithful(cfg);
    hide Run, Begin, Windowed, Guarded, Traced, Increasing, OffsetsRecorded, Pipeline.Template.Valid;
    RunIsFaithful(cfg, f, ops, id);
  }

  /**
    Quiet assets, in every reachable state, whatever fails: an asset that was not
    rebuilt inside an episode, and whose recorded risks all stay within the risk
    cap of some detectors, has stored no alert and is outside an episode if the cap
    is below the lowest threshold of the clamp; or, unless it was rebuilt at a
    lowered offset, if it is below the lowest threshold that verdicts reach.
   */
  lemma QuietAssets(cfg: Config, f: Faults, ops: seq<Op>, id: string, caps: Caps)
    requires ConfigOk(cfg) && id in After(cfg, f, ops).assets
    requires var a := After(cfg, f, ops).assets[id];
             && !a.history.origin.state.Active?
             && var cap := (RecordedInRun(cfg, f, ops, id); RiskCap(a.tpl.fusion, caps));
                && (forall i :: 0 <= i < |a.history.evaluations| ==> a.history.evaluations[i].risk <= cap)
                && (cap < ThresholdFloor(a.policy.p)
                    || (a.history.origin.offset >= 0.0 && cap < FeedbackFloor(a.policy.p)))
    ensures var a := After(cfg, f, ops).assets[id]; a.history.raised == [] && !a.policy.state.Active?
  {
    hide After, RiskCap, ThresholdFloor, FeedbackFloor, Opens, StateAt, ThresholdAt;
    AlertsAreOpenings(cfg, f, ops, id);
    RecordedInRun(cfg, f, ops, id);
    var a := After(cfg, f, ops).assets[id];
    var h := a.history;
    forall i | 0 <= i < |h.evaluations|
      ensures h.evaluations[i].risk < ThresholdAt(a.policy.p, h.evaluations, i)
    {
      RecordedThreshold(a, i);
    }
    BelowStaysOut(h.origin, a.policy.p, h.evaluations, |h.evaluations|);
  }
}
