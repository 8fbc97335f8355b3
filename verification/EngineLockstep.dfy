/**
  Runs in which the store does not fail (the maintenance system may): alerts and
  episodes move in lockstep, alerts keep their distance and rate in event time,
  and every verdict counts once.
 */
module EngineLockstep {
  import opened Common
  import opened RateLimit
  import opened Policy
  import opened PolicyRuns
  import opened WorkOrders
  import opened Pipeline
  import opened EngineModel
  import opened EngineEffects
  import opened EngineWorld
  import opened EngineSafety
  import opened EngineHistory
  import opened Extractor
  import Fusion
  import HstDetector

  type Alerts = map<Id, Alert>

  predicate Own(alerts: Alerts, id: string, x: Id) {
    x in alerts && alerts[x].asset == id
  }

  // ----- What is kept for one asset -----

  /**
    The open alert is there exactly during an alerted episode, and is the
    asset's one uncleared alert of this engine.
   */
  ghost predicate Lock(alerts: Alerts, born: Id, a: Asset) {
    && (a.openAlert.Some? <==> a.policy.state.Active? && a.policy.alerted)
    && (a.openAlert.Some? ==> Own(alerts, a.id, a.openAlert.value) && a.openAlert.value >= born)
    && (forall x: Id :: Own(alerts, a.id, x) && x >= born ==> (alerts[x].clearedAt.None? <==> a.openAlert == Some(x)))
  }

  function EventTimes(alerts: Alerts, raised: seq<Id>): seq<Time>
    requires forall i :: 0 <= i < |raised| ==> raised[i] in alerts
  {
    if raised == [] then [] else EventTimes(alerts, raised[..|raised| - 1]) + [alerts[raised[|raised| - 1]].eventTime]
  }

  /** The alerts stored since the rebuild, in order of identifiers, and nothing else. */
  ghost predicate Lists(alerts: Alerts, a: Asset) {
    var r := a.history.raised;
    && (forall i, j :: 0 <= i < j < |r| ==> r[i] < r[j])
    && (forall i :: 0 <= i < |r| ==> Own(alerts, a.id, r[i]) && r[i] >= a.history.since)
    && (forall x: Id :: Own(alerts, a.id, x) && x >= a.history.since ==> x in r)
  }

  /** `xs` is `ys` with some elements left out. */
  predicate Within(xs: seq<Time>, ys: seq<Time>) {
    xs == [] ||
    (ys != [] &&
     (var front := ys[..|ys| - 1];
      (xs[|xs| - 1] == ys[|ys| - 1] && Within(xs[..|xs| - 1], front)) || Within(xs, front)))
  }

  /** Every stored alert is a fire, at its time and in its order; a fire whose alert could not be saved is left out. */
  ghost predicate Follows(alerts: Alerts, a: Asset)
    requires Lists(alerts, a)
  {
    var h := a.history;
    Within(EventTimes(alerts, h.raised), AlertTimes(h.origin, h.evaluations, |h.evaluations|))
  }

  /** One stored alert per fire, at its time. */
  ghost predicate Fires(alerts: Alerts, a: Asset)
    requires Lists(alerts, a)
  {
    var h := a.history;
    EventTimes(alerts, h.raised) == AlertTimes(h.origin, h.evaluations, |h.evaluations|)
  }

  /** Every alert comes at least `gap` after every earlier one was cleared. */
  ghost predicate Spacing(alerts: Alerts, r: seq<Id>, gap: Time, last: Time, until: Time)
    requires forall i :: 0 <= i < |r| ==> r[i] in alerts
  {
    && (forall i :: 0 <= i < |r| ==>
          var x := alerts[r[i]];
          && x.eventTime <= last
          && (x.clearedAt.Some? ==> x.eventTime <= x.clearedAt.value <= last && x.clearedAt.value + gap <= until))
    && (forall i, j :: 0 <= i < j < |r| ==>
          alerts[r[i]].clearedAt.Some? && alerts[r[i]].clearedAt.value + gap <= alerts[r[j]].eventTime)
  }

  ghost predicate Spaced(alerts: Alerts, a: Asset)
    requires Lists(alerts, a)
  {
    Spacing(alerts, a.history.raised, a.policy.p.suppression, a.lastEval, a.policy.suppressedUntil)
  }

  lemma TimesKeepSpacing(alerts: Alerts, alerts': Alerts, r: seq<Id>, gap: Time, last: Time, until: Time)
    requires forall i :: 0 <= i < |r| ==> r[i] in alerts && r[i] in alerts'
    requires forall i :: 0 <= i < |r| ==>
               alerts'[r[i]].eventTime == alerts[r[i]].eventTime && alerts'[r[i]].clearedAt == alerts[r[i]].clearedAt
    requires Spacing(alerts, r, gap, last, until)
    ensures Spacing(alerts', r, gap, last, until)
  {
  }

  /**
    Each recorded verdict is the status of its own alert of this asset, and
    every alert judged since the rebuild is recorded.
   */
  ghost predicate Judgements(alerts: Alerts, a: Asset) {
    var js := a.history.judged;
    && (forall i :: 0 <= i < |js| ==> Own(alerts, a.id, js[i].0) && alerts[js[i].0].status == StatusFor(js[i].1))
    && (forall i, j :: 0 <= i < j < |js| ==> js[i].0 != js[j].0)
    && (forall x: Id :: Own(alerts, a.id, x) && x >= a.history.since && !alerts[x].status.AlertOpen? ==>
          exists i :: 0 <= i < |js| && js[i].0 == x)
  }

  /** What holds whatever fails, and, when the store works, the lockstep. */
  ghost predicate Synced(works: bool, alerts: Alerts, born: Id, a: Asset) {
    && born <= a.history.since
    && Lists(alerts, a) && Follows(alerts, a)
    && (works ==> Lock(alerts, born, a) && Fires(alerts, a) && Spaced(alerts, a) && Judgements(alerts, a))
  }

  lemma WithinGrows(xs: seq<Time>, ys: seq<Time>, t: Time)
    requires Within(xs, ys)
    ensures Within(xs, ys + [t]) && Within(xs + [t], ys + [t])
  {
    assert (ys + [t])[..|ys|] == ys && (xs + [t])[..|xs|] == xs;
  }

  lemma {:induction false} WithinCounts(xs: seq<Time>, ys: seq<Time>, lo: Time, hi: Time)
    requires Within(xs, ys)
    ensures CountIn(xs, lo, hi) <= CountIn(ys, lo, hi)
    decreases |ys|
  {
    if xs != [] {
      var front := ys[..|ys| - 1];
      if xs[|xs| - 1] == ys[|ys| - 1] && Within(xs[..|xs| - 1], front) {
        WithinCounts(xs[..|xs| - 1], front, lo, hi);
      } else {
        WithinCounts(xs, front, lo, hi);
      }
    }
  }

  lemma {:induction false} WithinMember(xs: seq<Time>, ys: seq<Time>, t: Time)
    requires Within(xs, ys) && t in xs
    ensures t in ys
    decreases |ys|
  {
    var front := ys[..|ys| - 1];
    if xs[|xs| - 1] == ys[|ys| - 1] && Within(xs[..|xs| - 1], front) {
      if t != xs[|xs| - 1] {
        WithinMember(xs[..|xs| - 1], front, t);
      }
    } else {
      WithinMember(xs, front, t);
    }
  }

  ghost predicate Apart(ts: seq<Time>, gap: Time) {
    forall i, j :: 0 <= i < j < |ts| ==> ts[i] + gap <= ts[j]
  }

  lemma {:induction false} WithinApart(xs: seq<Time>, ys: seq<Time>, gap: Time)
    requires Within(xs, ys) && Apart(ys, gap)
    ensures Apart(xs, gap)
    decreases |ys|
  {
    if xs != [] {
      var front, last := ys[..|ys| - 1], ys[|ys| - 1];
      assert Apart(front, gap);
      if xs[|xs| - 1] == last && Within(xs[..|xs| - 1], front) {
        WithinApart(xs[..|xs| - 1], front, gap);
        forall i | 0 <= i < |xs| - 1
          ensures xs[i] + gap <= last
        {
          WithinMember(xs[..|xs| - 1], front, xs[i]);
        }
      } else {
        WithinApart(xs, front, gap);
      }
    }
  }

  // ----- What leaves it alone -----

  /** The alerts of one asset are the same in both maps, up to work-order links. */
  ghost predicate SameFor(alerts: Alerts, alerts': Alerts, id: string) {
    && (forall x :: Own(alerts, id, x) <==> Own(alerts', id, x))
    && (forall x :: Own(alerts, id, x) ==> alerts'[x] == alerts[x].(workOrder := alerts'[x].workOrder))
  }

  lemma {:induction false} SameEventTimes(alerts: Alerts, alerts': Alerts, id: string, raised: seq<Id>)
    requires SameFor(alerts, alerts', id) && forall i :: 0 <= i < |raised| ==> Own(alerts, id, raised[i])
    ensures forall i :: 0 <= i < |raised| ==> Own(alerts', id, raised[i])
    ensures EventTimes(alerts, raised) == EventTimes(alerts', raised)
  {
    if raised != [] {
      SameEventTimes(alerts, alerts', id, raised[..|raised| - 1]);
    }
  }

  lemma SameKeepsSync(works: bool, alerts: Alerts, alerts': Alerts, born: Id, a: Asset)
    requires Synced(works, alerts, born, a) && SameFor(alerts, alerts', a.id)
    ensures Synced(works, alerts', born, a)
  {
    hide EventTimes, AlertTimes, Within;
    SameEventTimes(alerts, alerts', a.id, a.history.raised);
  }

  lemma OthersSame(env: Env, env': Env, asset: string, id: string)
    requires Touches(env, env', asset) && id != asset
    ensures SameFor(env.alerts, env'.alerts, id)
  {
    hide CallCount;
  }

  lemma RaiseLinks(env: Env, env': Env, asset: string, alert: Alert)
    requires RaiseEffect(env, env', asset, alert) && alert.id in env.alerts && env.alerts[alert.id] == alert
    ensures SameFor(env.alerts, env'.alerts, asset)
  {
    hide OrderAdded, CmmsStep;
  }

  // ----- One evaluation -----

  /** What feeding the policy one observation at `ts` does to the asset. */
  ghost predicate Fed(a: Asset, a1: Asset, ts: Time, o: Outcome) {
    var h, h1, p, p1 := a.history, a1.history, a.policy, a1.policy;
    && a1 == a.(policy := p1, history := h.(evaluations := h1.evaluations))
    && a.lastEval == ts
    && AlertTimes(h.origin, h1.evaluations, |h1.evaluations|)
       == AlertTimes(h.origin, h.evaluations, |h.evaluations|) + (if o.Fire? then [ts] else [])
    && p1.p == p.p
    && p1.suppressedUntil == (if o.Clear? then ts + p.p.suppression else p.suppressedUntil)
    && (o.Fire? ==> ts >= p.suppressedUntil)
    && (p.state.Active? <==> o.Hold? || o.Clear?)
    && (p1.state.Active? <==> o.Hold? || IsOpen(o))
    && (p1.state.Active? && p1.alerted <==> o.Fire? || (o.Hold? && p.alerted))
  }

  lemma EvaluateSuppression(p: PolicyState, now: Time, risk: real, site: Option<Limiter>)
    ensures var (p', d, _) := Evaluate(p, now, risk, site);
            && p'.suppressedUntil == (if d.outcome.Clear? then now + p.p.suppression else p.suppressedUntil)
            && (d.outcome.Fire? ==> now >= p.suppressedUntil)
  {
    hide Mean, EffectiveThreshold, Open;
    OpenOutcome(p.suppressedUntil, p.limiter, now, site);
  }

  lemma {:induction false} AlertsExtend(s0: PolicyState, run: seq<Obs>, o: Obs, i: nat)
    requires i <= |run|
    ensures AlertTimes(s0, run + [o], i) == AlertTimes(s0, run, i)
  {
    hide Step, StateAt;
    if i > 0 {
      AlertsExtend(s0, run, o, i - 1);
      RunExtends(s0, run, o, i - 1);
    }
  }

  lemma FeedIsFed(s: EngineModel.Progress, ts: Time, risk: real)
    requires Traced(s.asset) && s.asset.lastEval == ts
    ensures var (s1, o) := FeedPolicy(s, ts, risk); Fed(s.asset, s1.asset, ts, o)
  {
    hide Evaluate, FeedPolicy, SiteLimiter, Traced, OutcomeAt;
    FeedPolicyFrame(s, ts, risk);
    FeedKeepsTrace(s, ts, risk);
    var a := s.asset;
    var (s1, o) := FeedPolicy(s, ts, risk);
    var seen := Obs(ts, risk, a.policy.offset, SiteLimiter(s.env, a));
    OutcomeStates(a.policy, ts, risk, seen.site);
    EvaluateSuppression(a.policy, ts, risk, seen.site);
    var run := a.history.evaluations;
    AlertsExtend(a.history.origin, run, seen, |run|);
    assert OutcomeAt(a.history.origin, run + [seen], |run|) == o;
  }

  /** Nothing fires and nothing clears: the alerts are as they were. */
  lemma QuietKeepsSync(works: bool, alerts: Alerts, born: Id, a: Asset, a1: Asset, ts: Time, o: Outcome)
    requires Synced(works, alerts, born, a) && Fed(a, a1, ts, o) && !o.Fire? && !o.Clear?
    ensures Synced(works, alerts, born, a1)
  {
    hide EventTimes, AlertTimes;
    var t := AlertTimes(a.history.origin, a.history.evaluations, |a.history.evaluations|);
    assert t + [] == t;
  }

  /** An alert was stored under a new identifier. */
  ghost predicate Stored(alerts: Alerts, alerts': Alerts, a1: Asset, a2: Asset, ts: Time, x: Id) {
    && x !in alerts && (forall y :: y in alerts ==> y < x)
    && x in alerts' && alerts' == alerts[x := alerts'[x]]
    && alerts'[x].asset == a1.id && alerts'[x].eventTime == ts
    && alerts'[x].clearedAt.None? && alerts'[x].status.AlertOpen?
    && a2.id == a1.id && a2.policy == a1.policy && a2.lastEval == a1.lastEval && a2.openAlert == Some(x)
    && a2.history == a1.history.(raised := a1.history.raised + [x])
  }

  lemma FireKeepsLock(alerts: Alerts, alerts': Alerts, born: Id, a: Asset, a1: Asset, a2: Asset, ts: Time, x: Id)
    requires Synced(true, alerts, born, a) && Fed(a, a1, ts, Fire) && Stored(alerts, alerts', a1, a2, ts, x)
    requires x >= born
    ensures Lock(alerts', born, a2) && Judgements(alerts', a2)
  {
    hide Fires, AlertTimes, Spaced, Lists;
  }

  lemma FireKeepsLists(
      works: bool, alerts: Alerts, alerts': Alerts, born: Id, a: Asset, a1: Asset, a2: Asset, ts: Time, x: Id)
    requires Synced(works, alerts, born, a) && Fed(a, a1, ts, Fire) && Stored(alerts, alerts', a1, a2, ts, x)
    requires x >= a.history.since
    ensures Lists(alerts', a2)
  {
    hide Fires, AlertTimes, Spaced, Lock, Judgements;
    var r := a.history.raised;
    assert a2.history.raised == r + [x];
    forall y: Id | Own(alerts', a.id, y) && y >= a.history.since
      ensures y in r + [x]
    {
      if y != x {
        assert Own(alerts, a.id, y);
      }
    }
  }

  lemma {:induction false} EventTimesKept(alerts: Alerts, alerts': Alerts, x: Id, raised: seq<Id>)
    requires x !in alerts && x in alerts' && alerts' == alerts[x := alerts'[x]]
    requires forall i :: 0 <= i < |raised| ==> raised[i] in alerts
    ensures EventTimes(alerts, raised) == EventTimes(alerts', raised)
  {
    if raised != [] {
      EventTimesKept(alerts, alerts', x, raised[..|raised| - 1]);
    }
  }

  lemma FireKeepsFollows(
      works: bool, alerts: Alerts, alerts': Alerts, born: Id, a: Asset, a1: Asset, a2: Asset, ts: Time, x: Id)
    requires Synced(works, alerts, born, a) && Fed(a, a1, ts, Fire) && Stored(alerts, alerts', a1, a2, ts, x)
    requires Lists(alerts', a2)
    ensures Follows(alerts', a2)
  {
    hide AlertTimes, Within, Fires, Spaced, Lock, Judgements;
    var r, h := a.history.raised, a.history;
    EventTimesKept(alerts, alerts', x, r);
    assert (r + [x])[..|r|] == r;
    WithinGrows(EventTimes(alerts, r), AlertTimes(h.origin, h.evaluations, |h.evaluations|), ts);
  }

  /** The policy fired and the alert could not be saved: the alerts stored still follow the fires. */
  lemma LostFireKeepsSync(alerts: Alerts, born: Id, a: Asset, a1: Asset, ts: Time)
    requires Synced(false, alerts, born, a) && Fed(a, a1, ts, Fire)
    ensures Synced(false, alerts, born, a1)
  {
    hide EventTimes, AlertTimes, Within;
    var h := a.history;
    WithinGrows(EventTimes(alerts, h.raised), AlertTimes(h.origin, h.evaluations, |h.evaluations|), ts);
  }

  lemma FireKeepsFires(alerts: Alerts, alerts': Alerts, born: Id, a: Asset, a1: Asset, a2: Asset, ts: Time, x: Id)
    requires Synced(true, alerts, born, a) && Fed(a, a1, ts, Fire) && Stored(alerts, alerts', a1, a2, ts, x)
    requires Lists(alerts', a2)
    ensures Fires(alerts', a2)
  {
    hide AlertTimes, Spaced, Lock, Judgements;
    var r := a.history.raised;
    EventTimesKept(alerts, alerts', x, r);
    assert (r + [x])[..|r|] == r;
  }

  lemma FireKeepsSpaced(alerts: Alerts, alerts': Alerts, born: Id, a: Asset, a1: Asset, a2: Asset, ts: Time, x: Id)
    requires Synced(true, alerts, born, a) && Fed(a, a1, ts, Fire) && Stored(alerts, alerts', a1, a2, ts, x)
    requires Lists(alerts', a2)
    ensures Spaced(alerts', a2)
  {
    hide AlertTimes, EventTimes, Judgements;
    var r := a.history.raised;
    assert forall i :: 0 <= i < |r| ==>
      (r + [x])[i] == r[i] && alerts'[r[i]] == alerts[r[i]] && alerts[r[i]].clearedAt.Some?;
  }

  lemma FireKeepsSync(
      works: bool, alerts: Alerts, alerts': Alerts, born: Id, a: Asset, a1: Asset, a2: Asset, ts: Time, x: Id)
    requires Synced(works, alerts, born, a) && Fed(a, a1, ts, Fire) && Stored(alerts, alerts', a1, a2, ts, x)
    requires x >= a.history.since
    ensures Synced(works, alerts', born, a2)
  {
    hide Fed, Stored, Lock, Lists, Follows, Fires, Spaced, Judgements;
    FireKeepsLists(works, alerts, alerts', born, a, a1, a2, ts, x);
    FireKeepsFollows(works, alerts, alerts', born, a, a1, a2, ts, x);
    if works {
      FireKeepsLock(alerts, alerts', born, a, a1, a2, ts, x);
      FireKeepsFires(alerts, alerts', born, a, a1, a2, ts, x);
      FireKeepsSpaced(alerts, alerts', born, a, a1, a2, ts, x);
    }
    assert a2.history.since == a.history.since by {
      assert Fed(a, a1, ts, Fire) && Stored(alerts, alerts', a1, a2, ts, x);
      StoredSince(alerts, alerts', a, a1, a2, ts, x);
    }
  }

  lemma StoredSince(alerts: Alerts, alerts': Alerts, a: Asset, a1: Asset, a2: Asset, ts: Time, x: Id)
    requires Fed(a, a1, ts, Fire) && Stored(alerts, alerts', a1, a2, ts, x)
    ensures a2.history.since == a.history.since
  {
  }

  /** The open alert, if any, was stamped and let go. */
  ghost predicate LetGo(alerts: Alerts, alerts': Alerts, a1: Asset, a2: Asset, ts: Time) {
    && a2.id == a1.id && a2.policy == a1.policy && a2.lastEval == a1.lastEval && a2.history == a1.history
       && a2.openAlert.None?
    && alerts' == match a1.openAlert
                  case None => alerts
                  case Some(x) => if x in alerts then alerts[x := alerts[x].(clearedAt := Some(ts))] else alerts
  }

  lemma {:induction false} StampKeepsTimes(alerts: Alerts, alerts': Alerts, raised: seq<Id>)
    requires alerts'.Keys == alerts.Keys && forall x :: x in alerts ==> alerts'[x].eventTime == alerts[x].eventTime
    requires forall i :: 0 <= i < |raised| ==> raised[i] in alerts
    ensures EventTimes(alerts, raised) == EventTimes(alerts', raised)
  {
    if raised != [] {
      StampKeepsTimes(alerts, alerts', raised[..|raised| - 1]);
    }
  }

  lemma ClearKeepsSync(works: bool, alerts: Alerts, alerts': Alerts, born: Id, a: Asset, a1: Asset, a2: Asset, ts: Time)
    requires Synced(works, alerts, born, a) && Fed(a, a1, ts, Clear) && LetGo(alerts, alerts', a1, a2, ts)
    requires a.policy.p.suppression >= 0
    ensures Synced(works, alerts', born, a2)
  {
    hide Lists, Lock, Spaced, Judgements, EventTimes, AlertTimes, Within;
    var t := AlertTimes(a.history.origin, a.history.evaluations, |a.history.evaluations|);
    assert t + [] == t;
    ListedAlerts(alerts, a);
    StampKeepsTimes(alerts, alerts', a.history.raised);
    ClearKeepsLists(alerts, alerts', a, a1, a2, ts);
    if works {
      ClearKeepsSpaced(alerts, alerts', born, a, a1, a2, ts);
      ClearKeepsLock(alerts, alerts', born, a, a1, a2, ts);
    }
  }

  lemma ListedAlerts(alerts: Alerts, a: Asset)
    requires Lists(alerts, a)
    ensures forall i :: 0 <= i < |a.history.raised| ==> a.history.raised[i] in alerts
  {
  }

  /** A clear during which the store failed: whatever became of the stamp, the alerts stored still follow the fires. */
  lemma LostClearKeepsSync(alerts: Alerts, alerts': Alerts, born: Id, a: Asset, a1: Asset, a2: Asset, ts: Time)
    requires Synced(false, alerts, born, a) && Fed(a, a1, ts, Clear)
    requires a2.id == a1.id && a2.policy == a1.policy && a2.history == a1.history
    requires alerts'.Keys == alerts.Keys
    requires forall x :: x in alerts ==>
               alerts'[x] == alerts[x].(clearedAt := alerts'[x].clearedAt)
    ensures Synced(false, alerts', born, a2)
  {
    hide EventTimes, AlertTimes, Within;
    var t := AlertTimes(a.history.origin, a.history.evaluations, |a.history.evaluations|);
    assert t + [] == t;
    StampKeepsTimes(alerts, alerts', a.history.raised);
    assert forall x :: Own(alerts, a.id, x) <==> Own(alerts', a.id, x);
  }

  lemma ClearKeepsLists(alerts: Alerts, alerts': Alerts, a: Asset, a1: Asset, a2: Asset, ts: Time)
    requires Lists(alerts, a) && Fed(a, a1, ts, Clear) && LetGo(alerts, alerts', a1, a2, ts)
    ensures Lists(alerts', a2)
  {
    hide AlertTimes;
    assert forall x :: Own(alerts, a.id, x) <==> Own(alerts', a.id, x);
  }

  lemma ClearKeepsSpaced(alerts: Alerts, alerts': Alerts, born: Id, a: Asset, a1: Asset, a2: Asset, ts: Time)
    requires Synced(true, alerts, born, a) && Fed(a, a1, ts, Clear) && LetGo(alerts, alerts', a1, a2, ts)
    requires a.policy.p.suppression >= 0 && Lists(alerts', a2)
    ensures Spaced(alerts', a2)
  {
    hide EventTimes, AlertTimes, Judgements;
  }

  lemma ClearKeepsLock(alerts: Alerts, alerts': Alerts, born: Id, a: Asset, a1: Asset, a2: Asset, ts: Time)
    requires Synced(true, alerts, born, a) && Fed(a, a1, ts, Clear) && LetGo(alerts, alerts', a1, a2, ts)
    ensures Lock(alerts', born, a2) && Judgements(alerts', a2)
  {
    hide EventTimes, AlertTimes, Spaced, Lists;
  }

  // ----- One evaluation, whole -----

  /** What an asset and its surroundings satisfy between steps. */
  ghost predicate Steady(cfg: Config, works: bool, env: Env, born: Id, a: Asset)
    requires WellFormed(a)
  {
    && EnvInv(cfg, env) && AssetInv(cfg, env, a) && Faithful(cfg, a)
    && Synced(works, env.alerts, born, a) && a.history.since <= env.nextId
  }

  lemma FireSyncs(cfg: Config, f: Faults, s: EngineModel.Progress, s1: EngineModel.Progress, born: Id, ts: Time,
                  as_: Fusion.Assessment, top: string)
    requires AlertsKeyed(s.env) && Synced(StoreWorks(f), s.env.alerts, born, s.asset)
             && s.asset.history.since <= s.env.nextId
    requires Fed(s.asset, s1.asset, ts, Fire) && s1.env == s.env.(sites := s1.env.sites)
    ensures var s' := OnFire(f, s1, ts, as_, top);
            (StoreWorks(f) ==> s'.ok) && Synced(StoreWorks(f), s'.env.alerts, born, s'.asset)
  {
    hide OnFire, Fed, Synced, RaiseEffect, SameFor, StoreWorks;
    FireHasEffect(f, s1, ts, as_, top);
    var s' := OnFire(f, s1, ts, as_, top);
    if s'.ok {
      var alert := NewAlert(s1.env, s1.asset, ts, as_, top);
      var mid := s.env.alerts[alert.id := alert];
      assert s'.asset.policy == s1.asset.policy && s'.asset.lastEval == s1.asset.lastEval && s'.asset.id == s1.asset.id;
      assert Stored(s.env.alerts, mid, s1.asset, s'.asset, ts, alert.id);
      FireKeepsSync(StoreWorks(f), s.env.alerts, mid, born, s.asset, s1.asset, s'.asset, ts, alert.id);
      RaiseLinks(s1.env.(nextId := alert.id + 1, calls := s1.env.calls + 1, alerts := mid), s'.env, s1.asset.id, alert);
      SameKeepsSync(StoreWorks(f), mid, s'.env.alerts, born, s'.asset);
    } else {
      LostFireKeepsSync(s.env.alerts, born, s.asset, s1.asset, ts);
    }
  }

  /** Assets that differ only in what the lockstep does not read. */
  ghost predicate SameEpisode(a: Asset, a': Asset) {
    var h, h' := a.history, a'.history;
    && a'.id == a.id && a'.openAlert == a.openAlert && a'.policy == a.policy && a'.lastEval >= a.lastEval
    && h'.origin == h.origin && h'.evaluations == h.evaluations
    && h'.since == h.since && h'.raised == h.raised && h'.judged == h.judged
  }

  lemma EpisodeKeepsSync(works: bool, alerts: Alerts, born: Id, a: Asset, a': Asset)
    requires Synced(works, alerts, born, a) && SameEpisode(a, a')
    ensures Synced(works, alerts, born, a')
  {
    hide EventTimes, AlertTimes, Within;
  }

  lemma HoldSyncs(cfg: Config, f: Faults, s1: EngineModel.Progress, born: Id)
    requires AlertsKeyed(s1.env) && Synced(StoreWorks(f), s1.env.alerts, born, s1.asset) && s1.ok
    requires s1.asset.openAlert.Some? ==> Own(s1.env.alerts, s1.asset.id, s1.asset.openAlert.value)
    ensures var s' := OnHold(cfg, f, s1);
            (StoreWorks(f) ==> s'.ok) && Synced(StoreWorks(f), s'.env.alerts, born, s'.asset)
  {
    hide OnHold, Synced, RaiseEffect, SameFor, StoreWorks;
    HoldHasEffect(cfg, f, s1);
    var s' := OnHold(cfg, f, s1);
    if s' != s1 {
      if s'.ok {
        RaiseLinks(s1.env, s'.env, s1.asset.id, s1.env.alerts[s1.asset.openAlert.value]);
        SameKeepsSync(StoreWorks(f), s1.env.alerts, s'.env.alerts, born, s1.asset);
      }
      EpisodeKeepsSync(StoreWorks(f), s'.env.alerts, born, s1.asset, s'.asset);
    }
  }

  lemma ClearSyncs(cfg: Config, f: Faults, s: EngineModel.Progress, s1: EngineModel.Progress, born: Id, ts: Time)
    requires AlertsKeyed(s.env) && Synced(StoreWorks(f), s.env.alerts, born, s.asset) && s1.ok
    requires Fed(s.asset, s1.asset, ts, Clear) && s1.env == s.env.(sites := s1.env.sites)
    requires s.asset.policy.p.suppression >= 0
    ensures var s' := OnClear(f, s1, ts);
            (StoreWorks(f) ==> s'.ok) && Synced(StoreWorks(f), s'.env.alerts, born, s'.asset)
  {
    hide OnClear, Fed, Synced, StoreWorks;
    ClearHasEffect(f, s1, ts);
    var s' := OnClear(f, s1, ts);
    assert s'.asset.policy == s1.asset.policy && s'.asset.lastEval == s1.asset.lastEval
      && s'.asset.history == s1.asset.history;
    if StoreWorks(f) {
      assert LetGo(s.env.alerts, s'.env.alerts, s1.asset, s'.asset, ts);
      ClearKeepsSync(true, s.env.alerts, s'.env.alerts, born, s.asset, s1.asset, s'.asset, ts);
    } else {
      LostClearKeepsSync(s.env.alerts, s'.env.alerts, born, s.asset, s1.asset, s'.asset, ts);
    }
  }

  lemma DecideSyncs(
      cfg: Config, f: Faults, s: EngineModel.Progress, born: Id, ts: Time, as_: Fusion.Assessment, top: string)
    requires AlertsKeyed(s.env) && Synced(StoreWorks(f), s.env.alerts, born, s.asset)
             && s.asset.history.since <= s.env.nextId
    requires s.asset.openAlert.Some? ==> Own(s.env.alerts, s.asset.id, s.asset.openAlert.value)
    requires Traced(s.asset) && s.asset.lastEval == ts && s.asset.policy.p.suppression >= 0
    ensures var s' := Decide(cfg, f, s, ts, as_, top);
            (StoreWorks(f) ==> s'.ok) && Synced(StoreWorks(f), s'.env.alerts, born, s'.asset)
  {
    hide FeedPolicy, OnFire, OnHold, OnClear, Synced, Fed, Traced, StoreWorks;
    FeedPolicyFrame(s, ts, as_.risk);
    var (s1, o) := FeedPolicy(s, ts, as_.risk);
    FeedIsFed(s, ts, as_.risk);
    match o
    case Fire => FireSyncs(cfg, f, s, s1, born, ts, as_, top);
    case Clear => ClearSyncs(cfg, f, s, s1, born, ts);
    case Hold =>
      QuietKeepsSync(StoreWorks(f), s.env.alerts, born, s.asset, s1.asset, ts, o);
      HoldSyncs(cfg, f, s1, born);
    case _ => QuietKeepsSync(StoreWorks(f), s.env.alerts, born, s.asset, s1.asset, ts, o);
  }

  lemma EvaluateSyncs(cfg: Config, f: Faults, s: EngineModel.Progress, born: Id, ts: Time)
    requires WellFormed(s.asset) && Steady(cfg, StoreWorks(f), s.env, born, s.asset) && s.ok
    ensures var s' := EvaluateIfReady(cfg, f, s, ts);
            (StoreWorks(f) ==> s'.ok) && Synced(StoreWorks(f), s'.env.alerts, born, s'.asset)
  {
    if Evaluates(s.asset, ts) {
      hide Examine, Decide, Synced, Traced, Windowed, Guarded, CallCount, Ready, Increasing, CmmsOk, OneOpenEach,
        StoreWorks;
      ExamineFrame(cfg, f, s, ts);
      var x := Examine(cfg, f, s, ts);
      EpisodeKeepsSync(StoreWorks(f), s.env.alerts, born, s.asset, x.s.asset);
      ExamineKeepsHistory(cfg, f, s, ts);
      TracedParams(s.asset);
      if x.s.ok {
        DecideSyncs(cfg, f, x.s, born, ts, x.assessment, x.top);
      }
    }
  }

  lemma TracedParams(a: Asset)
    requires Traced(a)
    ensures a.policy.p == a.tpl.alerting
  {
    hide StateAt, OffsetAfter, ClampOffset;
  }

  // ----- One batch -----

  lemma SinceKept(cfg: Config, f: Faults, s: EngineModel.Progress, ts: Time)
    requires WellFormed(s.asset)
    ensures EvaluateIfReady(cfg, f, s, ts).asset.history.since == s.asset.history.since
  {
    if Evaluates(s.asset, ts) {
      hide Examine, FeedPolicy, React, KeepsTrace, Ready;
      ExamineFrame(cfg, f, s, ts);
      var x := Examine(cfg, f, s, ts);
      FeedPolicyFrame(x.s, ts, x.assessment.risk);
      var (s1, outcome) := FeedPolicy(x.s, ts, x.assessment.risk);
      ReactKeepsTrace(cfg, f, s1, ts, x.assessment, x.top, outcome);
      KeptSince(s1.asset, React(cfg, f, s1, ts, x.assessment, x.top, outcome).asset);
    }
  }

  lemma KeptSince(a: Asset, a': Asset)
    requires KeepsTrace(a, a')
    ensures a'.history.since == a.history.since
  {
    assert a'.history.(raised := a.history.raised).since == a.history.since;
  }

  lemma EvaluateStaysSteady(cfg: Config, f: Faults, s: EngineModel.Progress, born: Id, ts: Time)
    requires WellFormed(s.asset) && Steady(cfg, StoreWorks(f), s.env, born, s.asset) && s.ok
    ensures var s' := EvaluateIfReady(cfg, f, s, ts);
            && (StoreWorks(f) ==> s'.ok)
            && WellFormed(s'.asset) && Steady(cfg, StoreWorks(f), s'.env, born, s'.asset)
  {
    hide EvaluateIfReady, EnvInv, AssetInv, Faithful, Synced, WellFormed, CallCount, StoreWorks;
    EvaluateSyncs(cfg, f, s, born, ts);
    EvaluateKeeps(cfg, f, s, ts);
    EvaluateKeepsHistory(cfg, f, s, ts);
    SinceKept(cfg, f, s, ts);
  }

  lemma PushStaysSteady(cfg: Config, works: bool, env: Env, born: Id, a: Asset, m: Metric)
    requires WellFormed(a) && Steady(cfg, works, env, born, a)
    ensures var a' := PushMetric(cfg, a, m).0; WellFormed(a') && Steady(cfg, works, env, born, a')
  {
    hide PushMetric, EnvInv, AssetInv, Faithful, Synced, WellFormed;
    PushShape(cfg, a, m);
    PushKeepsInv(cfg, env, a, m);
    PushKeepsHistory(cfg, a, m);
    PushKeepsEpisode(cfg, a, m);
    EpisodeKeepsSync(works, env.alerts, born, a, PushMetric(cfg, a, m).0);
  }

  lemma PushKeepsEpisode(cfg: Config, a: Asset, m: Metric)
    requires Fits(a.tpl.specs, a.samples)
    ensures SameEpisode(a, PushMetric(cfg, a, m).0)
  {
    hide PushReading;
  }

  lemma {:induction false} GroupStaysSteady(
    cfg: Config, f: Faults, s: EngineModel.Progress, born: Id, pending: Time, ms: seq<Metric>)
    requires WellFormed(s.asset) && Steady(cfg, StoreWorks(f), s.env, born, s.asset) && s.ok
    ensures var s' := IngestGroup(cfg, f, s, pending, ms);
            && (StoreWorks(f) ==> s'.ok)
            && WellFormed(s'.asset) && Steady(cfg, StoreWorks(f), s'.env, born, s'.asset)
    decreases |ms|
  {
    hide EvaluateIfReady, PushMetric, WellFormed, Steady, StoreWorks;
    EvaluateStaysSteady(cfg, f, s, born, pending);
    if ms != [] {
      var m := ms[0];
      var s1 := if pending != ZERO_TIME && m.ts > pending then EvaluateIfReady(cfg, f, s, pending) else s;
      if s1.ok {
        PushShape(cfg, s1.asset, m);
        PushStaysSteady(cfg, StoreWorks(f), s1.env, born, s1.asset, m);
        var (a, pushed) := PushMetric(cfg, s1.asset, m);
        GroupStaysSteady(cfg, f, s1.(asset := a, tally := Count(s1.tally, pushed)), born, m.ts, ms[1..]);
      }
    }
  }
}
