/**
  The lockstep of alerts and episodes over whole runs, and what it says about
  the stored alerts of an asset: their times, their rate, and their verdicts.
 */
module EngineAlerts {
  import opened Common
  import RateLimit
  import opened Policy
  import opened PolicyRuns
  import opened WorkOrders
  import opened Pipeline
  import opened Extractor
  import opened EngineModel
  import opened EngineEffects
  import opened EngineWorld
  import opened EngineSafety
  import opened EngineHistory
  import opened EngineLockstep
  import HstDetector

  /** Alerts of this engine belong to assets it has in memory. */
  ghost predicate Known(w: World) {
    forall x :: x in w.env.alerts && x >= w.born ==> w.env.alerts[x].asset in w.assets
  }

  ghost predicate AllSynced(works: bool, w: World) {
    forall id :: id in w.assets ==>
      Synced(works, w.env.alerts, w.born, w.assets[id]) && w.assets[id].history.since <= w.env.nextId
  }

  ghost predicate Good(cfg: Config, works: bool, w: World)
    requires WorldShape(w)
  {
    WorldInv(cfg, w) && AllFaithful(cfg, w) && AllSynced(works, w) && Known(w) && w.born <= w.env.nextId
  }

  // ----- Ingest -----

  /** A newly registered asset has no alert of this engine. */
  lemma NewIsSynced(works: bool, alerts: Alerts, born: Id, a: Asset)
    requires a.openAlert.None? && a.policy.state.Normal? && a.history.evaluations == [] && a.history.raised == []
             && a.history.judged == []
    requires born <= a.history.since && forall x: Id :: Own(alerts, a.id, x) ==> x < born
    ensures Synced(works, alerts, born, a)
  {
  }

  lemma BuiltIsNew(
      id: string, site: string, tpl: Template, learned: HstDetector.Baselines, offset: real, age: real, since: Id)
    ensures var a := BuiltAsset(id, site, tpl, learned, offset, age, since);
            && a.id == id && a.openAlert.None? && a.policy.state.Normal? && a.history.since == since
            && a.history.evaluations == [] && a.history.raised == [] && a.history.judged == []
  {
    hide FreshDetectors, ClampOffset, FreshLimiter;
  }

  lemma AssetForSteady(cfg: Config, works: bool, w: World, m: Metric)
    requires WorldShape(w) && Good(cfg, works, w) && AssetFor(w, m).Some?
    ensures var a := AssetFor(w, m).value; WellFormed(a) && a.id == m.asset && Steady(cfg, works, w.env, w.born, a)
  {
    hide BuiltAsset, EnvInv, AssetInv, Faithful, Synced, WellFormed;
    AssetForShape(w, m);
    AssetForInv(cfg, w, m);
    AssetForFaithful(cfg, w, m);
    if m.asset in w.assets {
      SiteKeepsSync(works, w, m);
    } else {
      BuiltIsNew(m.asset, m.site, w.templates[m.class_], map[], 0.0, 0.0, w.env.nextId);
      NewIsSynced(works, w.env.alerts, w.born, AssetFor(w, m).value);
    }
  }

  lemma SiteKeepsSync(works: bool, w: World, m: Metric)
    requires WorldShape(w) && AllSynced(works, w) && m.asset in w.assets
    ensures var a := AssetFor(w, m).value;
            Synced(works, w.env.alerts, w.born, a) && a.history.since == w.assets[m.asset].history.since
  {
    hide Synced, WellFormed;
    assert SameEpisode(w.assets[m.asset], AssetFor(w, m).value);
    EpisodeKeepsSync(works, w.env.alerts, w.born, w.assets[m.asset], AssetFor(w, m).value);
  }

  lemma IngestAssetSyncs(cfg: Config, f: Faults, w: World, tally: Tally, ms: seq<Metric>)
    requires WorldShape(w) && Good(cfg, StoreWorks(f), w) && ms != []
    ensures var r := IngestAsset(cfg, f, w, tally, ms);
            (StoreWorks(f) ==> r.ok) && AllSynced(StoreWorks(f), r.world) && Known(r.world)
              && r.world.born == w.born <= r.world.env.nextId
  {
    hide StoreWorks, IngestGroup, WellFormed, AssetFor, WorldInv, AllFaithful, EnvInv, AssetInv, Faithful, Synced,
      SameFor;
    if AssetFor(w, ms[0]).Some? {
      AssetForSteady(cfg, StoreWorks(f), w, ms[0]);
      var a := AssetFor(w, ms[0]).value;
      var s := EngineModel.Progress(w.env, a, tally, true);
      GroupStaysSteady(cfg, f, s, w.born, ZERO_TIME, ms);
      GroupKeeps(cfg, f, s, ZERO_TIME, ms);
      GroupKeepsShape(cfg, f, s, ZERO_TIME, ms);
      var env' := IngestGroup(cfg, f, s, ZERO_TIME, ms).env;
      forall id | id in w.assets && id != a.id
        ensures Synced(StoreWorks(f), env'.alerts, w.born, w.assets[id])
      {
        OthersSame(w.env, env', a.id, id);
        SameKeepsSync(StoreWorks(f), w.env.alerts, env'.alerts, w.born, w.assets[id]);
      }
      KnownAfter(w, env', a.id);
    }
  }

  lemma IngestAssetGood(cfg: Config, f: Faults, w: World, tally: Tally, ms: seq<Metric>)
    requires WorldShape(w) && Good(cfg, StoreWorks(f), w) && ms != []
    ensures var r := IngestAsset(cfg, f, w, tally, ms);
            (StoreWorks(f) ==> r.ok) && WorldShape(r.world) && Good(cfg, StoreWorks(f), r.world)
  {
    hide StoreWorks, IngestAsset, WorldShape, WorldInv, AllFaithful, AllSynced, Known;
    IngestAssetShape(cfg, f, w, tally, ms);
    IngestAssetKeeps(cfg, f, w, tally, ms);
    IngestAssetFaithful(cfg, f, w, tally, ms);
    IngestAssetSyncs(cfg, f, w, tally, ms);
  }

  lemma KnownAfter(w: World, env': Env, id: string)
    requires Known(w) && Touches(w.env, env', id)
    ensures forall x :: x in env'.alerts && x >= w.born ==>
              env'.alerts[x].asset in w.assets || env'.alerts[x].asset == id
  {
    hide CallCount;
  }

  lemma {:induction false} IngestAssetsGood(
      cfg: Config, f: Faults, w: World, tally: Tally, ids: seq<string>, ms: seq<Metric>)
    requires WorldShape(w) && Good(cfg, StoreWorks(f), w) && forall id :: id in ids ==> GroupOf(ms, id) != []
    ensures var r := IngestAssets(cfg, f, w, tally, ids, ms);
            (StoreWorks(f) ==> r.ok) && WorldShape(r.world) && Good(cfg, StoreWorks(f), r.world)
    decreases |ids|
  {
    hide WorldShape, Good, IngestAsset, SortByTime, StoreWorks;
    if ids != [] {
      var group := SortByTime(GroupOf(ms, ids[0]));
      IngestAssetShape(cfg, f, w, tally, group);
      IngestAssetGood(cfg, f, w, tally, group);
      var r := IngestAsset(cfg, f, w, tally, group);
      if r.ok {
        IngestAssetsGood(cfg, f, r.world, r.tally, ids[1..], ms);
      }
    }
  }

  lemma IngestGood(cfg: Config, f: Faults, w: World, batch: seq<Metric>)
    requires WorldShape(w) && Good(cfg, StoreWorks(f), w)
    ensures var r := Ingest(cfg, f, w, batch);
            (StoreWorks(f) ==> r.ok) && WorldShape(r.world) && Good(cfg, StoreWorks(f), r.world)
  {
    hide WorldShape, Good, IngestAssets, ValidOf, AssetsOf, GroupOf, StoreWorks;
    var ms := ValidOf(batch);
    ValidLength(batch);
    AssetsHaveGroups(ms);
    IngestAssetsGood(cfg, f, w, NOTHING.(rejected := |batch| - |ms|), AssetsOf(ms), ms);
  }

  // ----- Feedback -----

  /** A first verdict is recorded as the status of its alert. */
  lemma VerdictKeepsSync(alerts: Alerts, alerts': Alerts, born: Id, a: Asset, x: Id, v: Verdict)
    requires Synced(true, alerts, born, a) && Own(alerts, a.id, x) && alerts[x].status.AlertOpen?
    requires alerts' == alerts[x := alerts[x].(status := StatusFor(v))]
    ensures Synced(true, alerts', born, Judged(a, x, v))
  {
    hide Lock, Spaced, Judgements, Lists, EventTimes, AlertTimes, Within, ApplyFeedback;
    VerdictKeepsJudgements(alerts, alerts', a, x, v);
    VerdictKeepsLists(alerts, alerts', a, x, v);
    VerdictKeepsLock(alerts, alerts', born, a, x, v);
    VerdictKeepsSpaced(alerts, alerts', a, x, v);
    ListedAlerts(alerts, a);
    StampKeepsTimes(alerts, alerts', a.history.raised);
  }

  /** A verdict whose alert may not have been saved leaves the times of the stored alerts alone. */
  lemma LostVerdictKeepsSync(alerts: Alerts, alerts': Alerts, born: Id, a: Asset, x: Id, v: Verdict)
    requires Synced(false, alerts, born, a) && Own(alerts, a.id, x)
    requires alerts' == alerts || alerts' == alerts[x := alerts[x].(status := StatusFor(v))]
    ensures Synced(false, alerts', born, Judged(a, x, v))
  {
    hide Lists, EventTimes, AlertTimes, Within, ApplyFeedback;
    JudgedKeepsLists(alerts, a, x, v);
    VerdictKeepsLists(alerts, alerts[x := alerts[x].(status := StatusFor(v))], a, x, v);
    ListedAlerts(alerts, a);
    StampKeepsTimes(alerts, alerts', a.history.raised);
  }

  lemma JudgedKeepsLists(alerts: Alerts, a: Asset, x: Id, v: Verdict)
    requires Lists(alerts, a)
    ensures Lists(alerts, Judged(a, x, v))
  {
    hide ApplyFeedback;
  }

  lemma VerdictKeepsLock(alerts: Alerts, alerts': Alerts, born: Id, a: Asset, x: Id, v: Verdict)
    requires Lock(alerts, born, a) && Own(alerts, a.id, x)
    requires alerts' == alerts[x := alerts[x].(status := StatusFor(v))]
    ensures Lock(alerts', born, Judged(a, x, v))
  {
    hide ClampOffset, Wanted;
  }

  lemma VerdictKeepsSpaced(alerts: Alerts, alerts': Alerts, a: Asset, x: Id, v: Verdict)
    requires Lists(alerts, a) && Spaced(alerts, a) && Own(alerts, a.id, x)
    requires alerts' == alerts[x := alerts[x].(status := StatusFor(v))] && Lists(alerts', Judged(a, x, v))
    ensures Spaced(alerts', Judged(a, x, v))
  {
    hide ClampOffset, Wanted, Spacing;
    TimesKeepSpacing(alerts, alerts', a.history.raised, a.policy.p.suppression, a.lastEval, a.policy.suppressedUntil);
  }

  lemma VerdictKeepsLists(alerts: Alerts, alerts': Alerts, a: Asset, x: Id, v: Verdict)
    requires Lists(alerts, a) && Own(alerts, a.id, x)
    requires alerts' == alerts[x := alerts[x].(status := StatusFor(v))]
    ensures Lists(alerts', Judged(a, x, v))
  {
    hide ApplyFeedback;
    assert forall y :: Own(alerts, a.id, y) <==> Own(alerts', a.id, y);
  }

  lemma VerdictKeepsJudgements(alerts: Alerts, alerts': Alerts, a: Asset, x: Id, v: Verdict)
    requires Judgements(alerts, a) && Own(alerts, a.id, x) && alerts[x].status.AlertOpen?
    requires alerts' == alerts[x := alerts[x].(status := StatusFor(v))]
    ensures Judgements(alerts', Judged(a, x, v))
  {
    hide ApplyFeedback;
    var js, js' := a.history.judged, Judged(a, x, v).history.judged;
    assert js' == js + [(x, v)] && js'[|js|].0 == x;
    forall y: Id | Own(alerts', a.id, y) && y >= a.history.since && !alerts'[y].status.AlertOpen?
      ensures exists i :: 0 <= i < |js'| && js'[i].0 == y
    {
      if y != x {
        var i :| 0 <= i < |js| && js[i].0 == y;
        assert js'[i].0 == y;
      }
    }
  }

  /** Another asset does not see the verdict. */
  lemma VerdictElsewhere(works: bool, alerts: Alerts, alerts': Alerts, born: Id, a: Asset, x: Id, v: Verdict)
    requires Synced(works, alerts, born, a) && x in alerts && alerts[x].asset != a.id
    requires alerts' == alerts || alerts' == alerts[x := alerts[x].(status := StatusFor(v))]
    ensures Synced(works, alerts', born, a)
  {
    hide Synced;
    SameKeepsSync(works, alerts, alerts', born, a);
  }

  lemma JudgeGood(cfg: Config, f: Faults, w: World, alert: Alert, v: Verdict)
    requires WorldShape(w) && Good(cfg, StoreWorks(f), w)
    requires alert.id in w.env.alerts && w.env.alerts[alert.id] == alert && alert.status.AlertOpen?
    ensures var w' := JudgeAlert(f, w, alert, v).0;
            AllSynced(StoreWorks(f), w') && Known(w') && w'.born == w.born <= w'.env.nextId
  {
    hide StoreWorks, JudgeAlert, WorldInv, AllFaithful, Synced, Judged, WellFormed;
    JudgeEffect(f, w, alert, v);
    var w' := JudgeAlert(f, w, alert, v).0;
    forall id | id in w.assets
      ensures Synced(StoreWorks(f), w'.env.alerts, w.born, w'.assets[id]) && w'.assets[id].history.since <= w.env.nextId
    {
      if id == alert.asset {
        if StoreWorks(f) {
          VerdictKeepsSync(w.env.alerts, w'.env.alerts, w.born, w.assets[id], alert.id, v);
        } else {
          LostVerdictKeepsSync(w.env.alerts, w'.env.alerts, w.born, w.assets[id], alert.id, v);
        }
        JudgedSince(w.assets[id], alert.id, v);
      } else {
        VerdictElsewhere(StoreWorks(f), w.env.alerts, w'.env.alerts, w.born, w.assets[id], alert.id, v);
      }
    }
  }

  lemma JudgedSince(a: Asset, id: Id, v: Verdict)
    ensures Judged(a, id, v).history.since == a.history.since
  {
  }

  lemma FeedbackGood(cfg: Config, f: Faults, w: World, id: Id, v: Verdict)
    requires WorldShape(w) && Good(cfg, StoreWorks(f), w)
    ensures var w' := Feedback(f, w, id, v).0; WorldShape(w') && Good(cfg, StoreWorks(f), w')
  {
    hide StoreWorks, JudgeAlert, Synced, AssetInv, AllFaithful, WellFormed, CmmsOk, CallsBounded, OneOpenEach,
      OrdersKeyed;
    FeedbackShape(f, w, id, v);
    FeedbackKeeps(cfg, f, w, id, v);
    FeedbackFaithful(cfg, f, w, id, v);
    if Judges(f, w, id) {
      var w1 := w.(env := Called(w.env));
      CalledStaysGood(cfg, StoreWorks(f), w);
      JudgeGood(cfg, f, w1, w.env.alerts[id], v);
    }
  }

  lemma CalledStaysGood(cfg: Config, works: bool, w: World)
    requires WorldShape(w) && Good(cfg, works, w)
    ensures var w1 := w.(env := Called(w.env)); WorldShape(w1) && Good(cfg, works, w1)
  {
    hide Synced, Faithful, WellFormed, CmmsOk, OneOpenEach, CallCount;
  }

  // ----- Templates and restarts -----

  lemma RebuiltIsSynced(works: bool, alerts: Alerts, born: Id, a: Asset, t: Template, since: Id)
    requires Synced(works, alerts, born, a) && born <= since && forall x: Id :: x in alerts ==> x < since
    ensures Synced(works, alerts, born, Rebuilt(a, t, since)) && Rebuilt(a, t, since).history.since == since
  {
    hide FreshDetectors, ClampOffset, FreshLimiter, Spaced, Fires, Follows, Judgements;
    RebuiltKeepsEpisode(a, t, since);
    RebuiltHistory(a, t, since);
    var a' := Rebuilt(a, t, since);
    assert Lists(alerts, a');
    NothingRaisedYet(alerts, a');
  }

  lemma RebuiltHistory(a: Asset, t: Template, since: Id)
    ensures var h := Rebuilt(a, t, since).history;
            h.since == since && h.evaluations == [] && h.raised == [] && h.judged == []
  {
    hide FreshDetectors, SetParams, SetOffset;
  }

  lemma NothingRaisedYet(alerts: Alerts, a: Asset)
    requires Lists(alerts, a) && a.history.evaluations == [] && a.history.raised == [] && a.history.judged == []
    requires forall x: Id :: Own(alerts, a.id, x) ==> x < a.history.since
    ensures Follows(alerts, a) && Fires(alerts, a) && Spaced(alerts, a) && Judgements(alerts, a)
  {
  }

  lemma KeysBelow(cfg: Config, w: World)
    requires WorldInv(cfg, w)
    ensures forall x: Id :: x in w.env.alerts ==> x < w.env.nextId
  {
    hide CmmsOk, CallsBounded, OneOpenEach, OrdersKeyed, AssetInv;
  }

  lemma TemplateFrame(f: Faults, w: World, t: Template)
    ensures var w' := PutTemplate(f, w, t).0;
            && w'.env.alerts == w.env.alerts && w'.env.nextId == w.env.nextId && w'.born == w.born
            && (w'.assets == w.assets || w'.assets == RebuiltClass(w.assets, t, w.env.nextId))
  {
    hide RebuiltClass, Template.Valid;
  }

  lemma TemplateSyncs(works: bool, f: Faults, w: World, t: Template)
    requires AllSynced(works, w) && Known(w) && w.born <= w.env.nextId
    requires forall x: Id :: x in w.env.alerts ==> x < w.env.nextId
    ensures var w' := PutTemplate(f, w, t).0; AllSynced(works, w') && Known(w') && w'.born <= w'.env.nextId
  {
    hide PutTemplate, Rebuilt, Synced;
    TemplateFrame(f, w, t);
    forall id | id in w.assets
      ensures var a := Rebuilt(w.assets[id], t, w.env.nextId);
              Synced(works, w.env.alerts, w.born, a) && a.history.since == w.env.nextId
    {
      RebuiltIsSynced(works, w.env.alerts, w.born, w.assets[id], t, w.env.nextId);
    }
  }

  lemma TemplateGood(cfg: Config, works: bool, f: Faults, w: World, t: Template)
    requires WorldShape(w) && Good(cfg, works, w)
    ensures var w' := PutTemplate(f, w, t).0; WorldShape(w') && Good(cfg, works, w')
  {
    hide PutTemplate, WorldShape, WorldInv, AllFaithful, AllSynced, Known;
    TemplateShape(f, w, t);
    TemplateKeeps(cfg, f, w, t);
    TemplateFaithful(cfg, f, w, t);
    KeysBelow(cfg, w);
    TemplateSyncs(works, f, w, t);
  }

  lemma RestartGood(cfg: Config, works: bool, w: World)
    requires WorldShape(w) && Good(cfg, works, w) && ConfigOk(cfg)
    ensures var w' := Restarted(cfg, w); WorldShape(w') && Good(cfg, works, w')
  {
    hide Template.Valid, BuiltAsset, Synced, Faithful, WellFormed, AssetInv, CmmsOk, CallsBounded, OneOpenEach,
      OrdersKeyed;
    RestartShape(cfg, w);
    RestartKeeps(cfg, w);
    RestartFaithful(cfg, w);
    var templates := cfg.defaults + w.env.templates;
    forall id | id in w.env.snapshots && w.env.snapshots[id].class_ in templates
      ensures var s := w.env.snapshots[id];
              var a := BuiltAsset(id, s.site, templates[s.class_], s.baselines, s.offset, s.age, w.env.nextId);
              Synced(works, w.env.alerts, w.env.nextId, a) && a.history.since == w.env.nextId
    {
      var s := w.env.snapshots[id];
      BuiltIsNew(id, s.site, templates[s.class_], s.baselines, s.offset, s.age, w.env.nextId);
      NewIsSynced(works, w.env.alerts, w.env.nextId,
        BuiltAsset(id, s.site, templates[s.class_], s.baselines, s.offset, s.age, w.env.nextId));
    }
  }

  // ----- Every reachable state -----

  lemma PerformGood(cfg: Config, f: Faults, w: World, op: Op)
    requires WorldShape(w) && Good(cfg, StoreWorks(f), w) && ConfigOk(cfg)
    ensures var w' := Perform(cfg, f, w, op); WorldShape(w') && Good(cfg, StoreWorks(f), w')
  {
    hide WorldShape, Good, Feedback, PutTemplate, Restarted, Ingest, StoreWorks;
    match op
    case DoIngest(batch) => IngestGood(cfg, f, w, batch);
    case DoFeedback(id, v) => FeedbackGood(cfg, f, w, id, v);
    case DoTemplate(t) => TemplateGood(cfg, StoreWorks(f), f, w, t);
    case DoRestart => RestartGood(cfg, StoreWorks(f), w);
  }

  lemma {:induction false} RunGood(cfg: Config, f: Faults, w0: World, ops: seq<Op>)
    requires WorldShape(w0) && Good(cfg, StoreWorks(f), w0) && ConfigOk(cfg)
    ensures Good(cfg, StoreWorks(f), Run(cfg, f, w0, ops))
  {
    hide WorldShape, Good, Perform, StoreWorks;
    if ops != [] {
      RunGood(cfg, f, w0, ops[..|ops| - 1]);
      PerformGood(cfg, f, Run(cfg, f, w0, ops[..|ops| - 1]), ops[|ops| - 1]);
    }
  }

  lemma BeginGood(cfg: Config, works: bool)
    requires ConfigOk(cfg)
    ensures WorldShape(Begin(cfg)) && Good(cfg, works, Begin(cfg))
  {
    BeginInv(cfg);
    BeginFaithful(cfg);
  }

  lemma AfterIsGood(cfg: Config, f: Faults, ops: seq<Op>, id: string)
    requires ConfigOk(cfg) && id in After(cfg, f, ops).assets
    ensures var w := After(cfg, f, ops);
            && w.assets[id].id == id && WellFormed(w.assets[id])
            && Synced(StoreWorks(f), w.env.alerts, w.born, w.assets[id]) && Faithful(cfg, w.assets[id])
  {
    hide Run, Begin, Synced, Faithful, WellFormed, WorldInv, Known, StoreWorks;
    BeginGood(cfg, StoreWorks(f));
    RunGood(cfg, f, Begin(cfg), ops);
  }

  /**
    Lockstep. In every state reachable without a store failure, whatever the
    maintenance system does: an asset has an open alert exactly when its policy is
    inside an alerted episode; the open alert is stored, and is the asset's only
    uncleared alert of this engine; and the alerts stored since the last rebuild
    are the fires of the recorded run, one for one and at their event times.
   */
  lemma AlertsInLockstep(cfg: Config, f: Faults, ops: seq<Op>, id: string)
    requires ConfigOk(cfg) && StoreWorks(f) && id in After(cfg, f, ops).assets
    ensures var w := After(cfg, f, ops);
            var a, h, alerts := w.assets[id], w.assets[id].history, w.env.alerts;
            && (a.openAlert.Some? <==> a.policy.state.Active? && a.policy.alerted)
            && (a.openAlert.Some? ==> Own(alerts, id, a.openAlert.value))
            && (forall x: Id :: Own(alerts, id, x) && x >= w.born ==>
                  (alerts[x].clearedAt.None? <==> a.openAlert == Some(x)))
            && (forall x: Id :: Own(alerts, id, x) && x >= h.since <==> x in h.raised)
            && (forall i, j :: 0 <= i < j < |h.raised| ==> h.raised[i] < h.raised[j])
            && (forall x :: x in h.raised ==> x in alerts)
            && EventTimes(alerts, h.raised) == AlertTimes(h.origin, h.evaluations, |h.evaluations|)
  {
    hide After, EventTimes, AlertTimes, Follows, Faithful, WellFormed, Spaced, Judgements;
    AfterIsGood(cfg, f, ops, id);
  }

  lemma {:induction false} EventTimeAt(alerts: Alerts, raised: seq<Id>, i: nat)
    requires (forall k :: 0 <= k < |raised| ==> raised[k] in alerts) && i < |raised|
    ensures |EventTimes(alerts, raised)| == |raised| && EventTimes(alerts, raised)[i] == alerts[raised[i]].eventTime
  {
    if |raised| > 1 {
      EventTimeAt(alerts, raised[..|raised| - 1], if i < |raised| - 1 then i else 0);
    }
  }

  /** Whatever fails, the alerts stored for an asset since the last rebuild follow the fires of its recorded run. */
  lemma StoredAlertsFollowFires(cfg: Config, f: Faults, ops: seq<Op>, id: string)
    requires ConfigOk(cfg) && id in After(cfg, f, ops).assets
    ensures var w := After(cfg, f, ops);
            var a, h, alerts := w.assets[id], w.assets[id].history, w.env.alerts;
            && (forall x: Id :: Own(alerts, id, x) && x >= h.since <==> x in h.raised)
            && (forall i, j :: 0 <= i < j < |h.raised| ==> h.raised[i] < h.raised[j])
            && (forall i :: 0 <= i < |h.raised| ==> h.raised[i] in alerts)
            && Within(EventTimes(alerts, h.raised), AlertTimes(h.origin, h.evaluations, |h.evaluations|))
            && Traced(a) && Increasing(h.evaluations, a.lastEval) && a.policy.p == a.tpl.alerting
               && a.tpl.alerting.Valid()
  {
    hide After, EventTimes, AlertTimes, Within, Windowed, Guarded, StateAt, OffsetAfter, ClampOffset, Increasing,
      Extractor.Fits;
    AfterIsGood(cfg, f, ops, id);
  }

  /**
    Distance, whatever fails: of two alerts stored for an asset since the last
    rebuild the later one comes at least the suppression time after the earlier.
    When the store works the earlier one has been cleared by then, no earlier than
    it was raised, and the distance is kept from the clear.
   */
  lemma AlertsKeepDistance(cfg: Config, f: Faults, ops: seq<Op>, id: string, i: nat, j: nat)
    requires ConfigOk(cfg) && id in After(cfg, f, ops).assets
    requires i < j < |After(cfg, f, ops).assets[id].history.raised|
    ensures var w := After(cfg, f, ops);
            var a, r, alerts := w.assets[id], w.assets[id].history.raised, w.env.alerts;
            && r[i] in alerts && r[j] in alerts
            && alerts[r[i]].eventTime + a.tpl.alerting.suppression <= alerts[r[j]].eventTime
            && (StoreWorks(f) ==>
                  && alerts[r[i]].clearedAt.Some?
                  && alerts[r[i]].eventTime <= alerts[r[i]].clearedAt.value
                  && alerts[r[i]].clearedAt.value + a.tpl.alerting.suppression <= alerts[r[j]].eventTime)
  {
    hide After, EventTimes, AlertTimes, Within, StoreWorks, Traced, Increasing, Fires, Faithful, WellFormed, Judgements;
    StoredAlertsFollowFires(cfg, f, ops, id);
    var w := After(cfg, f, ops);
    var a, h := w.assets[id], w.assets[id].history;
    FiresAreApart(a);
    WithinApart(EventTimes(w.env.alerts, h.raised), AlertTimes(h.origin, h.evaluations, |h.evaluations|),
      a.policy.p.suppression);
    EventTimeAt(w.env.alerts, h.raised, i);
    EventTimeAt(w.env.alerts, h.raised, j);
    if StoreWorks(f) {
      AfterIsGood(cfg, f, ops, id);
    }
  }

  /** The fires of a recorded run are apart. */
  lemma FiresAreApart(a: Asset)
    requires Traced(a) && Increasing(a.history.evaluations, a.lastEval) && a.policy.p.Valid()
    ensures var h := a.history; Apart(AlertTimes(h.origin, h.evaluations, |h.evaluations|), a.policy.p.suppression)
  {
    hide StateAt, OffsetAfter, ClampOffset, AlertTimes, Apart;
    AlertTimesApart(a.history.origin, a.policy.p, a.history.evaluations, |a.history.evaluations|);
  }

  lemma {:induction false} AlertTimesApart(s0: PolicyState, p: Params, run: seq<Obs>, n: nat)
    requires s0.p == p && p.Valid() && PolicyRuns.InTimeOrder(run) && n <= |run|
    ensures Apart(AlertTimes(s0, run, n), p.suppression)
  {
    hide Step, StateAt, OutcomeAt;
    if n > 0 {
      AlertTimesApart(s0, p, run, n - 1);
      var before := AlertTimes(s0, run, n - 1);
      if OutcomeAt(s0, run, n - 1).Fire? {
        forall i | 0 <= i < |before|
          ensures before[i] + p.suppression <= run[n - 1].now
        {
          var k := AlertTimesAreFires(s0, run, n - 1, before[i]);
          AlertSpacing(s0, p, run, k, n - 1);
        }
      }
    }
  }

  /**
    Rate, whatever fails: in any hour of event time at most
    MaxAlertsPerAssetPerHour alerts are stored for an asset since the last rebuild.
   */
  lemma AlertsKeepRate(cfg: Config, f: Faults, ops: seq<Op>, id: string, lo: Time)
    requires ConfigOk(cfg) && id in After(cfg, f, ops).assets
    requires After(cfg, f, ops).assets[id].tpl.alerting.maxPerAsset > 0
    ensures var w := After(cfg, f, ops);
            var a := w.assets[id];
            && (forall i :: 0 <= i < |a.history.raised| ==> a.history.raised[i] in w.env.alerts)
            && RateLimit.CountIn(EventTimes(w.env.alerts, a.history.raised), lo, lo + HOUR)
               <= a.tpl.alerting.maxPerAsset
  {
    hide After, EventTimes, AlertTimes, Within, StateAt, OffsetAfter, ClampOffset, RateLimit.CountIn;
    StoredAlertsFollowFires(cfg, f, ops, id);
    var w := After(cfg, f, ops);
    var a, h := w.assets[id], w.assets[id].history;
    AlertRate(h.origin, a.policy.p, h.evaluations, lo);
    WithinCounts(
      EventTimes(w.env.alerts, h.raised), AlertTimes(h.origin, h.evaluations, |h.evaluations|), lo, lo + HOUR);
  }

  lemma {:induction false} AlertTimesAreFires(s0: PolicyState, run: seq<Obs>, n: nat, t: Time) returns (k: nat)
    requires n <= |run| && t in AlertTimes(s0, run, n)
    ensures k < n && OutcomeAt(s0, run, k).Fire? && run[k].now == t
  {
    hide Step, StateAt;
    if t in AlertTimes(s0, run, n - 1) {
      k := AlertTimesAreFires(s0, run, n - 1, t);
    } else {
      k := n - 1;
    }
  }

  /** Every clear keeps later alerts away, whatever fails, and also the clear of an episode that did not alert. */
  lemma ClearsAreRespected(cfg: Config, f: Faults, ops: seq<Op>, id: string, i: nat, k: nat)
    requires ConfigOk(cfg) && id in After(cfg, f, ops).assets
    requires var h := After(cfg, f, ops).assets[id].history;
             i < |h.raised| && k < |h.evaluations| && OutcomeAt(h.origin, h.evaluations, k).Clear?
    ensures var w := After(cfg, f, ops);
            var a, h := w.assets[id], w.assets[id].history;
            && h.raised[i] in w.env.alerts
            && (h.evaluations[k].now <= w.env.alerts[h.raised[i]].eventTime ==>
                  h.evaluations[k].now + a.tpl.alerting.suppression <= w.env.alerts[h.raised[i]].eventTime)
  {
    hide After, EventTimes, AlertTimes, Within, StateAt, OutcomeAt, OffsetAfter, ClampOffset;
    StoredAlertsFollowFires(cfg, f, ops, id);
    var w := After(cfg, f, ops);
    var a, h := w.assets[id], w.assets[id].history;
    var t := w.env.alerts[h.raised[i]].eventTime;
    EventTimeAt(w.env.alerts, h.raised, i);
    WithinMember(EventTimes(w.env.alerts, h.raised), AlertTimes(h.origin, h.evaluations, |h.evaluations|), t);
    var j := AlertTimesAreFires(h.origin, h.evaluations, |h.evaluations|, t);
    if h.evaluations[k].now <= t && j != k {
      assert k < j;
      AlertSpacing(h.origin, a.policy.p, h.evaluations, k, j);
    }
  }

  /**
    Feedback is a once-per-alert clamped fold: the verdicts applied to an asset
    since the last rebuild are for distinct alerts of its own and are their
    statuses now, every alert raised since then and judged is among them, and
    the offset is the clamped fold of those verdicts in order,
    inside its bounds.
   */
  lemma VerdictsCountOnce(cfg: Config, f: Faults, ops: seq<Op>, id: string)
    requires ConfigOk(cfg) && StoreWorks(f) && id in After(cfg, f, ops).assets
    ensures var w := After(cfg, f, ops);
            var a, js := w.assets[id], w.assets[id].history.judged;
            var p := a.tpl.alerting;
            && a.policy.offset == OffsetAfter(p, a.history.origin.offset, Verdicts(js))
            && (forall i :: 0 <= i < |js| ==>
                  Own(w.env.alerts, id, js[i].0) && w.env.alerts[js[i].0].status == StatusFor(js[i].1))
            && (forall i, j :: 0 <= i < j < |js| ==> js[i].0 != js[j].0)
            && (forall x: Id | Own(w.env.alerts, id, x) && x >= a.history.since && !w.env.alerts[x].status.AlertOpen? ::
                  exists i :: 0 <= i < |js| && js[i].0 == x)
            && Abs(a.policy.offset) <= p.adaptation.maxOffset
            && p.offThreshold + 0.01 <= EffectiveThreshold(p, a.policy.offset)
               <= Max(ThresholdCeiling(p), p.offThreshold + 0.01)
  {
    hide After, EventTimes, AlertTimes, Fires, Follows, Spaced, Lock, Lists, StateAt, OffsetAfter, Verdicts,
      EffectiveThreshold, Windowed, Guarded;
    AfterIsGood(cfg, f, ops, id);
    var a := After(cfg, f, ops).assets[id];
    ThresholdRange(a.tpl.alerting, a.policy.offset);
  }
}
