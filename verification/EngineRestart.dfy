/**
  What a restart brings back: the snapshot of an asset holds the offset its
  verdicts left, and the baselines it learned, so a new engine over the same
  store starts where the old one stopped.
 */
module EngineRestart {
  import opened Common
  import opened Policy
  import opened PolicyRuns
  import opened WorkOrders
  import opened Pipeline
  import opened EngineModel
  import opened EngineEffects
  import opened EngineWorld
  import Extractor
  import Fusion
  import HstDetector
  import Learner

  // ----- Baselines -----

  /** What detectors have learned themselves, which is what a snapshot keeps. */
  function Learned(d: Detectors): HstDetector.Baselines {
    if d.fromAsset then d.baselines else map[]
  }

  /** The baselines in use are the learned ones over those of the class. */
  ghost predicate Merged(tpl: Template, d: Detectors) {
    (d.baselines, d.fromAsset) == MergeBaselines(tpl.classBaselines, Learned(d), tpl.names)
  }

  lemma MergedFrom(tpl: Template, learned: HstDetector.Baselines, d: Detectors)
    requires (d.baselines, d.fromAsset) == MergeBaselines(tpl.classBaselines, learned, tpl.names)
    ensures Merged(tpl, d)
  {
    if d.fromAsset {
      var n :| n in tpl.names && n in learned;
      assert n in d.baselines;
      assert MergeBaselines(tpl.classBaselines, d.baselines, tpl.names).0 == d.baselines;
    } else {
      assert MergeBaselines(tpl.classBaselines, map[], tpl.names).0 == d.baselines;
    }
  }

  lemma FreshMerged(tpl: Template, learned: HstDetector.Baselines)
    ensures Merged(tpl, FreshDetectors(tpl, learned))
  {
    hide MergeBaselines, Merged;
    MergedFrom(tpl, learned, FreshDetectors(tpl, learned));
  }

  lemma LearnKeepsMerged(tpl: Template, d: Detectors, x: HstDetector.Features)
    requires Merged(tpl, d)
    ensures var (d', fitted) := Learn(tpl, d, x);
            && Merged(tpl, d') && (fitted ==> !d.fromAsset)
            && (!fitted ==> d'.baselines == d.baselines && d'.fromAsset == d.fromAsset)
  {
    hide MergeBaselines, Merged, Learner.Fitted, Floored;
    var (d', fitted) := Learn(tpl, d, x);
    if fitted {
      MergedFrom(tpl, Floored(tpl.classBaselines, Learner.Fitted(d'.learned)), d');
    } else {
      SameMerged(tpl, d, d');
    }
  }

  lemma SameMerged(tpl: Template, d: Detectors, d': Detectors)
    requires Merged(tpl, d) && d'.baselines == d.baselines && d'.fromAsset == d.fromAsset
    ensures Merged(tpl, d') && Learned(d') == Learned(d)
  {
    hide MergeBaselines;
  }

  // ----- One asset -----

  /** The asset's snapshot holds its class and offset; without a snapshot the offset is still 0. */
  ghost predicate Persisted(env: Env, a: Asset) {
    && Merged(a.tpl, a.detectors)
    && a.policy.p == a.tpl.alerting && Abs(a.policy.offset) <= a.policy.p.adaptation.maxOffset
    && if a.id in env.snapshots
       then env.snapshots[a.id].class_ == a.class_ && env.snapshots[a.id].offset == a.policy.offset
       else a.policy.offset == 0.0
  }

  /** Only the snapshot of one asset may have changed, or appeared. */
  ghost predicate OnlyOne(env: Env, env': Env, id: string) {
    && (forall x :: x != id ==> (x in env'.snapshots <==> x in env.snapshots))
    && (forall x :: x != id && x in env.snapshots ==> env'.snapshots[x] == env.snapshots[x])
    && (id in env.snapshots ==> id in env'.snapshots)
  }

  /** An evaluation of the policy moves neither its parameters nor its offset. */
  lemma EvaluationKeepsOffset(s: PolicyState, now: Time, risk: real, site: Option<RateLimit.Limiter>)
    ensures var s' := Evaluate(s, now, risk, site).0; s'.p == s.p && s'.offset == s.offset
  {
    hide EffectiveThreshold, Open, Mean;
  }

  lemma ReactKeepsSnapshots(
    cfg: Config, f: Faults, s: Progress, ts: Time, as_: Fusion.Assessment, top: string, o: Outcome)
    requires s.ok
    ensures var s' := React(cfg, f, s, ts, as_, top, o);
            && s'.env.snapshots == s.env.snapshots && s'.asset.policy == s.asset.policy
            && s'.asset.detectors == s.asset.detectors
  {
    hide OnFire, OnHold, OnClear, NewAlert, AlertLinked, OrderAdded, CmmsStep, Stamped;
    match o
    case Fire => FireHasEffect(f, s, ts, as_, top);
    case Hold => HoldHasEffect(cfg, f, s);
    case Clear => ClearHasEffect(f, s, ts);
    case _ =>
  }

  /** What is saved of an asset. */
  function SnapshotOf(a: Asset): Snapshot {
    Snapshot(a.id, a.site, a.class_, Learned(a.detectors), a.policy.offset, a.age)
  }

  predicate Fits(cfg: Config, s: Progress) {
    Learn(s.asset.tpl, s.asset.detectors, cfg.kernels.extract(s.asset.tpl, s.asset.samples)).1
  }

  /** Scoring saves a snapshot exactly when it finishes a warm-up, and fails exactly when that call fails. */
  lemma ExamineSnapshots(cfg: Config, f: Faults, s: Progress, ts: Time)
    requires s.asset.tpl.Valid()
    ensures var s' := Examine(cfg, f, s, ts).s;
            && (s'.ok <==> (Fits(cfg, s) ==> !f.store(s.env.calls)))
            && s'.env.snapshots == (if Fits(cfg, s) && s'.ok then s.env.snapshots[s.asset.id := SnapshotOf(s'.asset)]
                                    else s.env.snapshots)
  {
    hide Learn, HstScores, Cusum.Update, Fusion.Fuse, CusumInput;
  }

  lemma ExamineKeepsPersisted(cfg: Config, f: Faults, s: Progress, ts: Time)
    requires s.asset.tpl.Valid() && Persisted(s.env, s.asset)
    ensures var s' := Examine(cfg, f, s, ts).s; Persisted(s'.env, s'.asset) && OnlyOne(s.env, s'.env, s.asset.id)
  {
    hide Examine, Merged, Fits;
    ExamineFrame(cfg, f, s, ts);
    ExamineSnapshots(cfg, f, s, ts);
    ExamineKeepsMerged(cfg, f, s, ts);
  }

  lemma ExamineKeepsMerged(cfg: Config, f: Faults, s: Progress, ts: Time)
    requires s.asset.tpl.Valid() && Merged(s.asset.tpl, s.asset.detectors)
    ensures var a' := Examine(cfg, f, s, ts).s.asset;
            && Merged(s.asset.tpl, a'.detectors)
            && (!Fits(cfg, s) ==> Learned(a'.detectors) == Learned(s.asset.detectors))
            && (Fits(cfg, s) ==> !s.asset.detectors.fromAsset)
            && a'.detectors.fromAsset == (s.asset.detectors.fromAsset || (Fits(cfg, s) && a'.detectors.fromAsset))
  {
    hide Merged, Learn, HstScores, Cusum.Update, Fusion.Fuse, CusumInput, SaveSnapshot;
    var features := cfg.kernels.extract(s.asset.tpl, s.asset.samples);
    var (d, fitted) := Learn(s.asset.tpl, s.asset.detectors, features);
    LearnKeepsMerged(s.asset.tpl, s.asset.detectors, features);
    SameMerged(s.asset.tpl, d, Examine(cfg, f, s, ts).s.asset.detectors);
  }

  lemma DecideKeepsPersisted(cfg: Config, f: Faults, s: Progress, ts: Time, as_: Fusion.Assessment, top: string)
    requires Persisted(s.env, s.asset)
    ensures var s' := Decide(cfg, f, s, ts, as_, top);
            InputsOf(s'.asset) == InputsOf(s.asset) ==>
              Persisted(s'.env, s'.asset) && OnlyOne(s.env, s'.env, s.asset.id)
  {
    hide FeedPolicy, React, Evaluate, Merged;
    FeedPolicyFrame(s, ts, as_.risk);
    SameTemplate(Decide(cfg, f, s, ts, as_, top).asset, s.asset);
    EvaluationKeepsOffset(s.asset.policy, ts, as_.risk, SiteLimiter(s.env, s.asset));
    var (s1, outcome) := FeedPolicy(s, ts, as_.risk);
    ReactKeepsSnapshots(cfg, f, s1, ts, as_, top, outcome);
  }

  lemma SameTemplate(a: Asset, b: Asset)
    ensures InputsOf(a) == InputsOf(b) ==> a.tpl == b.tpl && a.id == b.id && a.class_ == b.class_
  {
  }

  lemma EvaluateKeepsPersisted(cfg: Config, f: Faults, s: Progress, ts: Time)
    requires WellFormed(s.asset) && Persisted(s.env, s.asset)
    ensures var s' := EvaluateIfReady(cfg, f, s, ts);
            Persisted(s'.env, s'.asset) && OnlyOne(s.env, s'.env, s.asset.id)
  {
    hide Persisted, Examine, Decide, Evaluates;
    if Evaluates(s.asset, ts) {
      ExamineFrame(cfg, f, s, ts);
      ExamineKeepsPersisted(cfg, f, s, ts);
      var x := Examine(cfg, f, s, ts);
      DecideKeepsInputs(cfg, f, x.s, ts, x.assessment, x.top);
      DecideKeepsPersisted(cfg, f, x.s, ts, x.assessment, x.top);
    }
  }

  lemma PushKeepsPersisted(cfg: Config, env: Env, a: Asset, m: Metric)
    requires WellFormed(a) && Persisted(env, a)
    ensures Persisted(env, PushMetric(cfg, a, m).0)
  {
    hide Extractor.PushReading, Merged;
  }

  lemma {:induction false} GroupKeepsPersisted(cfg: Config, f: Faults, s: Progress, pending: Time, ms: seq<Metric>)
    requires WellFormed(s.asset) && Persisted(s.env, s.asset)
    ensures var s' := IngestGroup(cfg, f, s, pending, ms);
            Persisted(s'.env, s'.asset) && OnlyOne(s.env, s'.env, s.asset.id)
    decreases |ms|
  {
    hide EvaluateIfReady, PushMetric, WellFormed, Persisted;
    EvaluateShape(cfg, f, s, pending);
    EvaluateKeepsPersisted(cfg, f, s, pending);
    if ms != [] {
      var m := ms[0];
      var s1 := if pending != ZERO_TIME && m.ts > pending then EvaluateIfReady(cfg, f, s, pending) else s;
      if s1.ok {
        PushShape(cfg, s1.asset, m);
        PushKeepsPersisted(cfg, s1.env, s1.asset, m);
        var (a, pushed) := PushMetric(cfg, s1.asset, m);
        GroupKeepsPersisted(cfg, f, s1.(asset := a, tally := Count(s1.tally, pushed)), m.ts, ms[1..]);
      }
    }
  }

  // ----- The whole world -----

  /** Every asset is of a class as configured and persisted, and every snapshot is of an asset. */
  ghost predicate AllPersisted(cfg: Config, w: World) {
    && w.templates == cfg.defaults && w.env.templates == cfg.defaults
    && (forall id :: id in w.env.snapshots ==> id in w.assets)
    && forall id :: id in w.assets ==>
         && w.assets[id].class_ in cfg.defaults && w.assets[id].tpl == cfg.defaults[w.assets[id].class_]
         && Persisted(w.env, w.assets[id])
  }

  lemma BuiltIsPersisted(env: Env, id: string, site: string, tpl: Template, s: Option<Snapshot>)
    requires tpl.Valid()
    requires match s
             case None => id !in env.snapshots
             case Some(snap) =>
               && id in env.snapshots && env.snapshots[id] == snap && snap.class_ == tpl.class_
               && Abs(snap.offset) <= tpl.alerting.adaptation.maxOffset
    ensures var a := match s
                     case None => BuiltAsset(id, site, tpl, map[], 0.0, 0.0, env.nextId)
                     case Some(snap) => BuiltAsset(id, site, tpl, snap.baselines, snap.offset, snap.age, env.nextId);
            a.id == id && Persisted(env, a) && a.class_ == tpl.class_ && a.tpl == tpl
  {
    hide FreshDetectors, Merged;
    FreshMerged(tpl, match s case None => map[] case Some(snap) => snap.baselines);
  }

  lemma AssetForPersisted(cfg: Config, w: World, m: Metric)
    requires WorldShape(w) && ConfigOk(cfg) && AllPersisted(cfg, w) && AssetFor(w, m).Some?
    ensures var a := AssetFor(w, m).value;
            Persisted(w.env, a) && a.class_ in cfg.defaults && a.tpl == cfg.defaults[a.class_]
  {
    hide BuiltAsset;
    if m.asset !in w.assets {
      BuiltIsPersisted(w.env, m.asset, m.site, w.templates[m.class_], None);
    }
  }

  lemma ShareKeepsPersisted(cfg: Config, f: Faults, w: World, tally: Tally, ms: seq<Metric>)
    requires WorldShape(w) && ConfigOk(cfg) && AllPersisted(cfg, w) && ms != []
    ensures AllPersisted(cfg, IngestAsset(cfg, f, w, tally, ms).world)
  {
    hide IngestGroup, WellFormed, AssetFor, Persisted;
    if AssetFor(w, ms[0]).Some? {
      AssetForShape(w, ms[0]);
      AssetForPersisted(cfg, w, ms[0]);
      var s := Progress(w.env, AssetFor(w, ms[0]).value, tally, true);
      GroupKeepsShape(cfg, f, s, ZERO_TIME, ms);
      GroupKeepsPersisted(cfg, f, s, ZERO_TIME, ms);
      var s' := IngestGroup(cfg, f, s, ZERO_TIME, ms);
      forall id | id in w.assets && id != s.asset.id
        ensures Persisted(s'.env, w.assets[id])
      {
        OthersStay(w.env, s'.env, s.asset.id, w.assets[id]);
      }
    }
  }

  lemma OthersStay(env: Env, env': Env, id: string, a: Asset)
    requires Persisted(env, a) && OnlyOne(env, env', id) && a.id != id
    ensures Persisted(env', a)
  {
  }

  lemma {:induction false} SharesKeepPersisted(
    cfg: Config, f: Faults, w: World, tally: Tally, ids: seq<string>, ms: seq<Metric>)
    requires WorldShape(w) && ConfigOk(cfg) && AllPersisted(cfg, w)
    requires forall id :: id in ids ==> GroupOf(ms, id) != []
    ensures AllPersisted(cfg, IngestAssets(cfg, f, w, tally, ids, ms).world)
    decreases |ids|
  {
    hide WorldShape, IngestAsset, SortByTime, AllPersisted;
    if ids != [] {
      var group := SortByTime(GroupOf(ms, ids[0]));
      IngestAssetShape(cfg, f, w, tally, group);
      ShareKeepsPersisted(cfg, f, w, tally, group);
      var r := IngestAsset(cfg, f, w, tally, group);
      if r.ok {
        SharesKeepPersisted(cfg, f, r.world, r.tally, ids[1..], ms);
      }
    }
  }

  lemma IngestKeepsPersisted(cfg: Config, f: Faults, w: World, batch: seq<Metric>)
    requires WorldShape(w) && ConfigOk(cfg) && AllPersisted(cfg, w)
    ensures AllPersisted(cfg, Ingest(cfg, f, w, batch).world)
  {
    hide WorldShape, AllPersisted, IngestAssets, ValidOf, AssetsOf, GroupOf;
    var ms := ValidOf(batch);
    ValidLength(batch);
    AssetsHaveGroups(ms);
    SharesKeepPersisted(cfg, f, w, NOTHING.(rejected := |batch| - |ms|), AssetsOf(ms), ms);
  }

  /** The snapshots after a verdict: the judged asset's is saved unless that call fails. */
  lemma JudgeSnapshots(f: Faults, w: World, alert: Alert, v: Verdict)
    requires alert.asset in w.assets
    ensures var a, env := Judged(w.assets[alert.asset], alert.id, v), JudgeAlert(f, w, alert, v).0.env;
            env.snapshots == if f.store(w.env.calls) then w.env.snapshots else SaveSnapshot(f, w.env, a).0.snapshots
  {
    hide AfterAdapting, Judged, RecordVerdict;
    var a := Judged(w.assets[alert.asset], alert.id, v);
    AdaptingSnapshots(f, w.env, a, alert, v);
    RecordEffect(f, w.(assets := w.assets[alert.asset := a], env := AfterAdapting(f, w.env, a, alert, v).0), alert, v);
  }

  lemma AdaptingSnapshots(f: Faults, env: Env, a: Asset, alert: Alert, v: Verdict)
    ensures AfterAdapting(f, env, a, alert, v).0.snapshots
            == if f.store(env.calls) then env.snapshots else SaveSnapshot(f, env, a).0.snapshots
  {
    hide CancelOrder;
    if alert.workOrder.Some? {
      CancelFrame(f, SaveSnapshot(f, env, a).0, alert.workOrder.value);
    }
  }

  /** The judged asset is persisted by its new snapshot. */
  lemma JudgedIsPersisted(f: Faults, env: Env, a: Asset, id: Id, v: Verdict)
    requires a.tpl.Valid() && Persisted(env, a) && !f.store(env.calls)
    ensures var env' := SaveSnapshot(f, env, Judged(a, id, v)).0;
            Persisted(env', Judged(a, id, v)) && OnlyOne(env, env', a.id)
    ensures Judged(a, id, v).id == a.id && Judged(a, id, v).class_ == a.class_ && Judged(a, id, v).tpl == a.tpl
  {
  }

  lemma SameSnapshots(env: Env, env': Env, a: Asset)
    requires Persisted(env, a) && env'.snapshots == env.snapshots
    ensures Persisted(env', a)
  {
  }

  lemma JudgeKeepsPersisted(cfg: Config, f: Faults, w: World, alert: Alert, v: Verdict)
    requires WorldShape(w) && AllPersisted(cfg, w) && alert.asset in w.assets && !f.store(w.env.calls)
    ensures AllPersisted(cfg, JudgeAlert(f, w, alert, v).0)
  {
    hide JudgeAlert, Judged, Persisted, SaveSnapshot;
    JudgeEffect(f, w, alert, v);
    JudgeSnapshots(f, w, alert, v);
    var a, w' := w.assets[alert.asset], JudgeAlert(f, w, alert, v).0;
    var saved := SaveSnapshot(f, w.env, Judged(a, alert.id, v)).0;
    JudgedIsPersisted(f, w.env, a, alert.id, v);
    forall id | id in w'.assets
      ensures Persisted(w'.env, w'.assets[id])
    {
      if id != a.id {
        OthersStay(w.env, saved, a.id, w.assets[id]);
      }
      SameSnapshots(saved, w'.env, w'.assets[id]);
    }
  }

  lemma FeedbackKeepsPersisted(cfg: Config, f: Faults, w: World, id: Id, v: Verdict)
    requires WorldShape(w) && AllPersisted(cfg, w) && !f.store(w.env.calls + 1)
    ensures AllPersisted(cfg, Feedback(f, w, id, v).0)
  {
    hide AllPersisted, WellFormed, JudgeAlert;
    var w1 := w.(env := Called(w.env));
    StillPersisted(cfg, w, w1);
    if Judges(f, w, id) {
      var alert := w.env.alerts[id];
      if alert.asset in w.assets {
        JudgeKeepsPersisted(cfg, f, w1, alert, v);
      } else {
        JudgeUnknown(f, w1, alert, v);
        StillPersisted(cfg, w1, JudgeAlert(f, w1, alert, v).0);
      }
    }
  }

  lemma JudgeUnknown(f: Faults, w: World, alert: Alert, v: Verdict)
    requires alert.asset !in w.assets
    ensures var w' := JudgeAlert(f, w, alert, v).0;
            && w'.assets == w.assets && w'.templates == w.templates
            && w'.env.snapshots == w.env.snapshots && w'.env.templates == w.env.templates
  {
    hide AfterAdapting, Judged;
  }

  /** Snapshots, templates and assets are all that matters. */
  lemma StillPersisted(cfg: Config, w: World, w': World)
    requires AllPersisted(cfg, w) && w'.assets == w.assets && w'.templates == w.templates
    requires w'.env.snapshots == w.env.snapshots && w'.env.templates == w.env.templates
    ensures AllPersisted(cfg, w')
  {
  }

  /** An asset comes back from its snapshot with the offset it had. */
  lemma RestoredIsPersisted(cfg: Config, w: World, id: string)
    requires WorldShape(w) && ConfigOk(cfg) && AllPersisted(cfg, w) && id in w.env.snapshots
    ensures w.env.snapshots[id].class_ in cfg.defaults && id in w.assets
    ensures var a := Restored(id, w.env.snapshots[id], cfg.defaults, w.env.nextId);
            && a.id == id && Persisted(w.env, a) && a.class_ in cfg.defaults && a.tpl == cfg.defaults[a.class_]
            && a.policy.offset == w.assets[id].policy.offset
  {
    hide BuiltAsset, Template.Valid;
    var snap := w.env.snapshots[id];
    assert w.assets[id].id == id && Persisted(w.env, w.assets[id]);
    BuiltIsPersisted(w.env, id, snap.site, cfg.defaults[snap.class_], Some(snap));
  }

  lemma RestartKeepsPersisted(cfg: Config, w: World)
    requires WorldShape(w) && ConfigOk(cfg) && AllPersisted(cfg, w)
    ensures AllPersisted(cfg, Restarted(cfg, w))
    ensures var w' := Restarted(cfg, w);
            && w'.assets.Keys == w.env.snapshots.Keys
            && forall id :: id in w.env.snapshots ==>
                 id in w.assets && w'.assets[id].policy.offset == w.assets[id].policy.offset
  {
    hide Restored, Persisted, WorldShape, ConfigOk;
    assert cfg.defaults + w.env.templates == cfg.defaults;
    var w' := Restarted(cfg, w);
    forall id | id in w.env.snapshots
      ensures w.env.snapshots[id].class_ in cfg.defaults && id in w.assets
      ensures var a := Restored(id, w.env.snapshots[id], cfg.defaults, w.env.nextId);
              && Persisted(w'.env, a) && a.class_ in cfg.defaults && a.tpl == cfg.defaults[a.class_]
              && a.policy.offset == w.assets[id].policy.offset
    {
      hide Restarted, AllPersisted;
      RestoredIsPersisted(cfg, w, id);
      SameSnapshots(w.env, w'.env, Restored(id, w.env.snapshots[id], cfg.defaults, w.env.nextId)) by {
        RestartSnapshots(cfg, w);
      }
    }
  }

  lemma RestartSnapshots(cfg: Config, w: World)
    ensures Restarted(cfg, w).env.snapshots == w.env.snapshots
  {
  }

  // ----- Runs -----

  /** No template is replaced, and every verdict's snapshot is saved; any other call may fail. */
  ghost predicate SavesOffsets(cfg: Config, f: Faults, w0: World, ops: seq<Op>)
    requires WorldShape(w0) && ConfigOk(cfg)
  {
    forall n :: 0 <= n < |ops| ==>
      && !ops[n].DoTemplate?
      && (ops[n].DoFeedback? ==> !f.store(Run(cfg, f, w0, ops[..n]).env.calls + 1))
  }

  lemma PerformKeepsPersisted(cfg: Config, f: Faults, w: World, op: Op)
    requires WorldShape(w) && ConfigOk(cfg) && AllPersisted(cfg, w)
    requires !op.DoTemplate? && (op.DoFeedback? ==> !f.store(w.env.calls + 1))
    ensures AllPersisted(cfg, Perform(cfg, f, w, op))
  {
    hide WorldShape, ConfigOk, AllPersisted, Feedback, Ingest, Restarted;
    match op
    case DoIngest(batch) => IngestKeepsPersisted(cfg, f, w, batch);
    case DoFeedback(id, v) => FeedbackKeepsPersisted(cfg, f, w, id, v);
    case DoRestart => RestartKeepsPersisted(cfg, w);
  }

  lemma {:induction false} RunKeepsPersisted(cfg: Config, f: Faults, w0: World, ops: seq<Op>)
    requires WorldShape(w0) && ConfigOk(cfg) && AllPersisted(cfg, w0) && SavesOffsets(cfg, f, w0, ops)
    ensures AllPersisted(cfg, Run(cfg, f, w0, ops))
    decreases |ops|
  {
    hide WorldShape, ConfigOk, AllPersisted, Perform;
    if ops != [] {
      var front := ops[..|ops| - 1];
      forall n | 0 <= n < |front|
        ensures front[..n] == ops[..n] && front[n] == ops[n]
      {
      }
      RunKeepsPersisted(cfg, f, w0, front);
      PerformKeepsPersisted(cfg, f, Run(cfg, f, w0, front), ops[|ops| - 1]);
    }
  }

  lemma BeginPersisted(cfg: Config)
    requires ConfigOk(cfg)
    ensures WorldShape(Begin(cfg)) && AllPersisted(cfg, Begin(cfg))
  {
  }

  /**
    Learned offsets survive a restart. After any run of ingests, verdicts and
    earlier restarts in which no template is replaced and every verdict's snapshot
    is saved (whatever else fails), the next metric of an asset finds it, on a
    new engine over the same store, at exactly the offset the old engine had.
   */
  lemma OffsetSurvivesRestart(cfg: Config, f: Faults, ops: seq<Op>, m: Metric)
    requires ConfigOk(cfg)
    requires (BeginPersisted(cfg); SavesOffsets(cfg, f, Begin(cfg), ops))
    requires (BeginPersisted(cfg); m.asset in Run(cfg, f, Begin(cfg), ops).assets)
    ensures var w := (BeginPersisted(cfg); Run(cfg, f, Begin(cfg), ops));
            var found := AssetFor(Restarted(cfg, w), m);
            && (found.Some? ==> found.value.policy.offset == w.assets[m.asset].policy.offset)
            && (found.None? ==> w.assets[m.asset].policy.offset == 0.0)
  {
    BeginPersisted(cfg);
    hide Run, Begin, SavesOffsets;
    RunKeepsPersisted(cfg, f, Begin(cfg), ops);
    FoundWithOffset(cfg, Run(cfg, f, Begin(cfg), ops), m);
  }

  lemma FoundWithOffset(cfg: Config, w: World, m: Metric)
    requires WorldShape(w) && ConfigOk(cfg) && AllPersisted(cfg, w) && m.asset in w.assets
    ensures var found := AssetFor(Restarted(cfg, w), m);
            && (found.Some? ==> found.value.policy.offset == w.assets[m.asset].policy.offset)
            && (found.None? ==> w.assets[m.asset].policy.offset == 0.0)
  {
    hide Restored, BuiltAsset;
    RestartShape(cfg, w);
    RestartKeepsPersisted(cfg, w);
    RestartSnapshots(cfg, w);
    var w' := Restarted(cfg, w);
    if AssetFor(w', m).Some? {
      AssetForShape(w', m);
      AssetForPersisted(cfg, w', m);
    }
    hide Restarted, Template.Valid;
  }

  // ----- Exactly what comes back -----

  /** The offset the new clamp allows that is closest to the old one. */
  ghost predicate Brought(p: Params, offset: real, offset': real) {
    && Abs(offset') <= p.adaptation.maxOffset
    && forall o :: Abs(o) <= p.adaptation.maxOffset ==> Abs(offset - offset') <= Abs(offset - o)
  }

  lemma ClampBrings(p: Params, offset: real)
    requires p.adaptation.maxOffset >= 0.0
    ensures Brought(p, offset, ClampOffset(p, offset))
  {
  }

  /** Detectors at the start: what was learned first, the class's baselines for the rest, no windows. */
  ghost predicate StartsWith(d: Detectors, tpl: Template, learned: HstDetector.Baselines) {
    && d.learned == [] && d.windows.cur == [] && d.windows.ref == []
    && d.cusum.gPos == 0.0 && d.cusum.gNeg == 0.0
    && (forall n :: n in d.baselines ==> n in tpl.names)
    && (forall n :: n in tpl.names && n in learned ==> n in d.baselines && d.baselines[n] == learned[n])
    && (forall n :: n in tpl.names && n !in learned ==>
          && (n in d.baselines <==> n in tpl.classBaselines)
          && (n in d.baselines ==> d.baselines[n] == tpl.classBaselines[n]))
    && (d.fromAsset <==> exists n :: n in tpl.names && n in learned)
  }

  lemma FreshStarts(tpl: Template, learned: HstDetector.Baselines)
    ensures StartsWith(FreshDetectors(tpl, learned), tpl, learned)
  {
  }

  /**
    Replacing a template takes effect if and only if it is valid and stored, and
    otherwise changes nothing. It rebuilds the assets of its class and no others. A rebuilt
    asset keeps its identity, its runtime, its replay guard, its open alert, its
    pending retry and its episode, the baselines it learned as far as the new
    template knows the features, and the closest offset to the one it learned that
    the new clamp allows; its windows and detectors start empty.
   */
  lemma TemplateKeepsLearning(f: Faults, w: World, t: Template, id: string)
    requires id in w.assets
    ensures var (w', ok) := PutTemplate(f, w, t);
            && (ok <==> t.Valid() && !f.store(w.env.calls))
            && (!ok ==> w' == w.(env := if t.Valid() then Called(w.env) else w.env))
    ensures t.Valid() && !f.store(w.env.calls) ==>
            var w' := PutTemplate(f, w, t).0;
            && w'.assets.Keys == w.assets.Keys
            && w'.templates == w.templates[t.class_ := t] && w'.env.templates == w.env.templates[t.class_ := t]
            && var a, a' := w.assets[id], w'.assets[id];
               if a.class_ != t.class_ then a' == a
               else
                 && a'.id == a.id && a'.site == a.site && a'.class_ == a.class_ && a'.tpl == t && a'.age == a.age
                 && a'.lastTS == a.lastTS && a'.evals == a.evals && a'.lastEval == ZERO_TIME
                 && a'.openAlert == a.openAlert && a'.pendingTop == a.pendingTop && a'.retry == a.retry
                 && a'.samples == Extractor.EmptySamples(t.specs)
                 && StartsWith(a'.detectors, t, Learned(a.detectors))
                 && a'.policy == a.policy.(p := t.alerting, offset := a'.policy.offset,
                                           limiter := FreshLimiter(t.alerting))
                 && Brought(t.alerting, a.policy.offset, a'.policy.offset)
  {
    hide Template.Valid, FreshDetectors, StartsWith, Brought, FreshLimiter;
    var a := w.assets[id];
    FreshStarts(t, Learned(a.detectors));
    if t.Valid() {
      ValidClamp(t);
      ClampBrings(t.alerting, a.policy.offset);
      RebuiltPolicy(a.policy, t.alerting);
    }
  }

  lemma ValidClamp(t: Template)
    requires t.Valid()
    ensures t.alerting.adaptation.maxOffset >= 0.0
  {
  }

  lemma RebuiltPolicy(s: PolicyState, p: Params)
    requires p.adaptation.maxOffset >= 0.0
    ensures SetOffset(SetParams(s, p), s.offset)
            == s.(p := p, offset := ClampOffset(p, s.offset), limiter := FreshLimiter(p))
  {
  }

  /**
    A restart brings back exactly the assets that have a snapshot and a template:
    a stored template if there is one, the built-in one otherwise. Each comes back
    with the site, the runtime, the learned baselines and the offset of its snapshot
    (as far as the template allows), and with no episode, no alert, no replay guard
    and no retry.
   */
  lemma RestartBringsBack(cfg: Config, w: World, id: string)
    requires ConfigOk(cfg) && WorldShape(w)
    ensures var w' := Restarted(cfg, w);
            && (forall c :: c in w'.templates <==> c in cfg.defaults || c in w.env.templates)
            && (forall c :: c in w.env.templates ==> w'.templates[c] == w.env.templates[c])
            && (forall c :: c in cfg.defaults && c !in w.env.templates ==> w'.templates[c] == cfg.defaults[c])
            && w'.env == w.env.(sites := map[], templates := w'.templates)
            && (id in w'.assets <==> id in w.env.snapshots && w.env.snapshots[id].class_ in w'.templates)
            && (id in w'.assets ==>
                  var s, a := w.env.snapshots[id], w'.assets[id];
                  && a.id == id && a.site == s.site && a.age == s.age && a.tpl == w'.templates[s.class_]
                  && a.class_ == a.tpl.class_ && a.samples == Extractor.EmptySamples(a.tpl.specs)
                  && a.lastTS == map[] && a.lastEval == ZERO_TIME && a.openAlert == None && a.pendingTop == ""
                  && a.policy == NewPolicy(a.tpl.alerting).(offset := a.policy.offset)
                  && StartsWith(a.detectors, a.tpl, s.baselines)
                  && Brought(a.tpl.alerting, s.offset, a.policy.offset))
  {
    hide Template.Valid, FreshDetectors, StartsWith, Brought, FreshLimiter, WellFormed;
    if id in w.env.snapshots && w.env.snapshots[id].class_ in cfg.defaults + w.env.templates {
      var s := w.env.snapshots[id];
      var tpl := (cfg.defaults + w.env.templates)[s.class_];
      FreshStarts(tpl, s.baselines);
      ClampBrings(tpl.alerting, s.offset) by {
        ValidClamp(tpl);
      }
    }
  }

  /** What a call that persists the asset writes: its site, class, runtime, offset and learned baselines. */
  lemma SavedIs(f: Faults, env: Env, a: Asset)
    ensures var (env', ok) := SaveSnapshot(f, env, a);
            && (ok <==> !f.store(env.calls))
            && env'.snapshots == if ok then env.snapshots[a.id := SnapshotOf(a)] else env.snapshots
  {
  }
}
