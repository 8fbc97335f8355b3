/**
  Learned baselines survive a restart as well, from the warm-up snapshot on, or
  from any later one: when the snapshot of an asset holds what it has learned.
 */
module EngineBaselines {
  import opened Common
  import opened Policy
  import opened Pipeline
  import opened WorkOrders
  import opened EngineModel
  import opened EngineEffects
  import opened EngineWorld
  import opened EngineRestart
  import Extractor

  /** The asset's snapshot holds the baselines it has learned; without a snapshot it has learned none. */
  ghost predicate Saved(env: Env, a: Asset) {
    if a.id in env.snapshots then env.snapshots[a.id].baselines == Learned(a.detectors) else !a.detectors.fromAsset
  }

  lemma LearnedSome(tpl: Template, d: Detectors)
    requires Merged(tpl, d) && d.fromAsset
    ensures Learned(d) != map[]
  {
    var n :| n in tpl.names && n in Learned(d);
  }

  /**
    An evaluation leaves the baselines saved if and only if it does not fail to
    persist baselines it has just learned.
   */
  lemma ExamineSavesIff(cfg: Config, f: Faults, s: Progress, ts: Time)
    requires s.asset.tpl.Valid() && Merged(s.asset.tpl, s.asset.detectors) && Saved(s.env, s.asset)
    ensures var s' := Examine(cfg, f, s, ts).s;
            Saved(s'.env, s'.asset) <==> s'.ok || !s'.asset.detectors.fromAsset
  {
    hide Examine, Merged, Fits, Learned;
    ExamineFrame(cfg, f, s, ts);
    ExamineSnapshots(cfg, f, s, ts);
    ExamineKeepsMerged(cfg, f, s, ts);
    var a' := Examine(cfg, f, s, ts).s.asset;
    NoneLearned(s.asset.detectors);
    NoneLearned(a'.detectors);
    if a'.detectors.fromAsset {
      LearnedSome(s.asset.tpl, a'.detectors);
    }
  }

  lemma NoneLearned(d: Detectors)
    ensures !d.fromAsset ==> Learned(d) == map[]
  {
  }

  lemma EvaluateKeepsSaved(cfg: Config, f: Faults, s: Progress, ts: Time)
    requires WellFormed(s.asset) && Merged(s.asset.tpl, s.asset.detectors) && Saved(s.env, s.asset)
    ensures var s' := EvaluateIfReady(cfg, f, s, ts); s'.ok ==> Saved(s'.env, s'.asset)
  {
    hide Examine, FeedPolicy, React, Evaluates, Merged;
    if Evaluates(s.asset, ts) {
      ExamineSavesIff(cfg, f, s, ts);
      ExamineFrame(cfg, f, s, ts);
      var x := Examine(cfg, f, s, ts);
      if x.s.ok {
        FeedPolicyFrame(x.s, ts, x.assessment.risk);
        var (s1, outcome) := FeedPolicy(x.s, ts, x.assessment.risk);
        ReactKeepsSnapshots(cfg, f, s1, ts, x.assessment, x.top, outcome);
        ReactKeepsInputs(cfg, f, s1, ts, x.assessment, x.top, outcome);
        assert InputsOf(React(cfg, f, s1, ts, x.assessment, x.top, outcome).asset).id == InputsOf(s1.asset).id;
      }
    }
  }

  lemma PushKeepsSaved(cfg: Config, env: Env, a: Asset, m: Metric)
    requires WellFormed(a) && Saved(env, a)
    ensures Saved(env, PushMetric(cfg, a, m).0)
  {
    hide Extractor.PushReading;
  }

  lemma PersistedMerged(env: Env, a: Asset)
    requires Persisted(env, a)
    ensures Merged(a.tpl, a.detectors)
  {
    hide Merged;
  }

  lemma {:induction false} GroupKeepsSaved(cfg: Config, f: Faults, s: Progress, pending: Time, ms: seq<Metric>)
    requires WellFormed(s.asset) && Persisted(s.env, s.asset) && Saved(s.env, s.asset)
    ensures var s' := IngestGroup(cfg, f, s, pending, ms); s.ok && s'.ok ==> Saved(s'.env, s'.asset)
    decreases |ms|
  {
    hide EvaluateIfReady, PushMetric, WellFormed, Persisted, Saved, OnlyOne;
    PersistedMerged(s.env, s.asset);
    EvaluateShape(cfg, f, s, pending);
    EvaluateKeepsPersisted(cfg, f, s, pending);
    EvaluateKeepsSaved(cfg, f, s, pending);
    if ms != [] {
      var m := ms[0];
      var s1 := if pending != ZERO_TIME && m.ts > pending then EvaluateIfReady(cfg, f, s, pending) else s;
      if s1.ok {
        PushShape(cfg, s1.asset, m);
        PushKeepsPersisted(cfg, s1.env, s1.asset, m);
        PushKeepsSaved(cfg, s1.env, s1.asset, m);
        var (a, pushed) := PushMetric(cfg, s1.asset, m);
        GroupKeepsSaved(cfg, f, s1.(asset := a, tally := Count(s1.tally, pushed)), m.ts, ms[1..]);
      }
    }
  }

  // ----- One asset through whole operations -----

  /** If the asset is known, its baselines are saved. */
  ghost predicate SavedFor(w: World, id: string) {
    id in w.assets ==> Saved(w.env, w.assets[id])
  }

  lemma BuiltIsSaved(env: Env, id: string, site: string, tpl: Template)
    requires id !in env.snapshots
    ensures var a := BuiltAsset(id, site, tpl, map[], 0.0, 0.0, env.nextId); a.id == id && Saved(env, a)
  {
  }

  lemma AssetForSaved(cfg: Config, w: World, m: Metric)
    requires WorldShape(w) && AllPersisted(cfg, w) && SavedFor(w, m.asset) && AssetFor(w, m).Some?
    ensures Saved(w.env, AssetFor(w, m).value)
  {
    hide BuiltAsset, Persisted;
    if m.asset !in w.assets {
      BuiltIsSaved(w.env, m.asset, m.site, w.templates[m.class_]);
    }
  }

  lemma OthersSaved(env: Env, env': Env, other: string, a: Asset)
    requires Saved(env, a) && OnlyOne(env, env', other) && a.id != other
    ensures Saved(env', a)
  {
  }

  lemma ShareKeepsSaved(cfg: Config, f: Faults, w: World, tally: Tally, ms: seq<Metric>, id: string)
    requires WorldShape(w) && ConfigOk(cfg) && AllPersisted(cfg, w) && SavedFor(w, id) && ms != []
    requires IngestAsset(cfg, f, w, tally, ms).ok
    ensures SavedFor(IngestAsset(cfg, f, w, tally, ms).world, id)
  {
    hide IngestGroup, WellFormed, AssetFor, Persisted, Saved, OnlyOne;
    if AssetFor(w, ms[0]).Some? {
      AssetForShape(w, ms[0]);
      AssetForPersisted(cfg, w, ms[0]);
      var s := Progress(w.env, AssetFor(w, ms[0]).value, tally, true);
      GroupKeepsShape(cfg, f, s, ZERO_TIME, ms);
      if s.asset.id == id {
        AssetForSaved(cfg, w, ms[0]);
        GroupKeepsSaved(cfg, f, s, ZERO_TIME, ms);
      } else if id in w.assets {
        GroupKeepsPersisted(cfg, f, s, ZERO_TIME, ms);
        OthersSaved(w.env, IngestGroup(cfg, f, s, ZERO_TIME, ms).env, s.asset.id, w.assets[id]);
      }
    }
  }

  lemma {:induction false} SharesKeepSaved(
      cfg: Config, f: Faults, w: World, tally: Tally, ids: seq<string>, ms: seq<Metric>, id: string)
    requires WorldShape(w) && ConfigOk(cfg) && AllPersisted(cfg, w) && SavedFor(w, id)
    requires forall x :: x in ids ==> GroupOf(ms, x) != []
    requires IngestAssets(cfg, f, w, tally, ids, ms).ok
    ensures SavedFor(IngestAssets(cfg, f, w, tally, ids, ms).world, id)
    decreases |ids|
  {
    hide WorldShape, IngestAsset, SortByTime, AllPersisted, SavedFor;
    if ids != [] {
      var group := SortByTime(GroupOf(ms, ids[0]));
      IngestAssetShape(cfg, f, w, tally, group);
      ShareKeepsPersisted(cfg, f, w, tally, group);
      ShareKeepsSaved(cfg, f, w, tally, group, id);
      var r := IngestAsset(cfg, f, w, tally, group);
      SharesKeepSaved(cfg, f, r.world, r.tally, ids[1..], ms, id);
    }
  }

  lemma IngestKeepsSaved(cfg: Config, f: Faults, w: World, batch: seq<Metric>, id: string)
    requires WorldShape(w) && ConfigOk(cfg) && AllPersisted(cfg, w) && SavedFor(w, id) && Ingest(cfg, f, w, batch).ok
    ensures SavedFor(Ingest(cfg, f, w, batch).world, id)
  {
    hide WorldShape, AllPersisted, IngestAssets, ValidOf, AssetsOf, GroupOf, SavedFor;
    var ms := ValidOf(batch);
    ValidLength(batch);
    AssetsHaveGroups(ms);
    SharesKeepSaved(cfg, f, w, NOTHING.(rejected := |batch| - |ms|), AssetsOf(ms), ms, id);
  }

  /** A saved verdict keeps the baselines of every asset saved, and saves those of the asset it judges. */
  lemma FeedbackSaves(cfg: Config, f: Faults, w: World, alert: Id, v: Verdict, id: string)
    requires WorldShape(w) && AllPersisted(cfg, w) && !f.store(w.env.calls + 1)
    requires SavedFor(w, id) || (Judges(f, w, alert) && w.env.alerts[alert].asset == id)
    ensures SavedFor(Feedback(f, w, alert, v).0, id)
  {
    hide JudgeAlert, WellFormed, AllPersisted, Saved;
    var w1 := w.(env := Called(w.env));
    SameSaved(w, w1, id);
    if Judges(f, w, alert) {
      var judged := w.env.alerts[alert];
      if judged.asset in w.assets {
        JudgeSaves(f, w1, judged, v, id);
      } else {
        JudgeUnknown(f, w1, judged, v);
        SameSaved(w1, JudgeAlert(f, w1, judged, v).0, id);
      }
    }
  }

  lemma SameSaved(w: World, w': World, id: string)
    requires w'.assets == w.assets && w'.env.snapshots == w.env.snapshots
    ensures SavedFor(w, id) ==> SavedFor(w', id)
  {
  }

  lemma JudgeSaves(f: Faults, w: World, alert: Alert, v: Verdict, id: string)
    requires alert.asset in w.assets && w.assets[alert.asset].id == alert.asset && !f.store(w.env.calls)
    requires id in w.assets ==> w.assets[id].id == id
    requires SavedFor(w, id) || alert.asset == id
    ensures SavedFor(JudgeAlert(f, w, alert, v).0, id)
  {
    hide JudgeAlert, Judged, Learned;
    JudgeEffect(f, w, alert, v);
    JudgeSnapshots(f, w, alert, v);
    JudgedLearned(f, w.env, w.assets[alert.asset], alert.id, v);
  }

  lemma JudgedLearned(f: Faults, env: Env, a: Asset, id: Id, v: Verdict)
    requires !f.store(env.calls)
    ensures var b := Judged(a, id, v);
            && b.id == a.id && b.detectors == a.detectors
            && SaveSnapshot(f, env, b).0.snapshots == env.snapshots[a.id := SnapshotOf(b)]
  {
  }

  /** An asset comes back with the baselines it had. */
  lemma RestoredDetectors(cfg: Config, w: World, id: string)
    requires WorldShape(w) && ConfigOk(cfg) && AllPersisted(cfg, w) && id in w.env.snapshots && SavedFor(w, id)
    ensures w.env.snapshots[id].class_ in cfg.defaults && id in w.assets
    ensures var d := w.assets[id].detectors;
            var d' := Restored(id, w.env.snapshots[id], cfg.defaults, w.env.nextId).detectors;
            d'.baselines == d.baselines && d'.fromAsset == d.fromAsset
  {
    hide MergeBaselines, Template.Valid;
    assert w.assets[id].id == id && Persisted(w.env, w.assets[id]);
  }

  lemma RestartKeepsSaved(cfg: Config, w: World, id: string)
    requires WorldShape(w) && ConfigOk(cfg) && AllPersisted(cfg, w) && SavedFor(w, id)
    ensures SavedFor(Restarted(cfg, w), id)
    ensures var w' := Restarted(cfg, w);
            id in w'.assets ==>
              && id in w.assets && w'.assets[id].detectors.baselines == w.assets[id].detectors.baselines
              && w'.assets[id].detectors.fromAsset == w.assets[id].detectors.fromAsset
    ensures id in w.assets && id !in Restarted(cfg, w).assets ==>
              id !in w.env.snapshots && !w.assets[id].detectors.fromAsset
  {
    hide Restored, Persisted, WellFormed;
    RestartShape(cfg, w);
    assert cfg.defaults + w.env.templates == cfg.defaults;
    RestartKeepsPersisted(cfg, w);
    if id in w.env.snapshots {
      RestoredDetectors(cfg, w, id);
      assert Restarted(cfg, w).assets[id].id == id;
    }
  }

  lemma PerformKeepsSaved(cfg: Config, f: Faults, w: World, op: Op, id: string)
    requires WorldShape(w) && ConfigOk(cfg) && AllPersisted(cfg, w) && SavedFor(w, id)
    requires !op.DoTemplate? && (op.DoFeedback? ==> !f.store(w.env.calls + 1))
    requires op.DoIngest? ==> Ingest(cfg, f, w, op.batch).ok
    ensures SavedFor(Perform(cfg, f, w, op), id)
  {
    hide WorldShape, ConfigOk, AllPersisted, SavedFor, Feedback, Ingest, Restarted;
    match op
    case DoIngest(batch) => IngestKeepsSaved(cfg, f, w, batch, id);
    case DoFeedback(alert, v) => FeedbackSaves(cfg, f, w, alert, v, id);
    case DoRestart => RestartKeepsSaved(cfg, w, id);
  }

  // ----- Runs -----

  /** No template is replaced, and every verdict's snapshot is saved. */
  ghost predicate VerdictsSaved(cfg: Config, f: Faults, ops: seq<Op>)
    requires ConfigOk(cfg)
  {
    BeginPersisted(cfg);
    SavesOffsets(cfg, f, Begin(cfg), ops)
  }

  /**
    From operation `n` on every batch went through; `n` is the start, or follows
    a verdict on an alert of the asset.
   */
  ghost predicate BaselinesSaved(cfg: Config, f: Faults, ops: seq<Op>, n: nat, id: string)
    requires ConfigOk(cfg) && n <= |ops|
  {
    && (forall k :: n <= k < |ops| && ops[k].DoIngest? ==> Ingest(cfg, f, After(cfg, f, ops[..k]), ops[k].batch).ok)
    && (n == 0
        || (&& ops[n - 1].DoFeedback?
            && var w := After(cfg, f, ops[..n - 1]);
               Judges(f, w, ops[n - 1].alert) && w.env.alerts[ops[n - 1].alert].asset == id))
  }

  lemma AfterStep(cfg: Config, f: Faults, ops: seq<Op>, k: nat)
    requires ConfigOk(cfg) && k < |ops|
    ensures After(cfg, f, ops[..k + 1]) == Perform(cfg, f, After(cfg, f, ops[..k]), ops[k])
  {
    hide Perform, Begin;
    assert ops[..k + 1][..k] == ops[..k] && ops[..k + 1][k] == ops[k];
  }

  lemma PrefixFits(cfg: Config, f: Faults, ops: seq<Op>, k: nat)
    requires ConfigOk(cfg) && k <= |ops| && VerdictsSaved(cfg, f, ops)
    ensures AllPersisted(cfg, After(cfg, f, ops[..k]))
    ensures k < |ops| ==> !ops[k].DoTemplate?
    ensures k < |ops| && ops[k].DoFeedback? ==> !f.store(After(cfg, f, ops[..k]).env.calls + 1)
  {
    hide Run, Begin, AllPersisted;
    BeginPersisted(cfg);
    forall i | 0 <= i < k
      ensures ops[..k][..i] == ops[..i]
    {
    }
    RunKeepsPersisted(cfg, f, Begin(cfg), ops[..k]);
  }

  lemma {:induction false} RunKeepsSaved(cfg: Config, f: Faults, ops: seq<Op>, n: nat, k: nat, id: string)
    requires ConfigOk(cfg) && n <= k <= |ops| && VerdictsSaved(cfg, f, ops) && BaselinesSaved(cfg, f, ops, n, id)
    ensures SavedFor(After(cfg, f, ops[..k]), id)
    decreases k
  {
    hide After, Perform, WorldShape, AllPersisted, SavedFor, VerdictsSaved, Ingest, Feedback;
    if k > n {
      RunKeepsSaved(cfg, f, ops, n, k - 1, id);
      PrefixFits(cfg, f, ops, k - 1);
      AfterStep(cfg, f, ops, k - 1);
      PerformKeepsSaved(cfg, f, After(cfg, f, ops[..k - 1]), ops[k - 1], id);
    } else if n == 0 {
      NothingKnown(cfg, f, ops, id);
    } else {
      PrefixFits(cfg, f, ops, n - 1);
      AfterStep(cfg, f, ops, n - 1);
      var w := After(cfg, f, ops[..n - 1]);
      FeedbackSaves(cfg, f, w, ops[n - 1].alert, ops[n - 1].verdict, id);
      PerformFeedback(cfg, f, w, ops[n - 1]);
    }
  }

  lemma PerformFeedback(cfg: Config, f: Faults, w: World, op: Op)
    requires WorldShape(w) && op.DoFeedback?
    ensures Perform(cfg, f, w, op) == Feedback(f, w, op.alert, op.verdict).0
  {
    hide Feedback;
  }

  lemma NothingKnown(cfg: Config, f: Faults, ops: seq<Op>, id: string)
    requires ConfigOk(cfg)
    ensures SavedFor(After(cfg, f, ops[..0]), id)
  {
    assert ops[..0] == [];
  }

  /**
    Learned baselines survive a restart: after any run in which no template is
    replaced and every verdict's snapshot is saved, if every batch went through
    since the start, or since some verdict on an alert of the asset, the next metric
    of the asset finds it, on a new engine over the same store, with exactly the
    baselines it had learned.
   */
  lemma BaselinesSurviveRestart(cfg: Config, f: Faults, ops: seq<Op>, n: nat, m: Metric)
    requires ConfigOk(cfg) && n <= |ops| && VerdictsSaved(cfg, f, ops) && BaselinesSaved(cfg, f, ops, n, m.asset)
    requires m.asset in After(cfg, f, ops).assets
    ensures var w := After(cfg, f, ops);
            var d, found := w.assets[m.asset].detectors, AssetFor(Restarted(cfg, w), m);
            && (found.Some? ==>
                  found.value.detectors.fromAsset == d.fromAsset && Learned(found.value.detectors) == Learned(d))
            && (found.None? ==> !d.fromAsset)
  {
    hide After, VerdictsSaved, BaselinesSaved;
    assert ops[..|ops|] == ops;
    RunKeepsSaved(cfg, f, ops, n, |ops|, m.asset);
    PrefixFits(cfg, f, ops, |ops|);
    FoundWithBaselines(cfg, After(cfg, f, ops), m);
  }

  lemma FoundWithBaselines(cfg: Config, w: World, m: Metric)
    requires WorldShape(w) && ConfigOk(cfg) && AllPersisted(cfg, w) && m.asset in w.assets && SavedFor(w, m.asset)
    ensures var d, found := w.assets[m.asset].detectors, AssetFor(Restarted(cfg, w), m);
            && (found.Some? ==>
                  found.value.detectors.fromAsset == d.fromAsset && Learned(found.value.detectors) == Learned(d))
            && (found.None? ==> !d.fromAsset)
  {
    hide Restarted, AllPersisted, SavedFor, WorldShape, AssetFor, Learned;
    RestartShape(cfg, w);
    RestartKeepsSaved(cfg, w, m.asset);
    var w' := Restarted(cfg, w);
    NoneLearned(w.assets[m.asset].detectors);
    if m.asset in w'.assets {
      KnownDetectors(w', m);
      SameLearned(AssetFor(w', m).value.detectors, w.assets[m.asset].detectors);
    } else if AssetFor(w', m).Some? {
      NewIsUnlearned(w', m);
    }
  }

  lemma KnownDetectors(w: World, m: Metric)
    requires m.asset in w.assets
    ensures AssetFor(w, m).Some? && AssetFor(w, m).value.detectors == w.assets[m.asset].detectors
  {
  }

  lemma SameLearned(d: Detectors, d': Detectors)
    requires d.fromAsset == d'.fromAsset && d.baselines == d'.baselines
    ensures Learned(d) == Learned(d')
  {
  }

  lemma NewIsUnlearned(w: World, m: Metric)
    requires m.asset !in w.assets && AssetFor(w, m).Some?
    ensures !AssetFor(w, m).value.detectors.fromAsset && Learned(AssetFor(w, m).value.detectors) == map[]
  {
  }
}
