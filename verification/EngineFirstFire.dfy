/**
  Runs from a first start in which a store call fails at the first fire: an alert
  that is lost for good, and an alert whose verdict counts twice.
 */
module EngineFirstFire {
  import opened Common
  import opened Policy
  import opened PolicyRuns
  import opened WorkOrders
  import opened Pipeline
  import opened EngineModel
  import opened EngineWorld
  import opened EngineFaults
  import opened EngineLost
  import opened EngineOlderBatch
  import EngineBatches
  import EngineReplay
  import Extractor
  import Fusion
  import HstDensity

  /** The z-score of the first reading, against the class baselines. */
  function FirstZ(cfg: Config, tpl: Template): real {
    var x := cfg.kernels.extract(tpl, map["a" := [0.0]]);
    cfg.kernels.zScore(tpl, x, FreshDetectors(tpl, map[]).baselines).0
  }

  /**
    Among the built-in classes there is one of one signal "a", ready after one
    sample, whose first z-score is an alarm.
   */
  ghost predicate HairTrigger(cfg: Config, tpl: Template) {
    && ConfigOk(cfg) && "c" in cfg.defaults && cfg.defaults["c"] == tpl && UnitKnown(cfg)
    && tpl.runtimeSignal == "" && tpl.warmup == 3
    && tpl.specs == map["a" := Extractor.SignalSpec("u", 2, 1)]
    && tpl.fusion == Fusion.FusionParams(1.0, 0.0, 0.0, 0.5, 0.35)
    && tpl.alerting == Params(0.6, 0.35, 1, 1, 0, 0, 0, Adaptation(0.05, 0.02, 0.2, 0.9))
    && 0.6 <= FirstZ(cfg, tpl) < 1.0
  }

  const FIRST: Metric := Reading("a", 10)

  /** Pump "p" freshly registered, up to its inputs. */
  ghost predicate Fresh(a: Asset, tpl: Template) {
    && WellFormed(a) && a.tpl == tpl && a.class_ == "c" && a.site == "s" && a.openAlert.None? && a.id == "p"
    && a.policy == NewPolicy(tpl.alerting) && a.detectors == FreshDetectors(tpl, map[]) && a.history.judged == []
  }

  lemma FirstRegistered(cfg: Config, tpl: Template)
    requires HairTrigger(cfg, tpl)
    ensures WorldShape(Begin(cfg)) && AssetFor(Begin(cfg), FIRST).Some?
    ensures var a := AssetFor(Begin(cfg), FIRST).value;
            Fresh(a, tpl) && a.samples == map["a" := []] && a.lastTS == map[] && a.lastEval == 0
  {
    hide FreshDetectors;
    AssetForShape(Begin(cfg), FIRST);
    assert Extractor.EmptySamples(tpl.specs) == map["a" := []];
  }

  lemma FirstPushed(cfg: Config, tpl: Template, a: Asset)
    requires HairTrigger(cfg, tpl) && Fresh(a, tpl) && a.samples == map["a" := []] && a.lastTS == map[]
             && a.lastEval == 0
    ensures var (a', pushed) := PushMetric(cfg, a, FIRST);
            pushed.Accepted? && Fresh(a', tpl) && a'.samples == map["a" := [0.0]] && Evaluates(a', 10)
  {
    hide Extractor.PushReading, FreshDetectors, FirstZ;
    PushShape(cfg, a, FIRST);
    Extractor.BurstAllOrNothing(cfg.units, tpl.specs, a.samples, "a", FIRST.Values(), "u");
    ZeroStays(cfg.units);
    assert a.samples["a"] + [0.0] == [0.0];
    assert map["a" := []]["a" := [0.0]] == map["a" := [0.0]];
  }

  /** A first evaluation does not finish the warm-up, so nothing is persisted, and its risk is the z-score. */
  lemma FirstExamined(cfg: Config, f: Faults, s: Progress, tpl: Template)
    requires HairTrigger(cfg, tpl) && Fresh(s.asset, tpl) && s.asset.samples == map["a" := [0.0]]
    ensures var x := Examine(cfg, f, s, 10);
            && x.s.ok && x.s.env == s.env && x.s.tally == s.tally.(evaluated := s.tally.evaluated + 1)
            && x.assessment.risk == FirstZ(cfg, tpl) && x.assessment.confidence <= x.assessment.risk
            && x.s.asset == s.asset.(lastEval := 10, evals := x.s.asset.evals, detectors := x.s.asset.detectors)
  {
    var d := FreshDetectors(tpl, map[]);
    var features := cfg.kernels.extract(tpl, s.asset.samples);
    assert !d.fromAsset && d.learned + [features] == [features];
    assert Learn(tpl, d, features) == (d.(learned := [features]), false);
    FirstAssessed(cfg, tpl, s.asset.id, d.(learned := [features]), s.asset.age);
  }

  lemma FirstAssessed(cfg: Config, tpl: Template, id: string, d: Detectors, age: real)
    requires HairTrigger(cfg, tpl) && d.windows == HstDensity.NO_WINDOWS
    requires d.baselines == FreshDetectors(tpl, map[]).baselines
    ensures var as_ := Assess(cfg.kernels, tpl, id, d, age, cfg.kernels.extract(tpl, map["a" := [0.0]])).1;
            as_.risk == FirstZ(cfg, tpl) && as_.confidence <= as_.risk
  {
    hide HstDensity.Observed, HstDensity.Density, HstDensity.Score, FreshDetectors, Fusion.Confidence;
    var as_ := Assess(cfg.kernels, tpl, id, d, age, cfg.kernels.extract(tpl, map["a" := [0.0]])).1;
    Fusion.DiscountedBand(as_.risk, as_.votes, as_.voters);
  }

  // ----- The alert that is lost -----

  lemma FirstRefused(cfg: Config, f: Faults, s: Progress, as_: Fusion.Assessment, top: string, tpl: Template)
    requires HairTrigger(cfg, tpl) && s.asset.tpl == tpl && s.asset.policy == NewPolicy(tpl.alerting)
    requires s.asset.openAlert.None? && as_.risk >= 0.6 && f.store(s.env.calls)
    ensures var s' := Decide(cfg, f, s, 10, as_, top);
            !s'.ok && s'.env.alerts == s.env.alerts && LostEpisode(s'.asset)
  {
    hide FirstZ;
  }

  /** The share of the first reading up to the policy's turn. */
  lemma FirstShare(cfg: Config, f: Faults, w: World, tpl: Template)
    returns (s: Progress, as_: Fusion.Assessment, top: string)
    requires HairTrigger(cfg, tpl) && w == Begin(cfg)
    ensures WorldShape(w)
    ensures s.ok && s.env == w.env && s.tally == NOTHING.(accepted := 1, evaluated := 1)
    ensures s.asset.tpl == tpl && s.asset.policy == NewPolicy(tpl.alerting) && s.asset.openAlert.None?
    ensures s.asset.id == "p" && s.asset.lastEval == 10 && s.asset.history.judged == []
    ensures as_.risk == FirstZ(cfg, tpl) && as_.confidence <= as_.risk
    ensures var s' := Decide(cfg, f, s, 10, as_, top);
            IngestAsset(cfg, f, w, NOTHING, [FIRST])
            == Ingested(World(w.templates, map["p" := s'.asset], s'.env, w.born), s'.tally, s'.ok)
  {
    hide PushMetric, Examine, Decide, WellFormed, FreshDetectors, AssetFor, Evaluates, FirstZ;
    FirstRegistered(cfg, tpl);
    var a := AssetFor(w, FIRST).value;
    FirstPushed(cfg, tpl, a);
    PushShape(cfg, a, FIRST);
    var s0 := Progress(w.env, PushMetric(cfg, a, FIRST).0, Count(NOTHING, Accepted), true);
    FirstExamined(cfg, f, s0, tpl);
    var x := Examine(cfg, f, s0, 10);
    s, as_, top := x.s, x.assessment, x.top;
    assert [FIRST][1..] == [];
    assert IngestGroup(cfg, f, Progress(w.env, a, NOTHING, true), ZERO_TIME, [FIRST])
        == EvaluateIfReady(cfg, f, s0, 10) == Decide(cfg, f, s, 10, as_, top);
  }

  /** The first reading fires, and the store refuses its alert. */
  lemma FirstIngestFails(cfg: Config, f: Faults, tpl: Template)
    requires HairTrigger(cfg, tpl) && f.store(0)
    ensures ConfigOk(cfg) && WorldShape(Begin(cfg))
    ensures var first := Ingest(cfg, f, Begin(cfg), [FIRST]);
            && !first.ok && first.tally.accepted == 1 && first.tally.evaluated == 1
            && first.world.env.alerts == map[] && "p" in first.world.assets
            && first.world.assets["p"].lastEval == 10 && LostEpisode(first.world.assets["p"])
  {
    hide Ingest, IngestAsset, Begin, Decide, LostEpisode, FirstZ;
    var s, as_, top := FirstShare(cfg, f, Begin(cfg), tpl);
    BeginEmpty(cfg);
    hide HairTrigger;
    RefusedThen(cfg, f, tpl, s, as_, top);
    IngestOne(cfg, f, Begin(cfg), FIRST);
  }

  lemma BeginEmpty(cfg: Config)
    ensures var env := Begin(cfg).env;
            env.alerts == map[] && env.orders == map[] && env.nextId == 0 && env.calls == 0
  {
  }

  /** Delivering it again changes nothing. */
  lemma FirstRetryIsNoop(cfg: Config, f: Faults)
    requires WorldShape(Begin(cfg))
    ensures WorldShape(Ingest(cfg, f, Begin(cfg), [FIRST]).world)
    ensures var w1 := Ingest(cfg, f, Begin(cfg), [FIRST]).world;
            var again := Ingest(cfg, f, w1, [FIRST]);
            && again.ok && again.world == w1
            && again.tally.accepted == 0 && again.tally.evaluated == 0 && again.tally.alerts == 0
  {
    hide Ingest, Begin, AssetsOf, ValidOf, WorldShape;
    OneShare(FIRST);
    EngineBatches.RetryOfInstantIsNoop(cfg, f, Begin(cfg), [FIRST], "p", 10);
  }

  /**
    A run that loses an alert for good: the first reading of an engine fires and
    the store refuses the alert. The ingest fails, with the episode open and
    alerted and no alert behind it; redelivering the batch that failed accepts
    nothing, evaluates nothing, raises nothing and changes nothing. And whatever
    batches and verdicts follow, no alert is ever stored for that instant or an
    earlier one, and none at all until the episode clears.
   */
  lemma LostFireStaysLost(cfg: Config, f: Faults, tpl: Template, ops: seq<Op>)
    requires HairTrigger(cfg, tpl) && f.store(0) && Continues(ops)
    ensures WorldShape(Begin(cfg))
    ensures var first := Ingest(cfg, f, Begin(cfg), [FIRST]);
            && WorldShape(first.world)
            && !first.ok && first.tally.accepted == 1 && first.tally.evaluated == 1
            && first.world.env.alerts == map[] && "p" in first.world.assets && LostEpisode(first.world.assets["p"])
            && (var again := Ingest(cfg, f, first.world, [FIRST]);
                && again.ok && again.world == first.world
                && again.tally.accepted == 0 && again.tally.evaluated == 0 && again.tally.alerts == 0)
            && var w' := Run(cfg, f, first.world, ops);
               && "p" in w'.assets
               && (forall x :: x in w'.env.alerts && w'.env.alerts[x].asset == "p" ==> w'.env.alerts[x].eventTime > 10)
               && (NoClear(first.world.assets["p"], w'.assets["p"]) ==>
                     forall x :: x in w'.env.alerts ==> w'.env.alerts[x].asset != "p")
  {
    hide Ingest, Begin, HairTrigger, Run, NoClear, LostEpisode, After, WorldShape, Continues, ConfigOk;
    FirstIngestFails(cfg, f, tpl);
    FirstRetryIsNoop(cfg, f);
    OneIngest(cfg, f, [FIRST]);
    LostStaysLost(cfg, f, [DoIngest([FIRST])], ops, "p");
  }

  lemma RefusedThen(cfg: Config, f: Faults, tpl: Template, s: Progress, as_: Fusion.Assessment, top: string)
    requires HairTrigger(cfg, tpl) && f.store(0) && s.env == Begin(cfg).env && as_.risk == FirstZ(cfg, tpl) && s.ok
    requires s.asset.tpl == tpl && s.asset.policy == NewPolicy(tpl.alerting) && s.asset.openAlert.None?
    ensures var s' := Decide(cfg, f, s, 10, as_, top);
            && !s'.ok && s'.env.alerts == map[] && LostEpisode(s'.asset)
            && s'.tally.accepted == s.tally.accepted && s'.tally.evaluated == s.tally.evaluated
            && s'.asset.lastEval == s.asset.lastEval
  {
    hide Decide, FirstZ;
    FirstRefused(cfg, f, s, as_, top, tpl);
    DecideKeepsInputs(cfg, f, s, 10, as_, top);
    DecideCounts(cfg, f, s, 10, as_, top);
    assert InputsOf(Decide(cfg, f, s, 10, as_, top).asset).lastEval == s.asset.lastEval;
  }

  lemma DecideCounts(cfg: Config, f: Faults, s: Progress, ts: Time, as_: Fusion.Assessment, top: string)
    requires s.ok
    ensures var t := Decide(cfg, f, s, ts, as_, top).tally;
            t.accepted == s.tally.accepted && t.evaluated == s.tally.evaluated
  {
    hide FeedPolicy, React;
    FeedPolicyFrame(s, ts, as_.risk);
    var (s1, o) := FeedPolicy(s, ts, as_.risk);
    EngineReplay.ReactCounts(cfg, f, s1, ts, as_, top, o);
  }

  /** A run of one batch. */
  lemma OneIngest(cfg: Config, f: Faults, batch: seq<Metric>)
    requires ConfigOk(cfg)
    ensures WorldShape(Begin(cfg))
    ensures After(cfg, f, [DoIngest(batch)]) == Ingest(cfg, f, Begin(cfg), batch).world
  {
    hide Ingest, Begin;
    BeginShape(cfg);
    var ops := [DoIngest(batch)];
    assert ops[..0] == [];
    assert Run(cfg, f, Begin(cfg), []) == Begin(cfg);
    assert Run(cfg, f, Begin(cfg), ops) == Perform(cfg, f, Begin(cfg), ops[0]);
  }

  // ----- The alert that is judged twice -----

  /**
    The alert is saved, and confidence is too low for a work order: two calls of
    the store, whatever the second says.
   */
  lemma FirstSaved(cfg: Config, f: Faults, s: Progress, as_: Fusion.Assessment, top: string, tpl: Template)
    requires HairTrigger(cfg, tpl) && s.asset.tpl == tpl && s.asset.policy == NewPolicy(tpl.alerting)
    requires s.env == Begin(cfg).env && s.asset.id == "p" && as_.risk == FirstZ(cfg, tpl) && as_.confidence < 1.0
    requires tpl.orders.confidenceThreshold == 1.0 && !f.store(0)
    ensures var s' := Decide(cfg, f, s, 10, as_, top);
            && s'.ok && s'.asset.id == "p" && s'.asset.policy.p == tpl.alerting && s'.asset.policy.offset == 0.0
            && s'.env.calls == 2 && s'.env.orders == map[] && s'.env.alerts.Keys == {0}
            && s'.env.alerts[0].id == 0 && s'.env.alerts[0].asset == "p" && s'.env.alerts[0].status.AlertOpen?
            && s'.env.alerts[0].workOrder.None?
            && s'.asset.history.judged == s.asset.history.judged
  {
    hide FirstZ, Policy.Evaluate, FeedPolicy, RaiseOrder;
    BeginEmpty(cfg);
    FirstFires(cfg, s, as_.risk, tpl);
    FeedPolicyFrame(s, 10, as_.risk);
    var s1 := FeedPolicy(s, 10, as_.risk).0;
    var alert := NewAlert(s1.env, s1.asset, 10, as_, top);
    var env1 := SaveAlert(f, s1.env.(nextId := 1), alert).0;
    var history := s1.asset.history.(raised := s1.asset.history.raised + [0]);
    NoOrder(f, env1, s1.asset.(openAlert := Some(0), history := history), alert, top);
  }

  lemma FirstFires(cfg: Config, s: Progress, risk: real, tpl: Template)
    requires HairTrigger(cfg, tpl) && s.asset.tpl == tpl && s.asset.policy == NewPolicy(tpl.alerting)
    requires risk == FirstZ(cfg, tpl)
    ensures FeedPolicy(s, 10, risk).1.Fire?
    ensures var p := FeedPolicy(s, 10, risk).0.asset.policy; p.p == tpl.alerting && p.offset == 0.0
  {
    hide FirstZ;
  }

  /** Without an open order and with too little confidence, raising an order only asks the store. */
  lemma NoOrder(f: Faults, env: Env, a: Asset, alert: Alert, top: string)
    requires env.orders == map[] && alert.confidence < a.tpl.orders.confidenceThreshold
    ensures RaiseOrder(f, env, a, alert, top).0 == Called(env)
    ensures !RaiseOrder(f, env, a, alert, top).1.Created?
  {
    hide OrderPolicy.ResolveFailureMode;
  }

  /** The first reading raises alert 0. */
  lemma FirstIngestAlerts(cfg: Config, f: Faults, tpl: Template)
    requires HairTrigger(cfg, tpl) && tpl.orders.confidenceThreshold == 1.0 && !f.store(0)
    ensures WorldShape(Begin(cfg))
    ensures var r := Ingest(cfg, f, Begin(cfg), [FIRST]);
            var env := r.world.env;
            && r.ok && env.calls == 2 && env.alerts.Keys == {0}
            && env.alerts[0].id == 0 && env.alerts[0].asset == "p" && env.alerts[0].status.AlertOpen?
            && env.alerts[0].workOrder.None? && "p" in r.world.assets
            && var a := r.world.assets["p"];
               && a.id == "p" && a.history.judged == [] && a.policy.p == tpl.alerting && a.policy.offset == 0.0
  {
    hide Ingest, IngestAsset, Begin, Decide, FirstZ;
    var s, as_, top := FirstShare(cfg, f, Begin(cfg), tpl);
    assert as_.confidence < 1.0;
    hide HairTrigger;
    FirstSaved(cfg, f, s, as_, top, tpl);
    IngestOne(cfg, f, Begin(cfg), FIRST);
  }

  /** The offset after one, and after two dismissals from 0. */
  lemma TwoDismissals(p: Params)
    requires p == Params(0.6, 0.35, 1, 1, 0, 0, 0, Adaptation(0.05, 0.02, 0.2, 0.9))
    ensures OffsetAfter(p, 0.0, [Dismiss]) == 0.05 && OffsetAfter(p, 0.0, [Dismiss, Dismiss]) == 0.1
  {
    assert [Dismiss][..0] == [] && [Dismiss, Dismiss][..1] == [Dismiss];
    assert OffsetAfter(p, 0.0, [Dismiss]) == ClampOffset(p, Wanted(p, OffsetAfter(p, 0.0, []), Dismiss));
  }

  /**
    A run in which one alert moves the threshold twice: the first reading raises
    an alert; it is dismissed, and the snapshot cannot be saved (the fourth call of
    the store); the technician, told of an error, dismisses it again. The offset
    is the fold of two dismissals, 0.1, where one dismissal asks for 0.05.
   */
  lemma OneAlertJudgedTwice(cfg: Config, f: Faults, tpl: Template)
    requires HairTrigger(cfg, tpl) && tpl.orders.confidenceThreshold == 1.0
    requires !f.store(0) && !f.store(2) && f.store(3) && !f.store(4)
    ensures WorldShape(Begin(cfg))
    ensures var w1 := Ingest(cfg, f, Begin(cfg), [FIRST]).world;
            var (w2, reply) := Feedback(f, w1, 0, Dismiss);
            var w3 := Feedback(f, w2, 0, Dismiss).0;
            && reply == StoreError && "p" in w2.assets && "p" in w3.assets
            && w2.assets["p"].policy.offset == 0.05 && w3.assets["p"].policy.offset == 0.1
            && w3.assets["p"].history.judged == [(0, Dismiss), (0, Dismiss)]
  {
    hide Ingest, Begin, Feedback, HairTrigger, Judged;
    FirstIngestAlerts(cfg, f, tpl);
    TriggerParams(cfg, tpl);
    var w1 := Ingest(cfg, f, Begin(cfg), [FIRST]).world;
    VerdictSticksIff(f, w1, 0, Dismiss);
    FailedSnapshotCalls(f, w1, 0, Dismiss);
    FailedSaveMovesTwice(f, w1, 0, Dismiss, Dismiss);
    VerdictSticksIff(f, Feedback(f, w1, 0, Dismiss).0, 0, Dismiss);
    JudgedOnce(w1.assets["p"], 0, Dismiss);
    TwoDismissals(tpl.alerting);
    assert [] + [(0, Dismiss), (0, Dismiss)] == [(0, Dismiss), (0, Dismiss)];
  }

  lemma TriggerParams(cfg: Config, tpl: Template)
    requires HairTrigger(cfg, tpl)
    ensures tpl.alerting == Params(0.6, 0.35, 1, 1, 0, 0, 0, Adaptation(0.05, 0.02, 0.2, 0.9))
  {
  }

  lemma JudgedOnce(a: Asset, id: Id, v: Verdict)
    ensures Judged(a, id, v).policy.offset == OffsetAfter(a.policy.p, a.policy.offset, [v])
  {
    assert [v][..0] == [];
    assert OffsetAfter(a.policy.p, a.policy.offset, []) == a.policy.offset;
  }

  /** A verdict whose snapshot cannot be saved makes two calls. */
  lemma FailedSnapshotCalls(f: Faults, w: World, id: Id, v: Verdict)
    requires Reaches(f, w, id) && f.store(w.env.calls + 1)
    ensures Feedback(f, w, id, v).0.env.calls == w.env.calls + 2
  {
    hide Judged;
  }
}
