/**
  A concrete redelivery that is not a no-op: a batch older than the last one
  can call for another evaluation although all of it is duplicate.
 */
module EngineOlderBatch {
  import opened Common
  import opened EngineModel
  import opened EngineWorld
  import opened EngineReplay
  import Extractor
  import Pipeline
  import Policy
  import WorkOrders

  /** A reading of pump "p" of class "c". */
  function Reading(signal: string, ts: Time): Metric {
    Metric("p", "s", "c", signal, "u", 0.0, [], ts)
  }

  /** A world that knows one template and nothing else. */
  function OneClass(tpl: Pipeline.Template): World {
    World(map["c" := tpl], map[], Env(map[], map[], map[], map[], map["c" := tpl], WorkOrders.EMPTY_CMMS, 0, 0), 0)
  }

  /** A template of two signals, each ready after one sample. */
  ghost predicate TwoSignals(tpl: Pipeline.Template) {
    && tpl.Valid() && tpl.class_ == "c" && tpl.runtimeSignal == ""
    && tpl.specs == map["a" := Extractor.SignalSpec("u", 2, 1), "b" := Extractor.SignalSpec("u", 2, 1)]
  }

  /** A batch of one valid metric is one share. */
  lemma OneShare(m: Metric)
    requires Validated(m) == Some(m)
    ensures ValidOf([m]) == [m] && AssetsOf([m]) == [m.asset] && GroupOf([m], m.asset) == [m] && SortByTime([m]) == [m]
  {
    hide Validated;
    assert [m][..0] == [];
  }

  lemma IngestOne(cfg: Config, f: Faults, w: World, m: Metric)
    requires WorldShape(w) && Validated(m) == Some(m)
    ensures Ingest(cfg, f, w, [m]) == IngestAsset(cfg, f, w, NOTHING, [m])
  {
    hide IngestAsset, ValidOf, AssetsOf, GroupOf, SortByTime, WorldShape, Validated;
    var ms := [m];
    OneShare(m);
    AssetsHaveGroups(ms);
    IngestAssetShape(cfg, f, w, NOTHING, ms);
    assert [m.asset][1..] == [];
    assert NOTHING.(rejected := |ms| - |ms|) == NOTHING;
    assert IngestAssets(cfg, f, w, NOTHING, [m.asset], ms) == IngestAsset(cfg, f, w, NOTHING, ms);
  }

  /** A single metric for an asset: push, then an evaluation opportunity at its time. */
  lemma OneMetric(cfg: Config, f: Faults, s: Progress, m: Metric)
    requires WellFormed(s.asset) && s.ok && m.ts != ZERO_TIME
    ensures WellFormed(PushMetric(cfg, s.asset, m).0)
    ensures var (a, pushed) := PushMetric(cfg, s.asset, m);
            var s' := IngestGroup(cfg, f, s, ZERO_TIME, [m]);
            && InputsOf(s'.asset) == (if Evaluates(a, m.ts) then InputsOf(a).(lastEval := m.ts) else InputsOf(a))
            && s'.tally == Count(s.tally, pushed).(
                 evaluated := s'.tally.evaluated, alerts := s'.tally.alerts, workOrders := s'.tally.workOrders)
            && s'.tally.evaluated == s.tally.evaluated + if Evaluates(a, m.ts) then 1 else 0
  {
    hide PushMetric, EvaluateIfReady, WellFormed, Evaluates;
    PushShape(cfg, s.asset, m);
    var (a, pushed) := PushMetric(cfg, s.asset, m);
    var s1 := s.(asset := a, tally := Count(s.tally, pushed));
    assert [m][1..] == [];
    assert IngestGroup(cfg, f, s, ZERO_TIME, [m]) == IngestGroup(cfg, f, s1, m.ts, []);
    EvaluateKeepsInputs(cfg, f, s1, m.ts);
    EvaluateCounts(cfg, f, s1, m.ts);
  }

  /** Where pump "p" stands after a share of one reading. */
  lemma ShareOfOne(cfg: Config, f: Faults, w: World, m: Metric)
    requires WorldShape(w) && m.ts != ZERO_TIME && AssetFor(w, m).Some?
    ensures WellFormed(AssetFor(w, m).value)
    ensures WellFormed(PushMetric(cfg, AssetFor(w, m).value, m).0)
    ensures var (a, pushed) := PushMetric(cfg, AssetFor(w, m).value, m);
            var r := IngestAsset(cfg, f, w, NOTHING, [m]);
            && m.asset in r.world.assets && r.world.templates == w.templates && WorldShape(r.world)
            && InputsOf(r.world.assets[m.asset])
               == (if Evaluates(a, m.ts) then InputsOf(a).(lastEval := m.ts) else InputsOf(a))
            && r.tally.evaluated == (if Evaluates(a, m.ts) then 1 else 0)
            && r.tally.accepted == (if pushed.Accepted? then 1 else 0)
            && r.tally.duplicates == (if pushed.Duplicate? then 1 else 0)
  {
    hide PushMetric, IngestGroup, WellFormed, Evaluates, AssetFor;
    AssetForShape(w, m);
    IngestAssetShape(cfg, f, w, NOTHING, [m]);
    OneMetric(cfg, f, Progress(w.env, AssetFor(w, m).value, NOTHING, true), m);
  }

  /** The asset behind some inputs is found again with the same inputs, once its site is known. */
  lemma FoundAgain(w: World, m: Metric)
    requires WorldShape(w) && m.asset in w.assets && w.assets[m.asset].site != DEFAULT_SITE
    ensures AssetFor(w, m) == Some(w.assets[m.asset])
  {
  }

  /** The unit of the readings is known and usable. */
  predicate UnitKnown(cfg: Config) {
    Extractor.Convertible(cfg.units, "u", "u")
  }

  lemma ZeroStays(units: Extractor.Units)
    requires Extractor.Convertible(units, "u", "u")
    ensures Extractor.ConvertEach(units, [0.0], "u", "u") == [0.0]
  {
    assert 0.0 / units["u"].scale == 0.0;
  }

  /** Where pump "p" stands. */
  ghost predicate Stands(
      a: Asset, tpl: Pipeline.Template, eval: Time, newest: map<string, Time>, samples: Extractor.Samples) {
    && a.tpl == tpl && a.class_ == "c" && a.site == "s"
    && a.lastEval == eval && a.lastTS == newest && a.samples == samples
  }

  /** A new reading of one signal. */
  lemma NewReading(cfg: Config, tpl: Pipeline.Template, a: Asset, signal: string, ts: Time)
    requires WellFormed(a) && TwoSignals(tpl) && UnitKnown(cfg)
             && Stands(a, tpl, a.lastEval, a.lastTS, a.samples)
    requires signal in tpl.specs && a.samples[signal] == [] && signal !in a.lastTS
    ensures var (a', pushed) := PushMetric(cfg, a, Reading(signal, ts));
            && pushed.Accepted?
            && Stands(a', tpl, a.lastEval, a.lastTS[signal := ts], a.samples[signal := [0.0]])
  {
    hide Extractor.PushReading;
    var m := Reading(signal, ts);
    Extractor.BurstAllOrNothing(cfg.units, tpl.specs, a.samples, signal, m.Values(), "u");
    ZeroStays(cfg.units);
    assert a.samples[signal] + [0.0] == [0.0];
  }

  /** Its share of a batch. */
  lemma NewShare(cfg: Config, f: Faults, w: World, tpl: Pipeline.Template, a: Asset, signal: string, ts: Time)
    requires WorldShape(w) && AssetFor(w, Reading(signal, ts)) == Some(a) && ts != ZERO_TIME
    requires WellFormed(a) && TwoSignals(tpl) && UnitKnown(cfg)
             && Stands(a, tpl, a.lastEval, a.lastTS, a.samples)
    requires signal in tpl.specs && a.samples[signal] == [] && signal !in a.lastTS
    ensures var r := IngestAsset(cfg, f, w, NOTHING, [Reading(signal, ts)]);
            var evaluated := (forall s :: s in tpl.specs ==> s == signal || a.samples[s] != []) && ts > a.lastEval;
            && "p" in r.world.assets && WorldShape(r.world)
            && Stands(r.world.assets["p"], tpl, if evaluated then ts else a.lastEval,
                      a.lastTS[signal := ts], a.samples[signal := [0.0]])
  {
    hide PushMetric, IngestAsset, WellFormed, AssetFor;
    var m := Reading(signal, ts);
    ShareOfOne(cfg, f, w, m);
    NewReading(cfg, tpl, a, signal, ts);
    PushShape(cfg, a, m);
    var a' := PushMetric(cfg, a, m).0;
    EvaluatesWhen(tpl, a', ts);
    var i := InputsOf(IngestAsset(cfg, f, w, NOTHING, [m]).world.assets["p"]);
    assert i.tpl == tpl && i.class_ == "c" && i.site == "s" && i.lastTS == a'.lastTS && i.samples == a'.samples;
  }

  /** A batch of it. */
  lemma NewBatch(cfg: Config, f: Faults, w: World, tpl: Pipeline.Template, a: Asset, signal: string, ts: Time)
    requires WorldShape(w) && AssetFor(w, Reading(signal, ts)) == Some(a) && ts != ZERO_TIME && signal in ["a", "b"]
    requires WellFormed(a) && TwoSignals(tpl) && UnitKnown(cfg)
             && Stands(a, tpl, a.lastEval, a.lastTS, a.samples)
    requires signal in tpl.specs && a.samples[signal] == [] && signal !in a.lastTS
    ensures var w' := Ingest(cfg, f, w, [Reading(signal, ts)]).world;
            var evaluated := (forall s :: s in tpl.specs ==> s == signal || a.samples[s] != []) && ts > a.lastEval;
            && "p" in w'.assets && WorldShape(w')
            && Stands(w'.assets["p"], tpl, if evaluated then ts else a.lastEval,
                      a.lastTS[signal := ts], a.samples[signal := [0.0]])
  {
    hide Ingest, IngestAsset, AssetFor, WellFormed, WorldShape, TwoSignals, Stands;
    IngestOne(cfg, f, w, Reading(signal, ts));
    NewShare(cfg, f, w, tpl, a, signal, ts);
  }

  lemma EvaluatesWhen(tpl: Pipeline.Template, a: Asset, ts: Time)
    requires WellFormed(a) && TwoSignals(tpl) && a.tpl == tpl
    ensures Evaluates(a, ts) <==> (forall s :: s in tpl.specs ==> a.samples[s] != []) && ts > a.lastEval
  {
  }

  lemma DuplicateAgain(cfg: Config, a: Asset, m: Metric)
    requires WellFormed(a) && m.class_ == a.class_ && IsDuplicate(a, m)
    ensures PushMetric(cfg, a, m) == (a, Duplicate)
  {
  }

  /** A batch of one duplicate whose time calls for an evaluation. */
  lemma DuplicateBatch(cfg: Config, f: Faults, w: World, a: Asset, m: Metric)
    requires WorldShape(w) && WellFormed(a) && AssetFor(w, m) == Some(a) && Validated(m) == Some(m) && m.ts != ZERO_TIME
    requires m.class_ == a.class_ && IsDuplicate(a, m) && Evaluates(a, m.ts)
    ensures var t := Ingest(cfg, f, w, [m]).tally;
            t.accepted == 0 && t.duplicates == 1 && t.evaluated == 1
  {
    hide Ingest, IngestAsset, AssetFor, PushMetric, Evaluates, WellFormed, WorldShape, Validated;
    IngestOne(cfg, f, w, m);
    ShareOfOne(cfg, f, w, m);
    DuplicateAgain(cfg, a, m);
  }

  lemma Registered(tpl: Pipeline.Template, m: Metric)
    requires TwoSignals(tpl) && m == Reading("a", 10)
    ensures WorldShape(OneClass(tpl)) && AssetFor(OneClass(tpl), m).Some?
    ensures var a := AssetFor(OneClass(tpl), m).value;
            WellFormed(a) && Stands(a, tpl, 0, map[], map["a" := [], "b" := []])
  {
    hide Pipeline.FreshDetectors, Policy.NewPolicy, Policy.SetOffset;
    AssetForShape(OneClass(tpl), m);
    assert Extractor.EmptySamples(tpl.specs) == map["a" := [], "b" := []];
  }

  /** The first batch: a reading of "a" at 10 in a world that has just begun. */
  lemma FirstBatch(cfg: Config, f: Faults, tpl: Pipeline.Template)
    requires TwoSignals(tpl) && UnitKnown(cfg)
    ensures WorldShape(OneClass(tpl))
    ensures var w1 := Ingest(cfg, f, OneClass(tpl), [Reading("a", 10)]).world;
            && WorldShape(w1) && "p" in w1.assets
            && Stands(w1.assets["p"], tpl, 0, map["a" := 10], map["a" := [0.0], "b" := []])
  {
    hide Ingest, AssetFor, WellFormed, OneClass;
    var m, w := Reading("a", 10), OneClass(tpl);
    Registered(tpl, m);
    var a := AssetFor(w, m).value;
    assert "b" in tpl.specs && a.samples["b"] == [];
    NewBatch(cfg, f, w, tpl, a, "a", 10);
    assert map["a" := [], "b" := []]["a" := [0.0]] == map["a" := [0.0], "b" := []];
  }

  /** The second batch: the other signal at 5, which completes the features. */
  lemma SecondBatch(cfg: Config, f: Faults, w: World, tpl: Pipeline.Template)
    requires WorldShape(w) && TwoSignals(tpl) && UnitKnown(cfg) && "p" in w.assets
    requires Stands(w.assets["p"], tpl, 0, map["a" := 10], map["a" := [0.0], "b" := []])
    ensures var w2 := Ingest(cfg, f, w, [Reading("b", 5)]).world;
            && WorldShape(w2) && "p" in w2.assets
            && Stands(w2.assets["p"], tpl, 5, map["a" := 10, "b" := 5], map["a" := [0.0], "b" := [0.0]])
  {
    hide Ingest, AssetFor, WellFormed, Pipeline.Template.Valid;
    FoundAgain(w, Reading("b", 5));
    NewBatch(cfg, f, w, tpl, w.assets["p"], "b", 5);
    BothRead();
  }

  lemma BothRead()
    ensures map["a" := [0.0], "b" := []]["b" := [0.0]] == map["a" := [0.0], "b" := [0.0]]
    ensures map["a" := 10]["b" := 5] == map["a" := 10, "b" := 5]
  {
  }

  /** The first reading once more: a duplicate, and yet later than the last evaluation. */
  lemma FirstAgain(cfg: Config, f: Faults, w: World, tpl: Pipeline.Template)
    requires WorldShape(w) && TwoSignals(tpl) && UnitKnown(cfg) && "p" in w.assets
    requires Stands(w.assets["p"], tpl, 5, map["a" := 10, "b" := 5], map["a" := [0.0], "b" := [0.0]])
    ensures var t := Ingest(cfg, f, w, [Reading("a", 10)]).tally;
            t.accepted == 0 && t.duplicates == 1 && t.evaluated == 1
  {
    hide Ingest, AssetFor, WellFormed, Evaluates, Pipeline.Template.Valid;
    FoundAgain(w, Reading("a", 10));
    EvaluatesWhen(tpl, w.assets["p"], 10);
    DuplicateBatch(cfg, f, w, w.assets["p"], Reading("a", 10));
  }

  /**
    Redelivering a batch that is not the one just ingested can evaluate again:
    a reading at 10, then another signal's at 5, then the first once more.
    Everything in the last batch is a duplicate, and the asset is evaluated.
   */
  lemma OlderBatchEvaluatesAgain(cfg: Config, f: Faults, tpl: Pipeline.Template)
    requires TwoSignals(tpl) && UnitKnown(cfg)
    ensures WorldShape(OneClass(tpl))
    ensures WorldShape(Ingest(cfg, f, OneClass(tpl), [Reading("a", 10)]).world)
    ensures var w1 := Ingest(cfg, f, OneClass(tpl), [Reading("a", 10)]).world;
            && WorldShape(Ingest(cfg, f, w1, [Reading("b", 5)]).world)
            && var t := Ingest(cfg, f, Ingest(cfg, f, w1, [Reading("b", 5)]).world, [Reading("a", 10)]).tally;
               t.accepted == 0 && t.duplicates == 1 && t.evaluated == 1
  {
    hide Ingest, OneClass, TwoSignals, Stands, WorldShape;
    FirstBatch(cfg, f, tpl);
    var w1 := Ingest(cfg, f, OneClass(tpl), [Reading("a", 10)]).world;
    SecondBatch(cfg, f, w1, tpl);
    FirstAgain(cfg, f, Ingest(cfg, f, w1, [Reading("b", 5)]).world, tpl);
  }
}
