/**
  The part of an asset that a template rebuild replaces (extractor, learner,
  baselines, detectors; internal/domain/engine/asset.go and the scoring half of
  evaluate in internal/domain/engine/engine.go) as one object over the objects
  of the other modules.
 */
module DetectorPipe {
  import opened Common
  import opened Extractor
  import opened Learner
  import opened RobustZ
  import opened HstDensity
  import opened HstDetector
  import opened HstShape
  import opened Cusum
  import opened Fusion
  import opened Pipeline

  type Drawing = (Template, string) -> Draws

  function Dims(tpl: Template): nat {
    if tpl.names == [] then 1 else |tpl.names|
  }

  /** The forests of the kernels are the ones the draws grow. */
  ghost predicate Grown(k: Kernels, draws: Drawing) {
    forall tpl: Template, id: string :: GrownFor(k, draws, tpl, id)
  }

  ghost predicate GrownFor(k: Kernels, draws: Drawing, tpl: Template, id: string) {
    && draws(tpl, id).For(Dims(tpl))
    && var q, shapes := tpl.hst.WithDefaults(), k.forest(tpl, id);
       && |shapes| == q.trees
       && forall i :: 0 <= i < |shapes| ==> shapes[i] == TreeShape(draws(tpl, id), i, Dims(tpl), q.depth)
  }

  method ClassPart(class_: Baselines, names: seq<string>) returns (base: Baselines)
    ensures base == map n | n in names && n in class_ :: class_[n]
  {
    base := map[];
    for i := 0 to |names|
      invariant base == map n | n in names[..i] && n in class_ :: class_[n]
    {
      if names[i] in class_ {
        base := base[names[i] := class_[names[i]]];
      }
    }
    assert names[..|names|] == names;
  }

  method Overlay(base: Baselines, learned: Baselines, names: seq<string>) returns (over: Baselines, any: bool)
    ensures over == base + map n | n in names && n in learned :: learned[n]
    ensures any <==> exists n :: n in names && n in learned
  {
    over, any := base, false;
    for i := 0 to |names|
      invariant over == base + map n | n in names[..i] && n in learned :: learned[n]
      invariant any <==> exists n :: n in names[..i] && n in learned
    {
      assert names[..i + 1] == names[..i] + [names[i]];
      if names[i] in learned {
        over := over[names[i] := learned[names[i]]];
        any := true;
      }
    }
    assert names[..|names|] == names;
  }

  /** Learned baselines over class ones, feature by feature. */
  method Merge(class_: Baselines, learned: Baselines, names: seq<string>) returns (base: Baselines, fromAsset: bool)
    ensures (base, fromAsset) == MergeBaselines(class_, learned, names)
  {
    base := ClassPart(class_, names);
    base, fromAsset := Overlay(base, learned, names);
    assert base == map n | n in names && (n in learned || n in class_) ::
      if n in learned then learned[n] else class_[n];
  }

  /** The detector's parameters and forest are the template's. */
  ghost predicate ForTemplate(h: Detector, k: Kernels, tpl: Template, id: string) {
    var q := tpl.hst.WithDefaults();
    && h.scaling == Scaling(tpl.names, tpl.zParams, q.zRange)
    && h.depth == q.depth && h.size == q.windowSize && h.shapes == k.forest(tpl, id)
  }

  method MakeDetector(tpl: Template, id: string, k: Kernels, draws: Drawing, base: Baselines) returns (h: Detector)
    requires Grown(k, draws)
    ensures h.Valid() && fresh(h) && fresh(h.nodes) && fresh(h.point) && ForTemplate(h, k, tpl, id)
    ensures h.windows == NO_WINDOWS && h.base == base
  {
    hide Detector.Valid, TreeShape;
    assert GrownFor(k, draws, tpl, id);
    h := new Detector(tpl.hst, tpl.names, tpl.zParams, base, draws(tpl, id));
    assert h.shapes == k.forest(tpl, id);
  }

  class Pipe {
    const tpl: Template
    const id: string
    const kernels: Kernels
    const extractor: FeatureExtractor
    const learner: BaselineLearner
    const hst: Detector
    const cusum: Tracker
    var baselines: Baselines
    var fromAsset: bool
    ghost const objects: set<object>

    /** The parts fit the template, and share no object. */
    ghost predicate Fitting()
      reads this
    {
      && extractor.specs == tpl.specs
      && learner.need == Needed(tpl.warmup)
      && ForTemplate(hst, kernels, tpl, id)
      && cusum.p == tpl.cusum.WithDefaults()
      && extractor.buffers !! {this, learner, hst, hst.point, cusum} + hst.nodes
      && objects == extractor.buffers + {this, learner, hst, hst.point, cusum} + hst.nodes
    }

    ghost predicate Valid()
      reads this, objects
      ensures Valid() ==> this in objects
    {
      && tpl.Valid() && Fitting()
      && extractor.Valid() && learner.Valid() && hst.Valid() && hst.base == baselines
    }

    ghost function SampleValues(): Samples
      requires Valid()
      reads this, objects
    {
      extractor.Value()
    }

    ghost function DetectorValues(): Detectors
      requires Valid()
      reads this, objects
    {
      Detectors(learner.vectors, baselines, fromAsset, hst.windows, cusum.Value())
    }

    lemma BaselinesAre()
      requires Valid()
      ensures DetectorValues().baselines == baselines && DetectorValues().fromAsset == fromAsset
    {
    }

    lemma SamplesFit()
      requires Valid()
      ensures tpl.Valid() && Fits(tpl.specs, SampleValues())
    {
    }

    lemma OwnsParts()
      requires Valid()
      ensures tpl.Valid() && extractor.buffers + {this, learner, hst, hst.point, cusum} + hst.nodes <= objects
    {
    }

    /** A pipeline as the template describes it, before it has seen anything. */
    constructor (tpl: Template, id: string, kernels: Kernels, draws: Drawing, learned: Baselines)
      requires tpl.Valid() && Grown(kernels, draws)
      ensures Valid() && fresh(objects) && this.tpl == tpl && this.id == id && this.kernels == kernels
      ensures SampleValues() == EmptySamples(tpl.specs) && DetectorValues() == FreshDetectors(tpl, learned)
    {
      hide Template.Valid, MergeBaselines, Detector.Valid, FeatureExtractor.Valid, FeatureExtractor.Value,
        BaselineLearner.Valid;
      hide Grown, ForTemplate, EmptySamples;
      ValidWindows(tpl);
      var e := new FeatureExtractor(tpl.specs);
      var l := new BaselineLearner(tpl.warmup);
      var base, own := Merge(tpl.classBaselines, learned, tpl.names);
      var h := MakeDetector(tpl, id, kernels, draws, base);
      var c := new Tracker(tpl.cusum);
      this.tpl, this.id, this.kernels := tpl, id, kernels;
      extractor, learner, hst, cusum := e, l, h, c;
      baselines, fromAsset := base, own;
      objects := e.buffers + {this, l, h, h.point, c} + h.nodes;
    }

    method IsReady() returns (ready: bool)
      requires Valid()
      ensures ready == Extractor.Ready(tpl.specs, SampleValues())
    {
      hide Template.Valid, FeatureExtractor.Valid, FeatureExtractor.Value, Extractor.Ready;
      ready := extractor.IsReady();
    }

    method ReadSamples() returns (samples: Samples)
      requires Valid()
      ensures samples == SampleValues()
    {
      hide Template.Valid, FeatureExtractor.Valid, FeatureExtractor.Value;
      samples := extractor.Read();
    }

    /** One sample into its window; nothing else moves. */
    method PushSample(units: Units, signal: string, v: real, unit: string) returns (result: PushResult)
      requires Valid()
      modifies extractor.buffers
      ensures Valid() && DetectorValues() == old(DetectorValues())
      ensures (SampleValues(), result) == PushValue(units, tpl.specs, old(SampleValues()), signal, v, unit)
    {
      hide Template.Valid, FeatureExtractor.Valid, FeatureExtractor.Value, BaselineLearner.Valid, Detector.Valid,
        PushValue, ForTemplate;
      result := extractor.Push(units, signal, v, unit);
    }

    /** A whole reading, one value after the other. */
    method Push(units: Units, signal: string, vs: seq<real>, unit: string) returns (result: PushResult)
      requires Valid() && vs != []
      modifies extractor.buffers
      ensures Valid() && DetectorValues() == old(DetectorValues())
      ensures tpl.specs.Keys <= old(SampleValues()).Keys
      ensures (SampleValues(), result) == PushReading(units, tpl.specs, old(SampleValues()), signal, vs, unit)
    {
      hide Template.Valid, FeatureExtractor.Valid, BaselineLearner.Valid, Detector.Valid, PushValue, ForTemplate;
      result := Unknown;
      extractor.CoversSignals();
      for i := 0 to |vs|
        invariant Valid() && DetectorValues() == old(DetectorValues())
        invariant tpl.specs.Keys == SampleValues().Keys == old(SampleValues()).Keys
        invariant i < |vs| ==> PushReading(units, tpl.specs, old(SampleValues()), signal, vs, unit)
                               == PushReading(units, tpl.specs, SampleValues(), signal, vs[i..], unit)
        invariant i == |vs| ==>
                  (SampleValues(), result) == PushReading(units, tpl.specs, old(SampleValues()), signal, vs, unit)
      {
        result := PushSample(units, signal, vs[i], unit);
        assert vs[i..][1..] == vs[i + 1..];
        if !result.Pushed? {
          return;
        }
      }
    }

    /** Warm-up: collects the vector, and once enough are there fits the baselines and starts the detectors over. */
    method Warm(f: Features) returns (fitted: bool)
      requires Valid()
      modifies this, learner, hst, hst.nodes, cusum
      ensures Valid() && SampleValues() == old(SampleValues())
      ensures (DetectorValues(), fitted) == Learn(tpl, old(DetectorValues()), f)
    {
      hide Template.Valid, FeatureExtractor.Valid, FeatureExtractor.Value, BaselineLearner.Valid, Detector.Valid,
        ForTemplate;
      hide MergeBaselines, Floored, Fitted;
      if fromAsset {
        return false;
      }
      var done := learner.Observe(f);
      if !done {
        return false;
      }
      Refit();
      return true;
    }

    method Refit()
      requires Valid()
      modifies this, hst, hst.nodes, cusum
      ensures Valid() && SampleValues() == old(SampleValues())
      ensures var vectors := old(DetectorValues()).learned;
              var (base, own) :=
                MergeBaselines(tpl.classBaselines, Floored(tpl.classBaselines, Fitted(vectors)), tpl.names);
              DetectorValues() == Detectors(vectors, base, own, NO_WINDOWS, RESET)
    {
      hide Template.Valid, FeatureExtractor.Valid, FeatureExtractor.Value, BaselineLearner.Valid, Detector.Valid,
        ForTemplate;
      hide MergeBaselines, Floored, Fitted;
      baselines, fromAsset := FitBaselines();
      hst.SetBaselines(baselines);
      cusum.Reset();
    }

    method FitBaselines() returns (base: Baselines, own: bool)
      requires Valid()
      ensures (base, own)
              == MergeBaselines(tpl.classBaselines, Floored(tpl.classBaselines, Fitted(learner.vectors)), tpl.names)
    {
      hide Template.Valid, FeatureExtractor.Valid, Detector.Valid, BaselineLearner.Valid, ForTemplate,
        MergeBaselines, Floored, Fitted;
      var fit := learner.Fit();
      var raised := Raise(tpl.classBaselines, fit);
      base, own := Merge(tpl.classBaselines, raised, tpl.names);
    }

    /** Scores one vector with every detector and fuses the scores. */
    method Score(age: real, f: Features) returns (assessment: Assessment, top: string)
      requires Valid()
      modifies hst, hst.point, hst.nodes, cusum
      ensures Valid() && SampleValues() == old(SampleValues())
      ensures (DetectorValues(), assessment, top) == Assess(kernels, tpl, id, old(DetectorValues()), age, f)
    {
      hide Template.Valid, FeatureExtractor.Valid, FeatureExtractor.Value, BaselineLearner.Valid, Detector.Valid, Fuse;
      hide Density, Observed, HstDensity.Score, Standardised, Update, CusumInput;
      ValidFusion(tpl);
      hst.ReadyMeans();
      ghost var before := DetectorValues();
      var (z, best) := kernels.zScore(tpl, f, baselines);
      var h := hst.Observe(f);
      var c := cusum.Feed(CusumInput(tpl, baselines, f));
      assessment := Fuse(tpl.fusion, Scores(z, h.ready, h.score, c.score, kernels.prior(tpl, age)));
      top := best;
    }
  }

  /** A learned MAD below a quarter of the class MAD is raised to it. */
  method Raise(class_: Baselines, learned: Baselines) returns (raised: Baselines)
    ensures raised == Floored(class_, learned)
  {
    raised := learned;
    var left := learned.Keys;
    while left != {}
      invariant left <= learned.Keys && raised.Keys == learned.Keys
      invariant forall n :: n in learned ==> raised[n] == if n in left then learned[n] else Floored(class_, learned)[n]
    {
      var n :| n in left;
      if n in class_ && learned[n].mad < class_[n].mad * 0.25 {
        raised := raised[n := Baseline(learned[n].median, class_[n].mad * 0.25)];
      }
      left := left - {n};
    }
  }

  lemma ValidWindows(tpl: Template)
    requires tpl.Valid()
    ensures forall s :: s in tpl.specs ==> tpl.specs[s].window >= 2
  {
  }

  lemma ValidFusion(tpl: Template)
    requires tpl.Valid()
    ensures tpl.fusion.Valid()
  {
  }
}
