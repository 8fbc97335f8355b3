/**
  The detector pipeline of one asset as values (internal/domain/engine/asset.go
  and the scoring half of evaluate in internal/domain/engine/engine.go): warm-up
  learner, baselines, Half-Space Trees windows, CUSUM and fusion, each by the
  function its own module proves its code against.
 */
module Pipeline {
  import opened Common
  import opened Extractor
  import opened RobustZ
  import opened HstShape
  import opened HstDensity
  import opened HstDetector
  import opened Learner
  import opened Cusum
  import opened Fusion
  import opened Policy
  import opened WorkOrders

  /** The monitoring recipe of one asset class; `names` lists its features in order. */
  datatype Template = Template(
    class_: string, specs: Specs, runtimeSignal: string, names: seq<string>,
    zParams: ZParams, hst: HstParams, cusumFeature: string, cusum: CusumParams,
    fusion: FusionParams, alerting: Params, orders: OrderPolicy,
    warmup: int, classBaselines: Baselines)
  {
    /** What template validation establishes, as far as the model relies on it. */
    predicate Valid() {
      && (forall s :: s in specs ==> specs[s].window >= 2)
      && fusion.Valid() && alerting.Valid() && orders.Valid() && warmup >= 3
    }
  }

  /**
    The computations the model does not look into: feature extraction, the
    squashed z-score with its top contributor, the Weibull prior, and the random
    forest drawn for an asset.
   */
  datatype Kernels = Kernels(
    extract: (Template, Samples) -> Features,
    zScore: (Template, Features, Baselines) -> (real, string),
    prior: (Template, real) -> real,
    forest: (Template, string) -> seq<Shape>)

  datatype Detectors = Detectors(
    learned: seq<Features>, baselines: Baselines, fromAsset: bool, windows: Windows, cusum: CusumState)

  /** Learned baselines win over class ones; features the template does not know are dropped. */
  function MergeBaselines(class_: Baselines, learned: Baselines, names: seq<string>): (Baselines, bool) {
    (map n | n in names && (n in learned || n in class_) :: if n in learned then learned[n] else class_[n],
     exists n :: n in names && n in learned)
  }

  function FreshDetectors(tpl: Template, learned: Baselines): Detectors {
    var (baselines, fromAsset) := MergeBaselines(tpl.classBaselines, learned, tpl.names);
    Detectors([], baselines, fromAsset, NO_WINDOWS, RESET)
  }

  /** A suspiciously quiet warm-up keeps a quarter of the class MAD. */
  function Floored(class_: Baselines, learned: Baselines): Baselines {
    map n | n in learned ::
      if n in class_ && learned[n].mad < class_[n].mad * 0.25
      then Baseline(learned[n].median, class_[n].mad * 0.25) else learned[n]
  }

  /** Warm-up: collect a vector, and fit once enough are there; fitting discards detector windows. */
  function Learn(tpl: Template, d: Detectors, f: Features): (Detectors, bool) {
    if d.fromAsset then (d, false)
    else
      var need := Needed(tpl.warmup);
      var vectors := if |d.learned| >= need then d.learned else d.learned + [f];
      if |vectors| < need then (d.(learned := vectors), false)
      else
        var (baselines, fromAsset) :=
          MergeBaselines(tpl.classBaselines, Floored(tpl.classBaselines, Fitted(vectors)), tpl.names);
        (Detectors(vectors, baselines, fromAsset, NO_WINDOWS, RESET), true)
  }

  function HstScores(k: Kernels, tpl: Template, id: string, d: Detectors, f: Features): (Windows, HstResult) {
    var q := tpl.hst.WithDefaults();
    var shapes := k.forest(tpl, id);
    var x := Standardised(Scaling(tpl.names, tpl.zParams, q.zRange), d.baselines, f);
    var ready := HstDensity.Ready(d.windows);
    if shapes == [] then (d.windows, HstResult(0.0, 0.0, ready))
    else
      var density := Density(shapes, q.depth, q.windowSize, d.windows.ref, x);
      (Observed(q.windowSize, d.windows, x), HstResult(Score(ready, density), density, ready))
  }

  function CusumInput(tpl: Template, base: Baselines, f: Features): real {
    if tpl.cusumFeature in base && tpl.cusumFeature in f
    then Z(tpl.zParams, f[tpl.cusumFeature], base[tpl.cusumFeature])
    else if tpl.cusumFeature in base then Z(tpl.zParams, 0.0, base[tpl.cusumFeature])
    else 0.0
  }

  /** Scores one feature vector with every detector and fuses the scores; also the top feature. */
  function Assess(k: Kernels, tpl: Template, id: string, d: Detectors, age: real, f: Features)
    : (Detectors, Assessment, string)
    requires tpl.Valid()
  {
    var (z, top) := k.zScore(tpl, f, d.baselines);
    var (windows, h) := HstScores(k, tpl, id, d, f);
    var (cusum, c) := Cusum.Update(tpl.cusum.WithDefaults(), d.cusum, CusumInput(tpl, d.baselines, f));
    var assessment := Fuse(tpl.fusion, Scores(z, h.ready, h.score, c.score, k.prior(tpl, age)));
    (d.(windows := windows, cusum := cusum), assessment, top)
  }
}
