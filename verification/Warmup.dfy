/**
  The warm-up of an asset's detectors over a whole run of feature vectors, and
  where each part of an assessment comes from.
 */
module Warmup {
  import opened Common
  import opened RobustZ
  import opened HstShape
  import opened HstDensity
  import opened HstDetector
  import opened Learner
  import opened Fusion
  import opened Pipeline
  import Cusum

  /** The detectors after each of the vectors has been offered to the learner. */
  function Learning(tpl: Template, d: Detectors, xs: seq<Features>): Detectors {
    if xs == [] then d else Learn(tpl, Learning(tpl, d, xs[..|xs| - 1]), xs[|xs| - 1]).0
  }

  /** The learner has to start, and no vector is in. */
  predicate Cold(d: Detectors) {
    !d.fromAsset && d.learned == []
  }

  ghost predicate Seen(xs: seq<Features>, name: string) {
    exists i :: 0 <= i < |xs| && name in xs[i]
  }

  /** Until enough vectors are in they are only collected. */
  lemma {:induction false} Collects(tpl: Template, d: Detectors, xs: seq<Features>)
    requires tpl.Valid() && Cold(d) && |xs| < tpl.warmup
    ensures Learning(tpl, d, xs) == d.(learned := xs)
  {
    hide Template.Valid, Fitted, Floored, MergeBaselines;
    if xs != [] {
      WarmupIsNeeded(tpl);
      Collects(tpl, d, xs[..|xs| - 1]);
      assert xs == xs[..|xs| - 1] + [xs[|xs| - 1]];
    }
  }

  lemma WarmupIsNeeded(tpl: Template)
    requires tpl.Valid()
    ensures Needed(tpl.warmup) == tpl.warmup >= 3
  {
  }

  /** The baseline of a feature that was seen: its median, and its MAD unless a quarter of the class's is more. */
  predicate FittedFrom(tpl: Template, xs: seq<Features>, name: string, b: Baseline) {
    var (median, mad) := MedianMad(Column(xs, name));
    && b.median == median
    && b.mad == if name in tpl.classBaselines then Max(mad, tpl.classBaselines[name].mad * 0.25) else mad
  }

  /** Detectors whose baselines the asset has learned from the vectors; nothing scored before counts any more. */
  ghost predicate LearnedFrom(tpl: Template, xs: seq<Features>, d: Detectors) {
    && d.fromAsset && d.windows.cur == [] && d.windows.ref == [] && d.cusum.gPos == 0.0 && d.cusum.gNeg == 0.0
    && (forall n :: n in d.baselines ==> n in tpl.names)
    && (forall n :: n in tpl.names && Seen(xs, n) ==> n in d.baselines && FittedFrom(tpl, xs, n, d.baselines[n]))
    && (forall n :: n in tpl.names && !Seen(xs, n) ==>
          && (n in d.baselines <==> n in tpl.classBaselines)
          && (n in d.baselines ==> d.baselines[n] == tpl.classBaselines[n]))
  }

  lemma FloorIs(tpl: Template, xs: seq<Features>, name: string)
    ensures var floored := Floored(tpl.classBaselines, Fitted(xs));
            && (name in floored <==> Seen(xs, name))
            && (name in floored ==> FittedFrom(tpl, xs, name, floored[name]))
  {
    hide MedianMad, Column;
    assert name in FeatureNames(xs) <==> Seen(xs, name);
  }

  lemma FitIs(tpl: Template, d: Detectors, xs: seq<Features>, x: Features)
    requires tpl.Valid() && !d.fromAsset && d.learned == xs && |xs| + 1 == tpl.warmup
    requires exists n :: n in tpl.names && Seen(xs + [x], n)
    ensures Learn(tpl, d, x).1 && LearnedFrom(tpl, xs + [x], Learn(tpl, d, x).0)
  {
    hide Template.Valid, Floored, Fitted, Seen, FittedFrom;
    WarmupIsNeeded(tpl);
    var floored := Floored(tpl.classBaselines, Fitted(xs + [x]));
    forall n
      ensures n in floored <==> Seen(xs + [x], n)
      ensures n in floored ==> FittedFrom(tpl, xs + [x], n, floored[n])
    {
      FloorIs(tpl, xs + [x], n);
    }
  }

  /**
    Warm-up over any run of vectors. With fewer than `warmup` nothing is learned.
    With the one that makes it `warmup`, every feature of the template that was seen
    gets the median and MAD of its samples (never less than a quarter of the class's
    MAD), the others keep the class's baselines, and the detector windows are
    discarded. Later vectors change nothing.
   */
  lemma {:induction false} WarmupLearnsOnce(tpl: Template, d: Detectors, xs: seq<Features>)
    requires tpl.Valid() && Cold(d)
    ensures |xs| < tpl.warmup ==> Learning(tpl, d, xs) == d.(learned := xs)
    ensures |xs| >= tpl.warmup && (exists n :: n in tpl.names && Seen(xs[..tpl.warmup], n)) ==>
              LearnedFrom(tpl, xs[..tpl.warmup], Learning(tpl, d, xs))
              && Learning(tpl, d, xs) == Learning(tpl, d, xs[..tpl.warmup])
  {
    hide Template.Valid, LearnedFrom, Seen, Learn;
    WarmupIsNeeded(tpl);
    if |xs| < tpl.warmup {
      Collects(tpl, d, xs);
    } else if exists n :: n in tpl.names && Seen(xs[..tpl.warmup], n) {
      var front, x := xs[..|xs| - 1], xs[|xs| - 1];
      if |xs| == tpl.warmup {
        Collects(tpl, d, front);
        assert xs == front + [x] && xs[..tpl.warmup] == xs;
        FitIs(tpl, d.(learned := front), front, x);
      } else {
        assert front[..tpl.warmup] == xs[..tpl.warmup];
        WarmupLearnsOnce(tpl, d, front);
        OwnBaselinesStay(tpl, Learning(tpl, d, front), x, xs[..tpl.warmup]);
      }
    }
  }

  lemma OwnBaselinesStay(tpl: Template, d: Detectors, x: Features, xs: seq<Features>)
    requires LearnedFrom(tpl, xs, d)
    ensures Learn(tpl, d, x).0 == d
  {
  }

  // ----- An assessment -----

  /**
    The z-score that the drift detector is fed: a feature without a value counts
    as 0, one without a baseline as no deviation.
   */
  ghost predicate DriftInput(tpl: Template, base: Baselines, x: Features, z: real) {
    var name := tpl.cusumFeature;
    if name !in base then z == 0.0
    else if Spread(tpl.zParams, base[name]) <= 0.0 then z == 0.0
    else (if name in x then x[name] else 0.0) == base[name].median + z * (1.4826 * Spread(tpl.zParams, base[name]))
  }

  lemma CusumInputIs(tpl: Template, base: Baselines, x: Features)
    ensures DriftInput(tpl, base, x, CusumInput(tpl, base, x))
  {
    if tpl.cusumFeature in base {
      hide Spread, Z;
      var v := if tpl.cusumFeature in x then x[tpl.cusumFeature] else 0.0;
      ZCountsSpreads(tpl.zParams, v, base[tpl.cusumFeature], 0.0);
    }
  }

  /**
    Where an assessment comes from. The prior and the leading feature are the
    kernels'; the drift score times H is the watched statistic after this vector's
    z-score, stopped at H; the anomaly is the z-score alone until the Half-Space
    Trees are ready, and then gives them their share, their score being
    1/(1 + density) of this vector against the reference window.
   */
  lemma AssessmentSources(k: Kernels, tpl: Template, id: string, d: Detectors, age: real, x: Features) returns (z: real)
    requires tpl.Valid()
    ensures DriftInput(tpl, d.baselines, x, z)
    ensures var (d', a, top) := Assess(k, tpl, id, d, age, x);
            var c, q, hst, shapes := tpl.cusum.WithDefaults(), tpl.fusion.WithDefaults(), tpl.hst.WithDefaults(),
                                     k.forest(tpl, id);
            var ready := d.windows.ref != [];
            && d' == d.(windows := d'.windows, cusum := d'.cusum)
            && top == k.zScore(tpl, x, d.baselines).1 && a.prior == k.prior(tpl, age)
            && d'.cusum.gPos == Min(Max(0.0, d.cusum.gPos + z - c.k), 2.0 * c.h)
            && d'.cusum.gNeg == Min(Max(0.0, d.cusum.gNeg - z - c.k), 2.0 * c.h)
            && a.drift * c.h == Min(Cusum.Selected(c.direction, d'.cusum), c.h)
            && (!ready ==> a.anomaly == k.zScore(tpl, x, d.baselines).0)
            && a.voters == (if ready then 3 else 2)
            && (shapes != [] ==>
                  var at := Standardised(Scaling(tpl.names, tpl.zParams, hst.zRange), d.baselines, x);
                  var density := Density(shapes, hst.depth, hst.windowSize, d.windows.ref, at);
                  && d'.windows == Observed(hst.windowSize, d.windows, at)
                  && (ready ==>
                        var zs := k.zScore(tpl, x, d.baselines).0;
                        (a.anomaly - (1.0 - q.hstShare) * zs) * (1.0 + density) == q.hstShare))
  {
    hide Template.Valid, Fuse, HstScores, DriftInput, Density, CusumInput, Cusum.CusumParams.WithDefaults;
    z := CusumInput(tpl, d.baselines, x);
    CusumInputIs(tpl, d.baselines, x);
    Cusum.CusumDefaults(tpl.cusum);
    CusumSources(tpl.cusum.WithDefaults(), d.cusum, z);
    HstSources(k, tpl, id, d, x);
    var h, c := HstScores(k, tpl, id, d, x).1, Cusum.Update(tpl.cusum.WithDefaults(), d.cusum, z).1;
    var scores := Scores(k.zScore(tpl, x, d.baselines).0, h.ready, h.score, c.score, k.prior(tpl, age));
    ValidFusion(tpl);
    FuseSources(tpl.fusion, scores, 1.0 + h.density);
    hide FusionParams.WithDefaults, Cusum.Update, Standardised;
  }

  lemma ValidFusion(tpl: Template)
    requires tpl.Valid()
    ensures tpl.fusion.Valid()
  {
  }

  lemma CusumSources(c: Cusum.CusumParams, s: Cusum.CusumState, z: real)
    requires c.Usable()
    ensures var (s', r) := Cusum.Update(c, s, z);
            && s'.gPos == Min(Max(0.0, s.gPos + z - c.k), 2.0 * c.h)
            && s'.gNeg == Min(Max(0.0, s.gNeg - z - c.k), 2.0 * c.h)
            && r.score * c.h == Min(Cusum.Selected(c.direction, s'), c.h)
  {
    Cusum.ScoreOf(c, s, z);
    hide Clamp01;
  }

  lemma HstSources(k: Kernels, tpl: Template, id: string, d: Detectors, x: Features)
    ensures var (windows, h) := HstScores(k, tpl, id, d, x);
            var hst, shapes := tpl.hst.WithDefaults(), k.forest(tpl, id);
            && (h.ready <==> d.windows.ref != [])
            && (shapes != [] ==>
                  var at := Standardised(Scaling(tpl.names, tpl.zParams, hst.zRange), d.baselines, x);
                  && h.density == Density(shapes, hst.depth, hst.windowSize, d.windows.ref, at)
                  && windows == Observed(hst.windowSize, d.windows, at)
                  && (h.ready ==> h.score * (1.0 + h.density) == 1.0))
  {
    hide Density, HstDensity.Score, Standardised;
    var hst, shapes := tpl.hst.WithDefaults(), k.forest(tpl, id);
    if shapes != [] {
      var at := Standardised(Scaling(tpl.names, tpl.zParams, hst.zRange), d.baselines, x);
      DensityIsCompany(shapes, hst.depth, hst.windowSize, d.windows.ref, at);
      ReadyScore(Density(shapes, hst.depth, hst.windowSize, d.windows.ref, at));
    }
  }

  lemma FuseSources(params: FusionParams, s: Scores, factor: real)
    requires params.Valid()
    ensures var a, q := Fuse(params, s), params.WithDefaults();
            && a.drift == s.drift && a.prior == s.prior && a.voters == (if s.hstReady then 3 else 2)
            && (!s.hstReady ==> a.anomaly == s.z)
            && (s.hstReady && s.hst * factor == 1.0 ==>
                  (a.anomaly - (1.0 - q.hstShare) * s.z) * factor == q.hstShare)
  {
    hide Blend, Confidence, Votes, FusionParams.WithDefaults;
    if s.hst * factor == 1.0 {
      ShareTimesScore(params.WithDefaults().hstShare, s.z, s.hst, factor);
    }
  }

  lemma ShareTimesScore(share: real, z: real, score: real, factor: real)
    requires score * factor == 1.0
    ensures ((1.0 - share) * z + share * score - (1.0 - share) * z) * factor == share
  {
    assert share * score * factor == share * (score * factor);
  }
}
