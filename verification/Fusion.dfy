/**
  Rule FUSE-1 of internal/domain/detect/fusion.go: the detector scores are
  blended into one risk and a confidence.
 */
module Fusion {
  import opened Common

  datatype FusionParams = FusionParams(
    wAnomaly: real, wDrift: real, wPrior: real, agreement: real, hstShare: real)
  {
    /** What template validation demands of the weights. */
    predicate Valid() {
      wAnomaly >= 0.0 && wDrift >= 0.0 && wPrior >= 0.0
    }

    function WithDefaults(): FusionParams {
      var unweighted := wAnomaly <= 0.0 && wDrift <= 0.0 && wPrior <= 0.0;
      var share := if hstShare <= 0.0 then 0.35 else hstShare;
      FusionParams(
        if unweighted then 0.6 else wAnomaly,
        if unweighted then 0.25 else wDrift,
        if unweighted then 0.15 else wPrior,
        if agreement <= 0.0 then 0.5 else agreement,
        if share > 0.5 then 0.5 else share)
    }
  }

  function Total(q: FusionParams): real {
    q.wAnomaly + q.wDrift + q.wPrior
  }

  /** The detector outputs that are fused; `hst` counts only once that detector is ready. */
  datatype Scores = Scores(z: real, hstReady: bool, hst: real, drift: real, prior: real) {
    predicate InRange() {
      0.0 <= z <= 1.0 && 0.0 <= hst <= 1.0 && 0.0 <= drift <= 1.0 && 0.0 <= prior <= 1.0
    }

    /** No score of `this` exceeds its counterpart, over the same ready detectors. */
    predicate Below(s: Scores) {
      hstReady == s.hstReady && z <= s.z && hst <= s.hst && drift <= s.drift && prior <= s.prior
    }
  }

  datatype Assessment = Assessment(
    risk: real, anomaly: real, drift: real, prior: real, confidence: real, votes: nat, voters: nat)

  /** The point-anomaly score: the z-score, mixed with the HST score once that detector is ready. */
  function Anomaly(q: FusionParams, s: Scores): real {
    if s.hstReady then (1.0 - q.hstShare) * s.z + q.hstShare * s.hst else s.z
  }

  /** The weighted mean of the three families. */
  function Blend(q: FusionParams, anomaly: real, drift: real, prior: real): real
    requires Total(q) > 0.0
  {
    (q.wAnomaly * anomaly + q.wDrift * drift + q.wPrior * prior) / Total(q)
  }

  function Vote(score: real, agreement: real): nat {
    if score >= agreement then 1 else 0
  }

  function Votes(q: FusionParams, s: Scores): nat {
    Vote(s.z, q.agreement) + Vote(s.drift, q.agreement) + if s.hstReady then Vote(s.hst, q.agreement) else 0
  }

  function Voters(s: Scores): nat {
    if s.hstReady then 3 else 2
  }

  /** How much of the risk survives when `votes` of `voters` agree. */
  function Discount(votes: nat, voters: nat): real
    requires voters > 0
  {
    0.5 + 0.5 * votes as real / voters as real
  }

  /** The risk discounted by detector disagreement. */
  function Confidence(risk: real, votes: nat, voters: nat): real
    requires voters > 0
  {
    Clamp01(risk * Discount(votes, voters))
  }

  function Fuse(params: FusionParams, s: Scores): Assessment
    requires params.Valid()
  {
    var q := params.WithDefaults();
    var anomaly := Anomaly(q, s);
    var risk := Clamp01(Blend(q, anomaly, s.drift, s.prior));
    Assessment(risk, anomaly, s.drift, s.prior, Confidence(risk, Votes(q, s), Voters(s)), Votes(q, s), Voters(s))
  }

  // ----- Arithmetic -----

  lemma MulMono(a: real, x: real, y: real)
    requires a >= 0.0 && x <= y
    ensures a * x <= a * y
  {
  }

  lemma DivMono(x: real, y: real, d: real)
    requires d > 0.0 && x <= y
    ensures x / d <= y / d
  {
    MulMono(1.0 / d, x, y);
  }

  lemma SumMono(x: real, y: real, x': real, y': real)
    requires x <= x' && y <= y'
    ensures x + y <= x' + y'
  {
  }

  lemma QuotientMono(x: real, y: real, z: real, x': real, y': real, z': real, d: real)
    requires d > 0.0 && x <= x' && y <= y' && z <= z'
    ensures (x + y + z) / d <= (x' + y' + z') / d
  {
    DivMono(x + y + z, x' + y' + z', d);
  }

  lemma DivCancels(x: real, d: real)
    requires d > 0.0
    ensures x * d / d == x
  {
  }

  lemma AnomalyMono(q: FusionParams, s: Scores, t: Scores)
    requires 0.0 <= q.hstShare <= 1.0 && s.Below(t)
    ensures Anomaly(q, s) <= Anomaly(q, t)
  {
    MulMono(q.hstShare, s.hst, t.hst);
    MulMono(1.0 - q.hstShare, s.z, t.z);
    SumMono((1.0 - q.hstShare) * s.z, q.hstShare * s.hst, (1.0 - q.hstShare) * t.z, q.hstShare * t.hst);
  }

  lemma AnomalyOfEqual(q: FusionParams, s: Scores)
    requires s.hstReady ==> s.hst == s.z
    ensures Anomaly(q, s) == s.z
  {
    assert (1.0 - q.hstShare) * s.z + q.hstShare * s.z == s.z;
  }

  lemma AnomalyBetween(q: FusionParams, s: Scores, lo: real, hi: real)
    requires 0.0 <= q.hstShare <= 1.0
    requires lo <= s.z <= hi && (s.hstReady ==> lo <= s.hst <= hi)
    ensures lo <= Anomaly(q, s) <= hi
  {
    if s.hstReady {
      AnomalyMono(q, s.(z := lo, hst := lo), s);
      AnomalyMono(q, s, s.(z := hi, hst := hi));
      AnomalyOfEqual(q, s.(z := lo, hst := lo));
      AnomalyOfEqual(q, s.(z := hi, hst := hi));
    }
  }

  lemma BlendMono(q: FusionParams, a: real, d: real, p: real, a': real, d': real, p': real)
    requires q.Valid() && Total(q) > 0.0 && a <= a' && d <= d' && p <= p'
    ensures Blend(q, a, d, p) <= Blend(q, a', d', p')
  {
    hide Total;
    MulMono(q.wAnomaly, a, a');
    MulMono(q.wDrift, d, d');
    MulMono(q.wPrior, p, p');
    QuotientMono(q.wAnomaly * a, q.wDrift * d, q.wPrior * p, q.wAnomaly * a', q.wDrift * d', q.wPrior * p', Total(q));
  }

  lemma BlendOfEqual(q: FusionParams, x: real)
    requires Total(q) > 0.0
    ensures Blend(q, x, x, x) == x
  {
    assert q.wAnomaly * x + q.wDrift * x + q.wPrior * x == x * Total(q);
    DivCancels(x, Total(q));
  }

  lemma DefaultsAreUsable(params: FusionParams)
    requires params.Valid()
    ensures var q := params.WithDefaults(); q.Valid() && Total(q) > 0.0 && 0.0 < q.hstShare <= 0.5 && q.agreement > 0.0
  {
  }

  lemma DiscountRange(votes: nat, voters: nat)
    requires votes <= voters && 0 < voters
    ensures 0.5 <= Discount(votes, voters) <= 1.0
    ensures Discount(votes, voters) == 1.0 <==> votes == voters
  {
    var n, v := voters as real, votes as real;
    DivMono(0.0, 0.5 * v, n);
    DivMono(0.5 * v, 0.5 * n, n);
    DivCancels(0.5, n);
    assert 0.5 * v / n * n == 0.5 * v;
  }

  lemma DiscountMono(v: nat, w: nat, voters: nat)
    requires v <= w && 0 < voters
    ensures Discount(v, voters) <= Discount(w, voters)
  {
    DivMono(0.5 * v as real, 0.5 * w as real, voters as real);
  }

  lemma ProductBand(risk: real, factor: real)
    requires 0.0 <= risk <= 1.0 && 0.5 <= factor <= 1.0
    ensures risk / 2.0 <= risk * factor <= risk
    ensures risk * factor == risk <==> risk == 0.0 || factor == 1.0
  {
    MulMono(risk, 0.5, factor);
    MulMono(risk, factor, 1.0);
    if risk * factor == risk && risk != 0.0 {
      assert risk * (1.0 - factor) == 0.0;
    }
  }

  lemma MulLe(r: real, f: real, r': real, f': real)
    requires 0.0 <= r <= r' && 0.0 <= f <= f'
    ensures r * f <= r' * f'
  {
    MulMono(r, f, f');
    MulMono(f', r, r');
  }

  // ----- What the rule promises -----

  /**
    The fused risk is a convex combination: it lies between the least and the
    greatest score of the ready detectors, and the clamp never acts.
   */
  lemma RiskIsConvex(params: FusionParams, s: Scores, lo: real, hi: real)
    requires params.Valid() && 0.0 <= lo && hi <= 1.0
    requires lo <= s.z <= hi && lo <= s.drift <= hi && lo <= s.prior <= hi && (s.hstReady ==> lo <= s.hst <= hi)
    ensures var q := params.WithDefaults();
            && Total(q) > 0.0
            && lo <= Fuse(params, s).risk <= hi
            && Fuse(params, s).risk == Blend(q, Anomaly(q, s), s.drift, s.prior)
  {
    var q := params.WithDefaults();
    DefaultsAreUsable(params);
    AnomalyBetween(q, s, lo, hi);
    hide Anomaly, Blend, Discount, Votes;
    BlendMono(q, lo, lo, lo, Anomaly(q, s), s.drift, s.prior);
    BlendMono(q, Anomaly(q, s), s.drift, s.prior, hi, hi, hi);
    BlendOfEqual(q, lo);
    BlendOfEqual(q, hi);
  }

  /** Raising any score never lowers the risk. */
  lemma RiskIsMonotone(params: FusionParams, s: Scores, t: Scores)
    requires params.Valid() && s.Below(t)
    ensures Fuse(params, s).risk <= Fuse(params, t).risk
  {
    var q := params.WithDefaults();
    DefaultsAreUsable(params);
    AnomalyMono(q, s, t);
    hide Anomaly, Blend, Discount, Votes;
    BlendMono(q, Anomaly(q, s), s.drift, s.prior, Anomaly(q, t), t.drift, t.prior);
  }

  lemma RiskInUnit(params: FusionParams, s: Scores)
    requires params.Valid() && s.InRange()
    ensures 0.0 <= Fuse(params, s).risk <= 1.0
  {
    RiskIsConvex(params, s, 0.0, 1.0);
  }

  lemma ConfidenceIs(params: FusionParams, s: Scores)
    requires params.Valid()
    ensures var a, q := Fuse(params, s), params.WithDefaults();
            a.votes == Votes(q, s) && a.voters == Voters(s)
              && a.confidence == Confidence(a.risk, Votes(q, s), Voters(s))
  {
    hide Anomaly, Blend, Votes, Confidence;
  }

  lemma ClampInside(x: real)
    requires 0.0 <= x <= 1.0
    ensures Clamp01(x) == x
  {
  }

  lemma ClampMono(x: real, y: real)
    requires x <= y
    ensures Clamp01(x) <= Clamp01(y)
  {
  }

  lemma DiscountedBand(risk: real, votes: nat, voters: nat)
    requires 0.0 <= risk <= 1.0 && votes <= voters && 0 < voters
    ensures risk / 2.0 <= Confidence(risk, votes, voters) <= risk
    ensures Confidence(risk, votes, voters) == risk <==> risk == 0.0 || votes == voters
  {
    DiscountRange(votes, voters);
    var factor := Discount(votes, voters);
    ProductBand(risk, factor);
    var product := risk * factor;
    ClampInside(product);
    assert Confidence(risk, votes, voters) == product;
  }

  lemma DiscountedMono(r: real, v: nat, r': real, v': nat, voters: nat)
    requires 0.0 <= r <= r' <= 1.0 && v <= v' <= voters && 0 < voters
    ensures Confidence(r, v, voters) <= Confidence(r', v', voters)
  {
    DiscountRange(v, voters);
    DiscountMono(v, v', voters);
    MulLe(r, Discount(v, voters), r', Discount(v', voters));
    ClampMono(r * Discount(v, voters), r' * Discount(v', voters));
  }

  lemma VotesMono(q: FusionParams, s: Scores, t: Scores)
    requires s == t || s.Below(t)
    ensures Votes(q, s) <= Votes(q, t) <= Voters(t) && Voters(s) == Voters(t) > 0
  {
  }

  /** Disagreement discounts the risk by at most half, and by nothing exactly when every ready detector votes. */
  lemma ConfidenceBand(params: FusionParams, s: Scores)
    requires params.Valid() && s.InRange()
    ensures Fuse(params, s).risk / 2.0 <= Fuse(params, s).confidence <= Fuse(params, s).risk
    ensures Fuse(params, s).confidence == Fuse(params, s).risk
            <==> Fuse(params, s).risk == 0.0 || Fuse(params, s).votes == Fuse(params, s).voters
  {
    hide *;
    RiskInUnit(params, s);
    VotesMono(params.WithDefaults(), s, s);
    ConfidenceIs(params, s);
    DiscountedBand(Fuse(params, s).risk, Votes(params.WithDefaults(), s), Voters(s));
  }

  /** Raising any score never lowers the confidence either. */
  lemma ConfidenceIsMonotone(params: FusionParams, s: Scores, t: Scores)
    requires params.Valid() && s.InRange() && t.InRange() && s.Below(t)
    ensures Fuse(params, s).confidence <= Fuse(params, t).confidence
  {
    hide *;
    RiskIsMonotone(params, s, t);
    RiskInUnit(params, s);
    RiskInUnit(params, t);
    VotesMono(params.WithDefaults(), s, t);
    ConfidenceIs(params, s);
    ConfidenceIs(params, t);
    DiscountedMono(Fuse(params, s).risk, Votes(params.WithDefaults(), s),
                   Fuse(params, t).risk, Votes(params.WithDefaults(), t), Voters(t));
  }

  // ----- Agreement, from the scores alone -----

  /** The scores of the ready detectors that vote. */
  function ReadyScores(s: Scores): seq<real> {
    if s.hstReady then [s.z, s.drift, s.hst] else [s.z, s.drift]
  }

  /** How many of them are at least `t`. */
  function AtLeast(xs: seq<real>, t: real): (n: nat)
    ensures n <= |xs|
  {
    if xs == [] then 0 else AtLeast(xs[..|xs| - 1], t) + if xs[|xs| - 1] >= t then 1 else 0
  }

  lemma {:induction false} AllOrNone(xs: seq<real>, t: real)
    ensures AtLeast(xs, t) == |xs| <==> forall x :: x in xs ==> x >= t
    ensures AtLeast(xs, t) == 0 <==> forall x :: x in xs ==> x < t
  {
    if xs != [] {
      var front, last := xs[..|xs| - 1], xs[|xs| - 1];
      AllOrNone(front, t);
      assert xs == front + [last];
      AllOfBoth(front, last, t);
    }
  }

  lemma AllOfBoth(front: seq<real>, last: real, t: real)
    ensures (forall x :: x in front + [last] ==> x >= t) <==> last >= t && forall x :: x in front ==> x >= t
    ensures (forall x :: x in front + [last] ==> x < t) <==> last < t && forall x :: x in front ==> x < t
  {
    assert last in front + [last] by {
      assert (front + [last])[|front|] == last;
    }
    assert forall x :: x in front + [last] <==> x in front || x == last;
  }

  lemma VotesAreCounted(params: FusionParams, s: Scores)
    requires params.Valid()
    ensures var a := Fuse(params, s);
            a.voters == |ReadyScores(s)| && a.votes == AtLeast(ReadyScores(s), params.WithDefaults().agreement)
  {
    hide FusionParams.WithDefaults, Blend, Anomaly, Confidence, Vote, AtLeast;
    TwoOrThree(s.z, s.drift, s.hst, params.WithDefaults().agreement);
  }

  lemma TwoOrThree(a: real, b: real, c: real, t: real)
    ensures AtLeast([a, b], t) == Vote(a, t) + Vote(b, t)
    ensures AtLeast([a, b, c], t) == Vote(a, t) + Vote(b, t) + Vote(c, t)
  {
    assert [a, b, c][..2] == [a, b] && [a, b][..1] == [a] && [a][..0] == [];
    assert AtLeast([a], t) == Vote(a, t);
  }

  lemma DiscountTimes(risk: real, votes: nat, voters: nat)
    requires 0.0 <= risk <= 1.0 && votes <= voters && 0 < voters
    ensures Confidence(risk, votes, voters) * 2.0 * voters as real == risk * (voters + votes) as real
  {
    DiscountRange(votes, voters);
    var n, v, factor := voters as real, votes as real, Discount(votes, voters);
    ProductBand(risk, factor);
    ClampInside(risk * factor);
    assert 0.5 * v / n * n == 0.5 * v;
    assert factor * 2.0 * n == n + v;
    assert risk * factor * 2.0 * n == risk * (factor * 2.0 * n);
  }

  /**
    Agreement from the scores alone: of n ready detectors (the prior has no vote)
    of which m reach the agreement threshold, confidence is risk * (n + m) / 2n.
    So it is the risk if and only if the risk is 0 or all of them reach it, and half
    the risk if and only if the risk is 0 or none does.
   */
  lemma ConfidenceByAgreement(params: FusionParams, s: Scores)
    requires params.Valid() && s.InRange()
    ensures var a, xs, t := Fuse(params, s), ReadyScores(s), params.WithDefaults().agreement;
            && a.confidence * 2.0 * |xs| as real == a.risk * (|xs| + AtLeast(xs, t)) as real
            && (a.confidence == a.risk <==> a.risk == 0.0 || forall x :: x in xs ==> x >= t)
            && (a.confidence == a.risk / 2.0 <==> a.risk == 0.0 || forall x :: x in xs ==> x < t)
  {
    hide Fuse, Confidence, FusionParams.WithDefaults;
    RiskInUnit(params, s);
    ConfidenceIs(params, s);
    VotesAreCounted(params, s);
    var a, xs, t := Fuse(params, s), ReadyScores(s), params.WithDefaults().agreement;
    AllOrNone(xs, t);
    DiscountTimes(a.risk, a.votes, a.voters);
    HalfOrWhole(a.risk, a.confidence, a.votes, a.voters);
  }

  lemma HalfOrWhole(risk: real, confidence: real, votes: nat, voters: nat)
    requires 0.0 <= risk && votes <= voters && 0 < voters
    requires confidence * 2.0 * voters as real == risk * (voters + votes) as real
    ensures confidence == risk <==> risk == 0.0 || votes == voters
    ensures confidence == risk / 2.0 <==> risk == 0.0 || votes == 0
  {
    var n, v := voters as real, votes as real;
    assert (voters + votes) as real == n + v;
    assert risk * (n + v) == risk * n + risk * v;
    if confidence == risk {
      assert risk * (n - v) == 0.0;
    }
    if votes == voters {
      assert (confidence - risk) * (2.0 * n) == 0.0;
    }
    if confidence == risk / 2.0 {
      assert risk * v == 0.0;
    }
    if votes == 0 || risk == 0.0 {
      assert (confidence - risk / 2.0) * (2.0 * n) == 0.0;
    }
    if risk == 0.0 {
      assert confidence * (2.0 * n) == 0.0;
    }
  }

  // ----- Risk, one detector at a time -----

  /**
    What each detector contributes: risk times the total weight is the weighted
    sum of the families, and the HST score takes its share of the anomaly weight
    from the z-score once it is ready.
   */
  lemma RiskByFamilies(params: FusionParams, s: Scores)
    requires params.Valid() && s.InRange()
    ensures var q := params.WithDefaults();
            var anomaly := if s.hstReady then s.z + q.hstShare * (s.hst - s.z) else s.z;
            && Fuse(params, s).risk * (q.wAnomaly + q.wDrift + q.wPrior)
               == q.wAnomaly * anomaly + q.wDrift * s.drift + q.wPrior * s.prior
            && q.wAnomaly + q.wDrift + q.wPrior > 0.0
  {
    hide Fuse, Blend, Anomaly, FusionParams.WithDefaults;
    var q := params.WithDefaults();
    RiskIsConvex(params, s, 0.0, 1.0);
    AnomalyShared(q, s);
    BlendTimesTotal(q, Anomaly(q, s), s.drift, s.prior);
  }

  lemma AnomalyShared(q: FusionParams, s: Scores)
    ensures Anomaly(q, s) == if s.hstReady then s.z + q.hstShare * (s.hst - s.z) else s.z
  {
    assert q.hstShare * (s.hst - s.z) == q.hstShare * s.hst - q.hstShare * s.z;
    assert (1.0 - q.hstShare) * s.z == s.z - q.hstShare * s.z;
  }

  lemma BlendTimesTotal(q: FusionParams, anomaly: real, drift: real, prior: real)
    requires Total(q) > 0.0
    ensures Blend(q, anomaly, drift, prior) * (q.wAnomaly + q.wDrift + q.wPrior)
            == q.wAnomaly * anomaly + q.wDrift * drift + q.wPrior * prior
  {
    DivideTimes(q.wAnomaly * anomaly + q.wDrift * drift + q.wPrior * prior, Total(q));
  }

  lemma DivideTimes(x: real, d: real)
    requires d > 0.0
    ensures x / d * d == x
  {
  }

  /** The documented defaults: weights 0.6, 0.25 and 0.15, agreement 0.5, and an HST share of 0.35, at most 0.5. */
  lemma FusionDefaults(params: FusionParams)
    requires params.Valid()
    ensures var q := params.WithDefaults();
            && (params.wAnomaly + params.wDrift + params.wPrior > 0.0 ==>
                  q.wAnomaly == params.wAnomaly && q.wDrift == params.wDrift && q.wPrior == params.wPrior)
            && (params.wAnomaly + params.wDrift + params.wPrior == 0.0 ==>
                  q.wAnomaly == 0.6 && q.wDrift == 0.25 && q.wPrior == 0.15)
            && q.agreement == (if params.agreement > 0.0 then params.agreement else 0.5)
            && q.hstShare == if params.hstShare > 0.0 then Min(params.hstShare, 0.5) else 0.35
  {
  }
}
