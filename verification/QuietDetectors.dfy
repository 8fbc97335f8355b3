/**
  When a set of detectors can never interrupt anyone. Each detector's score is
  capped; whatever the detectors below their caps do, the policy stays Normal
  exactly when the fused risk of the caps lies below the lowest threshold in
  reach: of the verdicts of technicians (`FeedbackQuietIff`), or of any offset
  inside the clamp that a restart or a template update may restore (`QuietIff`).
 */
module QuietDetectors {
  import opened Common
  import opened RateLimit
  import opened Policy
  import opened PolicyRuns
  import opened Fusion

  /** Upper bounds on the four scores. */
  datatype Caps = Caps(z: real, hst: real, drift: real, prior: real) {
    predicate InRange() {
      0.0 <= z <= 1.0 && 0.0 <= hst <= 1.0 && 0.0 <= drift <= 1.0 && 0.0 <= prior <= 1.0
    }

    predicate Admits(s: Scores) {
      s.InRange() && s.z <= z && s.hst <= hst && s.drift <= drift && s.prior <= prior
    }

    function AsScores(hstReady: bool): Scores {
      Scores(z, hstReady, hst, drift, prior)
    }
  }

  /** One evaluation as the engine makes it: the scores are fused and the risk goes to the policy. */
  datatype Reading = Reading(now: Time, scores: Scores, offset: real, site: Option<Limiter>)

  function Observed(f: FusionParams, readings: seq<Reading>): (run: seq<Obs>)
    requires f.Valid()
    ensures |run| == |readings|
  {
    seq(|readings|, i requires 0 <= i < |readings| =>
      Obs(readings[i].now, Fuse(f, readings[i].scores).risk, readings[i].offset, readings[i].site))
  }

  ghost predicate AllAdmitted(caps: Caps, readings: seq<Reading>) {
    forall i :: 0 <= i < |readings| ==> caps.Admits(readings[i].scores)
  }

  /** Over every run below the caps, at any offsets, the policy never leaves Normal. */
  ghost predicate NeverLeavesNormal(p: Params, f: FusionParams, caps: Caps)
    requires f.Valid()
  {
    forall readings: seq<Reading>, i: nat :: AllAdmitted(caps, readings) && i <= |readings| ==>
      StateAt(NewPolicy(p), Observed(f, readings), i).state.Normal?
  }

  /** The largest risk the caps allow. */
  function RiskCap(f: FusionParams, caps: Caps): real
    requires f.Valid()
  {
    Max(Fuse(f, caps.AsScores(false)).risk, Fuse(f, caps.AsScores(true)).risk)
  }

  /** The lowest threshold any offset inside the clamp gives. */
  function ThresholdFloor(p: Params): real {
    Max(p.onThreshold - p.adaptation.maxOffset, p.offThreshold + 0.01)
  }

  lemma FloorIsReached(p: Params, offset: real)
    requires p.Valid()
    ensures EffectiveThreshold(p, ClampOffset(p, offset)) >= ThresholdFloor(p)
    ensures EffectiveThreshold(p, ClampOffset(p, -p.adaptation.maxOffset)) == ThresholdFloor(p)
  {
  }

  lemma CapBounds(f: FusionParams, caps: Caps, s: Scores)
    requires f.Valid() && caps.Admits(s)
    ensures Fuse(f, s).risk <= RiskCap(f, caps)
  {
    RiskIsMonotone(f, s, caps.AsScores(s.hstReady));
  }

  lemma {:induction false} StaysNormal(p: Params, f: FusionParams, caps: Caps, readings: seq<Reading>, i: nat)
    requires p.Valid() && f.Valid() && AllAdmitted(caps, readings) && i <= |readings|
    requires AllAbove(p, readings, RiskCap(f, caps))
    ensures StateAt(NewPolicy(p), Observed(f, readings), i).state.Normal?
  {
    hide Step, RiskCap, EffectiveThreshold, ClampOffset, Fuse;
    if i > 0 {
      StaysNormal(p, f, caps, readings, i - 1);
      var run := Observed(f, readings);
      RunCounts(NewPolicy(p), p, run, i - 1);
      StepCases(StateAt(NewPolicy(p), run, i - 1), run[i - 1]);
      CapBounds(f, caps, readings[i - 1].scores);
    }
  }

  /** Every threshold of the run is above `risk`. */
  ghost predicate AllAbove(p: Params, readings: seq<Reading>, risk: real) {
    forall i :: 0 <= i < |readings| ==> EffectiveThreshold(p, ClampOffset(p, readings[i].offset)) > risk
  }

  lemma NoAlert(p: Params, f: FusionParams, caps: Caps, readings: seq<Reading>, i: nat)
    requires p.Valid() && f.Valid() && AllAdmitted(caps, readings) && i < |readings|
    requires AllAbove(p, readings, RiskCap(f, caps))
    ensures !OutcomeAt(NewPolicy(p), Observed(f, readings), i).Fire?
  {
    hide Step, RiskCap, Fuse, AllAbove;
    StaysNormal(p, f, caps, readings, i + 1);
    SuppressionStep(StateAt(NewPolicy(p), Observed(f, readings), i), Observed(f, readings)[i]);
  }

  lemma AboveFloor(p: Params, readings: seq<Reading>, risk: real)
    requires p.Valid() && risk < ThresholdFloor(p)
    ensures AllAbove(p, readings, risk)
  {
    hide ThresholdFloor, EffectiveThreshold, ClampOffset;
    forall i | 0 <= i < |readings|
      ensures EffectiveThreshold(p, ClampOffset(p, readings[i].offset)) > risk
    {
      FloorIsReached(p, readings[i].offset);
    }
  }

  /** Some run below the caps, at some offsets, raises an alert. */
  ghost predicate CanAlert(p: Params, f: FusionParams, caps: Caps)
    requires f.Valid()
  {
    exists readings: seq<Reading>, i: nat :: AllAdmitted(caps, readings) && i < |readings| &&
      OutcomeAt(NewPolicy(p), Observed(f, readings), i).Fire?
  }

  /** An episode that opens with nothing suppressed, a fresh limiter and no site limiter alerts. */
  lemma FreshStep(s: PolicyState, o: Obs)
    requires s.limiter == FreshLimiter(s.p) && s.suppressedUntil < o.now && o.site.None? && !s.state.Active?
    ensures var (s', d) := Step(s, o);
            if IsOpen(d.outcome) then d.outcome.Fire?
            else s'.limiter == s.limiter && s'.suppressedUntil == s.suppressedUntil && s'.p == s.p
  {
  }

  /** Readings at the lowest threshold for as long as persistence asks. */
  lemma {:induction false} Climbs(p: Params, run: seq<Obs>, i: nat)
    requires p.Valid() && i < p.minPersistence <= |run|
    requires forall k :: 0 <= k < |run| ==>
               run[k].now > ZERO_TIME && run[k].site.None? && run[k].risk >= ThresholdAt(p, run, k)
    ensures var s := StateAt(NewPolicy(p), run, i);
            && Counting(s, p) && !s.state.Active? && s.above == i
            && s.limiter == FreshLimiter(p) && s.suppressedUntil == ZERO_TIME
  {
    if i > 0 {
      Climbs(p, run, i - 1);
      var s := StateAt(NewPolicy(p), run, i - 1);
      hide Step, EffectiveThreshold, ClampOffset;
      StepCases(s, run[i - 1]);
      FreshStep(s, run[i - 1]);
      assert run[i - 1].risk >= ThresholdAt(p, run, i - 1);
    }
  }

  lemma Alerts(p: Params, run: seq<Obs>, n: nat)
    requires p.Valid() && n == p.minPersistence == |run|
    requires forall k :: 0 <= k < |run| ==>
               run[k].now > ZERO_TIME && run[k].site.None? && run[k].risk >= ThresholdAt(p, run, k)
    ensures OutcomeAt(NewPolicy(p), run, n - 1).Fire? && StateAt(NewPolicy(p), run, n).state.Active?
  {
    hide Step, EffectiveThreshold, ClampOffset, NewPolicy, FreshLimiter;
    Climbs(p, run, n - 1);
    var s := StateAt(NewPolicy(p), run, n - 1);
    StepCases(s, run[n - 1]);
    FreshStep(s, run[n - 1]);
    assert run[n - 1].risk >= ThresholdAt(p, run, n - 1);
  }

  function WorstScores(f: FusionParams, caps: Caps): (worst: Scores)
    requires f.Valid() && caps.InRange()
    ensures caps.Admits(worst) && Fuse(f, worst).risk == RiskCap(f, caps)
  {
    caps.AsScores(Fuse(f, caps.AsScores(true)).risk == RiskCap(f, caps))
  }

  /** The worst scores at one offset for as long as persistence asks raise an alert if the cap reaches its threshold. */
  lemma WorstRun(p: Params, f: FusionParams, caps: Caps, readings: seq<Reading>, offset: real)
    requires p.Valid() && f.Valid() && caps.InRange() && |readings| == p.minPersistence
    requires forall i :: 0 <= i < |readings| ==> readings[i] == Reading(1, WorstScores(f, caps), offset, None)
    requires RiskCap(f, caps) >= EffectiveThreshold(p, ClampOffset(p, offset))
    ensures AllAdmitted(caps, readings)
    ensures OutcomeAt(NewPolicy(p), Observed(f, readings), p.minPersistence - 1).Fire?
    ensures !StateAt(NewPolicy(p), Observed(f, readings), p.minPersistence).state.Normal?
  {
    hide Step, RiskCap, EffectiveThreshold, ClampOffset, Fuse, NewPolicy, WorstScores, OutcomeAt, StateAt;
    var run := Observed(f, readings);
    assert forall k :: 0 <= k < |run| ==> run[k].risk >= ThresholdAt(p, run, k);
    Alerts(p, run, p.minPersistence);
  }

  /** The exact condition over any offsets inside the clamp, for every class template and every choice of caps. */
  lemma QuietIff(p: Params, f: FusionParams, caps: Caps)
    requires p.Valid() && f.Valid() && caps.InRange()
    ensures NeverLeavesNormal(p, f, caps) <==> RiskCap(f, caps) < ThresholdFloor(p)
    ensures CanAlert(p, f, caps) <==> RiskCap(f, caps) >= ThresholdFloor(p)
  {
    hide RiskCap, ThresholdFloor, EffectiveThreshold, ClampOffset, OutcomeAt, StateAt, Observed, WorstScores,
      NewPolicy, Fuse;
    if RiskCap(f, caps) < ThresholdFloor(p) {
      forall readings: seq<Reading>, i: nat | AllAdmitted(caps, readings) && i <= |readings|
        ensures StateAt(NewPolicy(p), Observed(f, readings), i).state.Normal?
        ensures i < |readings| ==> !OutcomeAt(NewPolicy(p), Observed(f, readings), i).Fire?
      {
        AboveFloor(p, readings, RiskCap(f, caps));
        StaysNormal(p, f, caps, readings, i);
        if i < |readings| {
          NoAlert(p, f, caps, readings, i);
        }
      }
    } else {
      var readings := seq(p.minPersistence, i => Reading(1, WorstScores(f, caps), -p.adaptation.maxOffset, None));
      FloorIsReached(p, -p.adaptation.maxOffset);
      WorstRun(p, f, caps, readings, -p.adaptation.maxOffset);
    }
  }

  // ----- Offsets that verdicts reach -----

  /** One evaluation and the verdicts that came in before it. */
  datatype Turn = Turn(verdicts: seq<Verdict>, now: Time, scores: Scores, site: Option<Limiter>)

  function VerdictsBefore(turns: seq<Turn>, n: nat): seq<Verdict>
    requires n <= |turns|
  {
    if n == 0 then [] else VerdictsBefore(turns, n - 1) + turns[n - 1].verdicts
  }

  /** The readings of a run whose offset starts at 0 and is moved by its verdicts alone. */
  function Played(p: Params, turns: seq<Turn>): (readings: seq<Reading>)
    ensures |readings| == |turns|
  {
    seq(|turns|, i requires 0 <= i < |turns| =>
      Reading(turns[i].now, turns[i].scores, OffsetAfter(p, 0.0, VerdictsBefore(turns, i + 1)), turns[i].site))
  }

  /** Over every run below the caps with any verdicts in between, the policy never leaves Normal. */
  ghost predicate FeedbackNeverLeavesNormal(p: Params, f: FusionParams, caps: Caps)
    requires f.Valid()
  {
    forall turns: seq<Turn>, i: nat :: AllAdmitted(caps, Played(p, turns)) && i <= |turns| ==>
      StateAt(NewPolicy(p), Observed(f, Played(p, turns)), i).state.Normal?
  }

  /** Some run below the caps with some verdicts in between raises an alert. */
  ghost predicate FeedbackCanAlert(p: Params, f: FusionParams, caps: Caps)
    requires f.Valid()
  {
    exists turns: seq<Turn>, i: nat :: AllAdmitted(caps, Played(p, turns)) && i < |turns| &&
      OutcomeAt(NewPolicy(p), Observed(f, Played(p, turns)), i).Fire?
  }

  /** The lowest threshold that verdicts reach: none lowers it when confirming has no effect. */
  function FeedbackFloor(p: Params): real {
    if p.adaptation.confirmStep == 0.0 then EffectiveThreshold(p, 0.0) else ThresholdFloor(p)
  }

  /** Without a confirmation step no verdicts take the offset below 0. */
  lemma {:induction false} NeverBelowZero(p: Params, o: real, verdicts: seq<Verdict>)
    requires p.Valid() && p.adaptation.confirmStep == 0.0 && o >= 0.0
    ensures OffsetAfter(p, o, verdicts) >= 0.0
  {
    if verdicts != [] {
      NeverBelowZero(p, o, verdicts[..|verdicts| - 1]);
    }
  }

  /** No verdicts take the threshold below the floor, from offset 0 or any higher one. */
  lemma FeedbackFloorHolds(p: Params, o: real, verdicts: seq<Verdict>)
    requires p.Valid() && o >= 0.0
    ensures EffectiveThreshold(p, ClampOffset(p, OffsetAfter(p, o, verdicts))) >= FeedbackFloor(p)
  {
    hide OffsetAfter;
    FloorIsReached(p, OffsetAfter(p, o, verdicts));
    if p.adaptation.confirmStep == 0.0 {
      NeverBelowZero(p, o, verdicts);
    }
  }

  lemma EnoughSteps(m: real, d: real) returns (k: nat)
    requires m >= 0.0 && d > 0.0
    ensures k as real * d >= m
  {
    k := (m / d).Floor + 1;
    assert k as real >= m / d;
    MulMono(d, m / d, k as real);
    assert m / d * d == m;
  }

  /** Enough confirmations take it down to the floor. */
  lemma FeedbackFloorIsReached(p: Params) returns (verdicts: seq<Verdict>)
    requires p.Valid()
    ensures EffectiveThreshold(p, ClampOffset(p, OffsetAfter(p, 0.0, verdicts))) == FeedbackFloor(p)
  {
    if p.adaptation.confirmStep == 0.0 {
      verdicts := [];
    } else {
      hide OffsetAfter, EffectiveThreshold, ThresholdFloor, ClampOffset;
      var k := EnoughSteps(p.adaptation.maxOffset, p.adaptation.confirmStep);
      verdicts := Repeat(Confirm, k);
      RepeatedConfirmations(p, 0.0, k);
      assert OffsetAfter(p, 0.0, verdicts) == -p.adaptation.maxOffset;
      FloorIsReached(p, -p.adaptation.maxOffset);
    }
  }

  lemma FeedbackStaysAbove(p: Params, turns: seq<Turn>, risk: real)
    requires p.Valid() && risk < FeedbackFloor(p)
    ensures AllAbove(p, Played(p, turns), risk)
  {
    hide FeedbackFloor, EffectiveThreshold, ClampOffset, OffsetAfter;
    forall i | 0 <= i < |turns|
      ensures EffectiveThreshold(p, ClampOffset(p, Played(p, turns)[i].offset)) > risk
    {
      FeedbackFloorHolds(p, 0.0, VerdictsBefore(turns, i + 1));
    }
  }

  /** Verdicts before the first evaluation, and none afterwards. */
  function Judged(verdicts: seq<Verdict>, scores: Scores, n: nat): seq<Turn> {
    seq(n, i => Turn(if i == 0 then verdicts else [], 1, scores, None))
  }

  lemma {:induction false} JudgedBefore(verdicts: seq<Verdict>, scores: Scores, n: nat, i: nat)
    requires 0 < i <= n
    ensures VerdictsBefore(Judged(verdicts, scores, n), i) == verdicts
  {
    if i > 1 {
      JudgedBefore(verdicts, scores, n, i - 1);
    } else {
      assert VerdictsBefore(Judged(verdicts, scores, n), 0) == [];
    }
  }

  /**
    The exact condition over runs with feedback, for every class template and
    every choice of caps: a set of detectors is silent whatever technicians say
    if and only if the fused risk of its caps is below the lowest threshold that
    verdicts can reach, and otherwise some run of verdicts and readings alerts.
   */
  lemma FeedbackQuietIff(p: Params, f: FusionParams, caps: Caps)
    requires p.Valid() && f.Valid() && caps.InRange()
    ensures FeedbackNeverLeavesNormal(p, f, caps) <==> RiskCap(f, caps) < FeedbackFloor(p)
    ensures FeedbackCanAlert(p, f, caps) <==> RiskCap(f, caps) >= FeedbackFloor(p)
  {
    hide RiskCap, FeedbackFloor, EffectiveThreshold, ClampOffset, OutcomeAt, StateAt, Observed, WorstScores,
      NewPolicy, Fuse;
    hide OffsetAfter, VerdictsBefore;
    if RiskCap(f, caps) < FeedbackFloor(p) {
      forall turns: seq<Turn>, i: nat | AllAdmitted(caps, Played(p, turns)) && i <= |turns|
        ensures StateAt(NewPolicy(p), Observed(f, Played(p, turns)), i).state.Normal?
        ensures i < |turns| ==> !OutcomeAt(NewPolicy(p), Observed(f, Played(p, turns)), i).Fire?
      {
        FeedbackStaysAbove(p, turns, RiskCap(f, caps));
        StaysNormal(p, f, caps, Played(p, turns), i);
        if i < |turns| {
          NoAlert(p, f, caps, Played(p, turns), i);
        }
      }
    } else {
      var verdicts := FeedbackFloorIsReached(p);
      var turns := Judged(verdicts, WorstScores(f, caps), p.minPersistence);
      forall i | 0 <= i < |turns|
        ensures Played(p, turns)[i] == Reading(1, WorstScores(f, caps), OffsetAfter(p, 0.0, verdicts), None)
      {
        JudgedBefore(verdicts, WorstScores(f, caps), p.minPersistence, i + 1);
      }
      WorstRun(p, f, caps, Played(p, turns), OffsetAfter(p, 0.0, verdicts));
    }
  }

  const HST_AND_PRIOR := Caps(0.0, 1.0, 0.0, 1.0)
  const Z_ALONE := Caps(1.0, 0.0, 0.0, 0.0)
  const DRIFT_ALONE := Caps(0.0, 0.0, 1.0, 0.0)

  /** With z and drift silent, the risk is at most (wA*share + wP) / (wA + wD + wP). */
  lemma HstAndPriorCap(f: FusionParams)
    requires f.Valid()
    ensures var q := f.WithDefaults();
            Total(q) > 0.0 && RiskCap(f, HST_AND_PRIOR) == (q.wAnomaly * q.hstShare + q.wPrior) / Total(q)
  {
    var q := f.WithDefaults();
    DefaultsAreUsable(f);
    RiskIsConvex(f, HST_AND_PRIOR.AsScores(false), 0.0, 1.0);
    RiskIsConvex(f, HST_AND_PRIOR.AsScores(true), 0.0, 1.0);
    BlendMono(q, 0.0, 0.0, 1.0, q.hstShare, 0.0, 1.0);
  }

  const PUMP_ALERTING := Params(0.6, 0.35, 3, 3, 2 * HOUR, 2, 20, Adaptation(0.05, 0.02, 0.2, 0.9))
  const PUMP_FUSION := FusionParams(0.6, 0.25, 0.15, 0.5, 0.35)
  const COMPRESSOR_FUSION := FusionParams(0.55, 0.3, 0.15, 0.5, 0.35)

  /**
    The built-in templates (motor shares the pump's numbers, and all three share
    the alerting parameters): neither the HST detector with the failure prior
    nor the drift detector can ever raise an alert by itself, at any offset and
    so after any feedback. The robust z-score can, after enough confirmations,
    although the fusion rule's comment says no single detector can.
   */
  lemma BuiltInTemplates(f: FusionParams)
    requires f == PUMP_FUSION || f == COMPRESSOR_FUSION
    ensures PUMP_ALERTING.Valid() && f.Valid()
    ensures NeverLeavesNormal(PUMP_ALERTING, f, HST_AND_PRIOR)
    ensures NeverLeavesNormal(PUMP_ALERTING, f, DRIFT_ALONE)
    ensures FeedbackNeverLeavesNormal(PUMP_ALERTING, f, HST_AND_PRIOR)
    ensures FeedbackNeverLeavesNormal(PUMP_ALERTING, f, DRIFT_ALONE)
    ensures FeedbackCanAlert(PUMP_ALERTING, f, Z_ALONE)
  {
    hide NeverLeavesNormal, FeedbackNeverLeavesNormal, FeedbackCanAlert, RiskCap, Fuse;
    BuiltInCaps(f);
    QuietIff(PUMP_ALERTING, f, HST_AND_PRIOR);
    QuietIff(PUMP_ALERTING, f, DRIFT_ALONE);
    FeedbackQuietIff(PUMP_ALERTING, f, HST_AND_PRIOR);
    FeedbackQuietIff(PUMP_ALERTING, f, DRIFT_ALONE);
    FeedbackQuietIff(PUMP_ALERTING, f, Z_ALONE);
  }

  /**
    A class where the offset makes the difference: confirming has no effect, so
    the z-score alone never alerts whatever the verdicts, but it does at an
    offset brought over from parameters that let confirmations count.
   */
  lemma OffsetBroughtOver()
    ensures var p := Params(0.6, 0.35, 3, 3, 0, 0, 0, Adaptation(0.05, 0.0, 0.2, 0.9));
            && p.Valid() && COMPRESSOR_FUSION.Valid()
            && FeedbackNeverLeavesNormal(p, COMPRESSOR_FUSION, Z_ALONE)
            && CanAlert(p, COMPRESSOR_FUSION, Z_ALONE)
  {
    hide NeverLeavesNormal, CanAlert, FeedbackNeverLeavesNormal, FeedbackCanAlert, RiskCap, Fuse, Anomaly;
    var p := Params(0.6, 0.35, 3, 3, 0, 0, 0, Adaptation(0.05, 0.0, 0.2, 0.9));
    UnitCap(COMPRESSOR_FUSION, Z_ALONE);
    AnomalyOfZ();
    QuietIff(p, COMPRESSOR_FUSION, Z_ALONE);
    FeedbackQuietIff(p, COMPRESSOR_FUSION, Z_ALONE);
  }

  lemma AnomalyOfZ()
    ensures Anomaly(COMPRESSOR_FUSION, Z_ALONE.AsScores(true)) == 0.65
  {
  }

  /** With weights that add up to one the cap is a plain weighted sum. */
  lemma UnitCap(f: FusionParams, caps: Caps)
    requires f.Valid() && caps.InRange() && f == f.WithDefaults() && Total(f) == 1.0
    ensures var rest := f.wDrift * caps.drift + f.wPrior * caps.prior;
            RiskCap(f, caps)
            == Max(f.wAnomaly * caps.z + rest, f.wAnomaly * Anomaly(f, caps.AsScores(true)) + rest)
  {
    hide Fuse, Anomaly;
    RiskIsConvex(f, caps.AsScores(false), 0.0, 1.0);
    RiskIsConvex(f, caps.AsScores(true), 0.0, 1.0);
    AnomalyOfEqual(f, caps.AsScores(false));
  }

  lemma BuiltInCaps(f: FusionParams)
    requires f == PUMP_FUSION || f == COMPRESSOR_FUSION
    ensures RiskCap(f, HST_AND_PRIOR) < 0.4 && RiskCap(f, DRIFT_ALONE) < 0.4 && RiskCap(f, Z_ALONE) >= 0.4
    ensures ThresholdFloor(PUMP_ALERTING) == 0.4
  {
    hide Fuse, RiskCap;
    UnitCap(f, HST_AND_PRIOR);
    UnitCap(f, DRIFT_ALONE);
    UnitCap(f, Z_ALONE);
  }
}
