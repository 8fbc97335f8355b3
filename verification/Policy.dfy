/**
  The alert policy of internal/domain/alerting/policy.go: hysteresis,
  persistence, suppression, two rate limits and a clamped feedback offset.
  `Evaluate` and its companions are the policy as functions on values;
  `AssetPolicy` is the mutable object the engine holds.
 */
module Policy {
  import opened Common
  import opened RateLimit

  datatype Adaptation = Adaptation(dismissStep: real, confirmStep: real, maxOffset: real, maxThreshold: real)

  datatype Params = Params(
    onThreshold: real, offThreshold: real,
    minPersistence: int, clearPersistence: int,
    suppression: Time, maxPerAsset: int, maxPerSite: int,
    adaptation: Adaptation)
  {
    predicate Valid() {
      && 0.0 < onThreshold <= 1.0
      && 0.0 <= offThreshold < onThreshold
      && minPersistence >= 1 && clearPersistence >= 1
      && suppression >= 0 && maxPerAsset >= 0 && maxPerSite >= 0
      && adaptation.dismissStep >= 0.0 && adaptation.confirmStep >= 0.0 && adaptation.maxOffset >= 0.0
      && (adaptation.maxThreshold != 0.0 ==> onThreshold < adaptation.maxThreshold <= 1.0)
    }
  }

  datatype State = Normal | Pending | Active

  datatype Outcome = NoOutcome | PendingOutcome | Fire | Suppressed | RateLimited | Hold | Clear

  datatype Decision = Decision(
    outcome: Outcome, state: State, risk: real, threshold: real, persistence: int, meanRisk: real)

  datatype PolicyState = PolicyState(
    p: Params, state: State, above: int, below: int, riskSum: real,
    suppressedUntil: Time, offset: real, alerted: bool, limiter: Option<Limiter>)

  datatype Verdict = Confirm | Dismiss

  function FreshLimiter(p: Params): Option<Limiter> {
    if p.maxPerAsset > 0 then Some(Limiter(p.maxPerAsset, HOUR, [])) else None
  }

  function NewPolicy(p: Params): PolicyState {
    PolicyState(p, Normal, 0, 0, 0.0, ZERO_TIME, 0.0, false, FreshLimiter(p))
  }

  function ClampOffset(p: Params, o: real): real {
    var m := p.adaptation.maxOffset;
    if o > m then m else if o < -m then -m else o
  }

  function SetOffset(s: PolicyState, o: real): PolicyState {
    s.(offset := ClampOffset(s.p, o))
  }

  function SetParams(s: PolicyState, p: Params): PolicyState {
    s.(p := p, limiter := FreshLimiter(p), offset := ClampOffset(p, s.offset))
  }

  function ThresholdCeiling(p: Params): real {
    if p.adaptation.maxThreshold == 0.0 then 1.0 else p.adaptation.maxThreshold
  }

  function EffectiveThreshold(p: Params, offset: real): real {
    var t := p.onThreshold + offset;
    var capped := if t > ThresholdCeiling(p) then ThresholdCeiling(p) else t;
    if capped < p.offThreshold + 0.01 then p.offThreshold + 0.01 else capped
  }

  function Wanted(p: Params, offset: real, v: Verdict): real {
    match v
    case Dismiss => offset + p.adaptation.dismissStep
    case Confirm => offset - p.adaptation.confirmStep
  }

  /** Rule ADAPT-1. */
  function ApplyFeedback(s: PolicyState, v: Verdict): PolicyState {
    s.(offset := ClampOffset(s.p, Wanted(s.p, s.offset, v)))
  }

  /** A nil limiter allows everything. */
  function Admit(l: Option<Limiter>, now: Time): (bool, Option<Limiter>) {
    match l
    case None => (true, None)
    case Some(limiter) => var (ok, after) := Allow(limiter, now); (ok, Some(after))
  }

  /** Opening an episode: suppression is asked first, then the asset's limiter, then the site's. */
  function Open(suppressedUntil: Time, asset: Option<Limiter>, now: Time, site: Option<Limiter>)
    : (Outcome, Option<Limiter>, Option<Limiter>)
  {
    if now < suppressedUntil then (Suppressed, asset, site)
    else
      var (assetOk, asset') := Admit(asset, now);
      if !assetOk then (RateLimited, asset', site)
      else
        var (siteOk, site') := Admit(site, now);
        (if siteOk then Fire else RateLimited, asset', site')
  }

  /** Mean over a persistence run; the run is never empty in a policy that was only ever evaluated. */
  function Mean(sum: real, n: int): real {
    if n == 0 then 0.0 else sum / n as real
  }

  /** Rule ALERT-1: one risk observation at event time `now`. */
  function Evaluate(s: PolicyState, now: Time, risk: real, site: Option<Limiter>)
    : (PolicyState, Decision, Option<Limiter>)
  {
    var thr := EffectiveThreshold(s.p, s.offset);
    if !s.state.Active? then
      if risk < thr then
        (s.(above := 0, riskSum := 0.0, state := Normal), Decision(NoOutcome, Normal, risk, thr, 0, 0.0), site)
      else
        var above, sum := s.above + 1, s.riskSum + risk;
        if above < s.p.minPersistence then
          (s.(above := above, riskSum := sum, state := Pending),
           Decision(PendingOutcome, Pending, risk, thr, above, 0.0), site)
        else
          var (outcome, limiter, site') := Open(s.suppressedUntil, s.limiter, now, site);
          (s.(above := above, riskSum := sum, state := Active, below := 0, limiter := limiter,
              alerted := outcome == Fire),
           Decision(outcome, Active, risk, thr, above, Mean(sum, above)), site')
    else if risk >= s.p.offThreshold then
      (s.(below := 0), Decision(Hold, Active, risk, thr, 0, 0.0), site)
    else if s.below + 1 < s.p.clearPersistence then
      (s.(below := s.below + 1), Decision(Hold, Active, risk, thr, 0, 0.0), site)
    else
      (s.(state := Normal, above := 0, riskSum := 0.0, below := 0, alerted := false,
          suppressedUntil := now + s.p.suppression),
       Decision(Clear, Normal, risk, thr, 0, 0.0), site)
  }

  // ----- What one call guarantees -----

  /**
    The bound on the threshold that the code keeps. The floor above the off
    threshold is applied last, so the maximum threshold is exceeded exactly
    when it lies below that floor.
   */
  lemma ThresholdRange(p: Params, offset: real)
    requires p.Valid()
    ensures var t := EffectiveThreshold(p, offset);
            && p.offThreshold < p.offThreshold + 0.01 <= t <= Max(ThresholdCeiling(p), p.offThreshold + 0.01)
    ensures (forall o :: EffectiveThreshold(p, o) <= ThresholdCeiling(p))
            <==> p.offThreshold + 0.01 <= ThresholdCeiling(p)
  {
    if p.offThreshold + 0.01 > ThresholdCeiling(p) {
      assert EffectiveThreshold(p, 0.0) > ThresholdCeiling(p);
    }
  }

  /** The offset shifts the threshold one for one inside the band, and the band's ends stop it. */
  lemma ThresholdFollowsOffset(p: Params, offset: real, more: real)
    ensures var t, wanted := EffectiveThreshold(p, offset), p.onThreshold + offset;
            var floor, ceiling := p.offThreshold + 0.01, ThresholdCeiling(p);
            && (floor <= wanted <= ceiling ==> t == wanted)
            && (wanted < floor ==> t == floor)
            && (wanted > ceiling ==> t == Max(ceiling, floor))
            && (more >= 0.0 ==> t <= EffectiveThreshold(p, offset + more) <= t + more)
            && (p.adaptation.maxThreshold == 0.0 ==> ceiling == 1.0)
            && (p.adaptation.maxThreshold != 0.0 ==> ceiling == p.adaptation.maxThreshold)
  {
  }

  /** Valid parameters whose threshold leaves the documented ceiling. */
  lemma ThresholdAboveCeiling()
    ensures var p := Params(0.894, 0.893, 1, 1, 0, 0, 0, Adaptation(0.05, 0.02, 0.2, 0.895));
            p.Valid() && EffectiveThreshold(p, 0.0) > p.adaptation.maxThreshold
  {
    assert EffectiveThreshold(Params(0.894, 0.893, 1, 1, 0, 0, 0, Adaptation(0.05, 0.02, 0.2, 0.895)), 0.0) == 0.903;
  }

  // ----- The mutable policy -----

  class AssetPolicy {
    var p: Params
    var state: State
    var aboveCount: int
    var belowCount: int
    var riskSum: real
    var suppressedUntil: Time
    var offset: real
    var alerted: bool
    var assetLimiter: RateLimiter?

    function Repr(): set<object>
      reads this
    {
      if assetLimiter == null then {this} else {this, assetLimiter}
    }

    function Value(): PolicyState
      reads this, assetLimiter
    {
      PolicyState(p, state, aboveCount, belowCount, riskSum, suppressedUntil, offset, alerted,
                  LimiterValue(assetLimiter))
    }

    lemma OffsetIs()
      ensures Value().offset == offset
    {
    }

    constructor (p: Params)
      ensures Value() == NewPolicy(p) && fresh(Repr())
    {
      this.p := p;
      state, aboveCount, belowCount, riskSum := Normal, 0, 0, 0.0;
      suppressedUntil, offset, alerted := ZERO_TIME, 0.0, false;
      if p.maxPerAsset > 0 {
        var limiter := new RateLimiter(p.maxPerAsset, HOUR);
        assetLimiter := limiter;
      } else {
        assetLimiter := null;
      }
    }

    /** Swaps the class parameters, keeping the learned offset and the episode. */
    method SwapParams(p: Params)
      modifies this
      ensures Value() == SetParams(old(Value()), p)
      ensures fresh(Repr() - {this})
    {
      this.p := p;
      if p.maxPerAsset > 0 {
        assetLimiter := new RateLimiter(p.maxPerAsset, HOUR);
      } else {
        assetLimiter := null;
      }
      offset := ClampOffset(p, offset);
    }

    method RestoreOffset(o: real)
      modifies this
      ensures Value() == SetOffset(old(Value()), o) && assetLimiter == old(assetLimiter)
    {
      offset := ClampOffset(p, o);
    }

    method Adapt(v: Verdict) returns (before: real, after: real, clamped: bool)
      modifies this
      ensures Value() == ApplyFeedback(old(Value()), v) && assetLimiter == old(assetLimiter)
      ensures before == old(offset) && after == offset
      ensures !clamped <==> after == Wanted(p, before, v)
    {
      before := offset;
      var want := offset;
      match v {
        case Dismiss => want := offset + p.adaptation.dismissStep;
        case Confirm => want := offset - p.adaptation.confirmStep;
      }
      offset := ClampOffset(p, want);
      after, clamped := offset, offset != want;
    }

    /** Asks suppression, then the asset's limiter, then the site's, and records whether the episode alerts. */
    method OpenEpisode(now: Time, siteLimiter: RateLimiter?) returns (outcome: Outcome)
      requires siteLimiter != null ==> siteLimiter != assetLimiter
      modifies this`alerted, assetLimiter, siteLimiter
      ensures (outcome, LimiterValue(assetLimiter), LimiterValue(siteLimiter))
              == Open(suppressedUntil, old(LimiterValue(assetLimiter)), now, old(LimiterValue(siteLimiter)))
      ensures alerted == (outcome == Fire)
    {
      alerted := false;
      if now < suppressedUntil {
        return Suppressed;
      }
      if assetLimiter != null {
        var ok := assetLimiter.TryAllow(now);
        if !ok {
          return RateLimited;
        }
      }
      if siteLimiter != null {
        var ok := siteLimiter.TryAllow(now);
        if !ok {
          return RateLimited;
        }
      }
      alerted := true;
      return Fire;
    }

    /** One risk observation; the site limiter may be nil and is never the asset's own. */
    method EvaluateRisk(now: Time, risk: real, siteLimiter: RateLimiter?) returns (d: Decision)
      requires siteLimiter != null ==> siteLimiter != assetLimiter
      modifies this, assetLimiter, siteLimiter
      ensures (Value(), d, LimiterValue(siteLimiter))
              == Evaluate(old(Value()), now, risk, old(LimiterValue(siteLimiter)))
      ensures assetLimiter == old(assetLimiter)
    {
      hide Mean, EffectiveThreshold, Open;
      var thr := EffectiveThreshold(p, offset);
      d := Decision(NoOutcome, state, risk, thr, 0, 0.0);
      if !state.Active? {
        if risk < thr {
          aboveCount, riskSum := 0, 0.0;
          state := Normal;
          return d.(state := state);
        }
        aboveCount := aboveCount + 1;
        riskSum := riskSum + risk;
        d := d.(persistence := aboveCount);
        if aboveCount < p.minPersistence {
          state := Pending;
          return d.(state := state, outcome := PendingOutcome);
        }
        var mean := Mean(riskSum, aboveCount);
        var outcome := OpenEpisode(now, siteLimiter);
        state := Active;
        belowCount := 0;
        return d.(state := state, meanRisk := mean, outcome := outcome);
      }
      if risk >= p.offThreshold {
        belowCount := 0;
        return d.(outcome := Hold);
      }
      belowCount := belowCount + 1;
      if belowCount < p.clearPersistence {
        return d.(outcome := Hold);
      }
      state := Normal;
      aboveCount, riskSum, belowCount := 0, 0.0, 0;
      suppressedUntil := now + p.suppression;
      alerted := false;
      return d.(state := state, outcome := Clear);
    }
  }

  function LimiterValue(l: RateLimiter?): Option<Limiter>
    reads l
  {
    if l == null then None else Some(l.Value())
  }
}
