/**
  The in-memory state of one monitored machine (internal/domain/engine/asset.go)
  as a mutable object that owns its policy and its detector pipeline. Its value
  is an `EngineModel.Asset`.
 */
module Machines {
  import opened Common
  import opened Policy
  import opened Extractor
  import opened HstDetector
  import opened Fusion
  import opened Pipeline
  import opened WorkOrders
  import opened DetectorPipe
  import opened EngineModel
  import opened EngineWorld
  import PolicyRuns
  import RateLimit

  class Machine {
    const id: string
    const kernels: Kernels
    const policy: AssetPolicy
    var pipe: Pipe
    var site: string
    var class_: string
    var age: real
    var lastTS: map<string, Time>
    var lastEval: Time
    var evals: nat
    var openAlert: Option<Id>
    var pendingTop: string
    var retry: nat
    ghost var history: History
    ghost var repr: set<object>

    ghost predicate Valid()
      reads this, repr
    {
      && {this, policy} <= repr && pipe in repr && pipe.objects <= repr
      && (policy.assetLimiter != null ==> policy.assetLimiter in repr && policy.assetLimiter !in pipe.objects)
      && {this, policy} !! pipe.objects
      && pipe.Valid() && pipe.id == id && pipe.kernels == kernels
    }

    ghost function Value(): Asset
      requires Valid()
      reads this, repr
    {
      Asset(id, site, class_, pipe.tpl, pipe.SampleValues(), pipe.DetectorValues(), policy.Value(),
            age, lastTS, lastEval, evals, openAlert, pendingTop, retry, history)
    }

    /** What the value says about the fields. */
    lemma Fields()
      requires Valid()
      ensures this in repr
      ensures var a := Value();
              && a.id == id && a.site == site && a.class_ == class_ && a.tpl == pipe.tpl
              && a.lastEval == lastEval && a.openAlert == openAlert && a.pendingTop == pendingTop && a.retry == retry
              && a.history == history
      ensures WellFormed(Value())
    {
      hide Pipe.Valid, Pipe.DetectorValues, AssetPolicy.Value, Template.Valid;
      pipe.SamplesFit();
    }

    lemma OwnsPolicy()
      requires Valid()
      ensures {this, policy} <= repr
    {
    }

    lemma OwnsBuffers()
      requires Valid()
      ensures {this} + pipe.extractor.buffers <= repr
    {
      hide Pipe.Valid;
      pipe.OwnsParts();
    }

    /** A machine first seen, or restored from a snapshot. */
    constructor (kernels: Kernels, draws: Drawing, id: string, site: string, tpl: Template, learned: Baselines,
                 offset: real, age: real, ghost since: Id)
      requires tpl.Valid() && Grown(kernels, draws)
      ensures Valid() && fresh(repr) && this.kernels == kernels
      ensures this.id == id && Value() == BuiltAsset(id, site, tpl, learned, offset, age, since)
    {
      hide Template.Valid, Grown, FreshDetectors, NewPolicy, SetOffset, EmptySamples;
      hide Pipe.Valid, Pipe.SampleValues, Pipe.DetectorValues, AssetPolicy.Value;
      var made := new Pipe(tpl, id, kernels, draws, learned);
      var p := new AssetPolicy(tpl.alerting);
      p.RestoreOffset(offset);
      this.id, this.kernels, this.site, class_ := id, kernels, site, tpl.class_;
      policy, pipe := p, made;
      this.age, lastTS, lastEval, evals := age, map[], ZERO_TIME, 0;
      openAlert, pendingTop, retry := None, "", 0;
      history := History(p.Value(), [], since, [], [], [], 0);
      repr := {this} + p.Repr() + made.objects;
    }

    /** Swaps in a new pipeline and the new parameters. */
    method Install(made: Pipe, known: real)
      requires Valid() && made.Valid() && made.id == id && made.kernels == kernels && made.objects !! repr
      modifies this`pipe, this`class_, this`lastEval, this`history, this`repr, policy
      ensures Valid() && fresh(repr - old(repr) - made.objects) && pipe == made
      ensures policy.Value() == SetOffset(SetParams(old(policy.Value()), made.tpl.alerting), known)
      ensures class_ == made.tpl.class_ && lastEval == ZERO_TIME && history == old(history)
      ensures made.SampleValues() == old(made.SampleValues()) && made.DetectorValues() == old(made.DetectorValues())
    {
      hide SetOffset, SetParams, Pipe.Valid, Pipe.SampleValues, Pipe.DetectorValues, AssetPolicy.Value;
      policy.SwapParams(made.tpl.alerting);
      policy.RestoreOffset(known);
      pipe, class_, lastEval := made, made.tpl.class_, ZERO_TIME;
      repr := repr + made.objects + policy.Repr();
    }

    /** Rebuilds the pipeline on a new template. The episode, the replay guard and the learned offset stay. */
    method Rebuild(t: Template, draws: Drawing, ghost since: Id)
      requires Valid() && t.Valid() && Grown(kernels, draws)
      modifies repr
      ensures Valid() && fresh(repr - old(repr)) && Value() == Rebuilt(old(Value()), t, since)
    {
      hide Template.Valid, Grown, FreshDetectors, SetOffset, SetParams, EmptySamples;
      hide Pipe.Valid, Pipe.SampleValues, Pipe.DetectorValues, AssetPolicy.Value;
      ghost var before := Value();
      policy.OffsetIs();
      pipe.BaselinesAre();
      var made := new Pipe(t, id, kernels, draws, if pipe.fromAsset then pipe.baselines else map[]);
      Install(made, policy.offset);
      history := History(policy.Value(), [], since, [], [], history.accepted, |history.accepted|);
    }

    method IsReady() returns (ready: bool)
      requires Valid()
      ensures ready == Extractor.Ready(Value().tpl.specs, Value().samples)
    {
      ready := pipe.IsReady();
    }

    /** The values of one metric into its signal's window. */
    method PushWindow(cfg: Config, m: Metric) returns (taken: PushResult)
      requires Valid()
      modifies pipe.extractor.buffers
      ensures Valid() && repr == old(repr) && Fits(old(Value()).tpl.specs, old(Value()).samples)
      ensures var a := old(Value());
              var (samples, result) := PushReading(cfg.units, a.tpl.specs, a.samples, m.signal, m.Values(), m.unit);
              Value() == a.(samples := samples) && taken == result
    {
      hide Pipe.Valid, Pipe.SampleValues, Pipe.DetectorValues, AssetPolicy.Value, Fits, PushReading;
      pipe.SamplesFit();
      pipe.OwnsParts();
      taken := pipe.Push(cfg.units, m.signal, m.Values(), m.unit);
    }

    /** Moves the signal's high-water mark. */
    method Mark(m: Metric)
      requires Valid()
      modifies this`lastTS, this`history
      ensures Valid() && repr == old(repr) && Value() == Marked(old(Value()), m)
    {
      hide Pipe.Valid, Pipe.SampleValues, Pipe.DetectorValues, AssetPolicy.Value;
      lastTS := lastTS[m.signal := m.ts];
      history := history.(accepted := history.accepted + [m]);
    }

    method SetAge(hours: real)
      requires Valid()
      modifies this`age
      ensures Valid() && repr == old(repr) && Value() == old(Value()).(age := hours)
    {
      hide Pipe.Valid, Pipe.SampleValues, Pipe.DetectorValues, AssetPolicy.Value;
      age := hours;
    }

    /** One metric: class check, replay guard, then the runtime counter or the signal's window. */
    method Push(cfg: Config, m: Metric) returns (pushed: Pushed)
      requires Valid()
      modifies this, pipe.extractor.buffers
      ensures Valid() && repr == old(repr) && Fits(old(Value()).tpl.specs, old(Value()).samples)
      ensures (Value(), pushed) == PushMetric(cfg, old(Value()), m)
    {
      hide Pipe.Valid, Pipe.SampleValues, Pipe.DetectorValues, AssetPolicy.Value, Fits, PushReading;
      pipe.SamplesFit();
      pipe.OwnsParts();
      if m.class_ != "" && m.class_ != class_ {
        return Rejected;
      }
      if m.signal in lastTS && !(m.ts > lastTS[m.signal]) {
        return Duplicate;
      }
      if pipe.tpl.runtimeSignal != "" && m.signal == pipe.tpl.runtimeSignal {
        if !Convertible(cfg.units, m.unit, "h") {
          return Rejected;
        }
        SetAge(Convert(cfg.units, m.value, m.unit, "h"));
      } else {
        var taken := PushWindow(cfg, m);
        if !taken.Pushed? {
          return Rejected;
        }
      }
      Mark(m);
      return Accepted;
    }

    /** Takes the site of a metric when none was known. */
    method JoinSite(at: string)
      requires Valid()
      modifies this`site
      ensures Valid() && repr == old(repr)
      ensures Value() == if at != DEFAULT_SITE && old(site) == DEFAULT_SITE
                         then old(Value()).(site := at) else old(Value())
    {
      hide Pipe.Valid, Pipe.SampleValues, Pipe.DetectorValues, AssetPolicy.Value;
      if at != DEFAULT_SITE && site == DEFAULT_SITE {
        site := at;
      }
    }

    /** Opens an evaluation: extracts the features and warms up on them. */
    method StartEvaluation(ts: Time) returns (features: Features, fitted: bool)
      requires Valid()
      modifies repr
      ensures Valid() && repr == old(repr)
      ensures features == kernels.extract(old(Value()).tpl, old(Value()).samples)
      ensures var a := old(Value());
              var (d, done) := Learn(a.tpl, a.detectors, features);
              fitted == done && Value() == a.(lastEval := ts, evals := a.evals + 1, detectors := d)
    {
      hide Pipe.Valid, Pipe.SampleValues, Pipe.DetectorValues, AssetPolicy.Value, Learn;
      lastEval := ts;
      evals := evals + 1;
      var samples := pipe.ReadSamples();
      features := kernels.extract(pipe.tpl, samples);
      pipe.OwnsParts();
      fitted := pipe.Warm(features);
    }

    /** Scores the features of the evaluation. */
    method Score(features: Features) returns (assessment: Assessment, top: string)
      requires Valid() && Value().tpl.Valid()
      modifies repr
      ensures Valid() && repr == old(repr)
      ensures var a := old(Value());
              var (d, assessed, best) := Assess(kernels, a.tpl, a.id, a.detectors, a.age, features);
              (assessment, top) == (assessed, best) && Value() == a.(detectors := d)
    {
      hide Pipe.Valid, Pipe.SampleValues, Pipe.DetectorValues, AssetPolicy.Value, Assess, Template.Valid;
      pipe.OwnsParts();
      assessment, top := pipe.Score(age, features);
    }

    /** Feeds the policy one risk; the site's limiter is shared with other machines. */
    method Feed(ts: Time, risk: real, limiter: RateLimit.RateLimiter?) returns (outcome: Outcome)
      requires Valid() && (limiter != null ==> limiter !in repr)
      modifies repr, limiter
      ensures Valid() && repr == old(repr)
      ensures var a, before := old(Value()), old(LimiterValue(limiter));
              var (p, d, after) := Evaluate(a.policy, ts, risk, before);
              && LimiterValue(limiter) == after && outcome == d.outcome
              && Value() == a.(policy := p, history := a.history.(
                   evaluations := a.history.evaluations + [PolicyRuns.Obs(ts, risk, a.policy.offset, before)]))
    {
      hide Pipe.Valid, Pipe.SampleValues, Pipe.DetectorValues, AssetPolicy.Value, Evaluate;
      policy.OffsetIs();
      ghost var before := LimiterValue(limiter);
      history := history.(evaluations := history.evaluations + [PolicyRuns.Obs(ts, risk, policy.offset, before)]);
      var d := policy.EvaluateRisk(ts, risk, limiter);
      outcome := d.outcome;
    }

    /** Adapts the threshold to a verdict on one of the machine's alerts. */
    method Judge(ghost alert: Id, v: Verdict)
      requires Valid()
      modifies this`history, policy
      ensures Valid() && repr == old(repr) && Value() == Judged(old(Value()), alert, v)
    {
      hide Pipe.Valid, Pipe.SampleValues, Pipe.DetectorValues, AssetPolicy.Value, ApplyFeedback;
      var before, after, clamped := policy.Adapt(v);
      history := history.(judged := history.judged + [(alert, v)]);
    }

    /** What the store keeps of the machine. */
    method TakeSnapshot() returns (s: Snapshot)
      requires Valid()
      ensures var a := Value();
              var learned := if a.detectors.fromAsset then a.detectors.baselines else map[];
              s == Snapshot(a.id, a.site, a.class_, learned, a.policy.offset, a.age)
    {
      policy.OffsetIs();
      pipe.BaselinesAre();
      s := Snapshot(id, site, class_, if pipe.fromAsset then pipe.baselines else map[], policy.offset, age);
    }

    /** The alert of the episode that fired. */
    method OpenAlert(alert: Id)
      requires Valid()
      modifies this`openAlert, this`history
      ensures Valid() && repr == old(repr) && Value() == old(Value()).(openAlert := Some(alert),
                history := old(history).(raised := old(history).raised + [alert]))
    {
      hide Pipe.Valid, Pipe.SampleValues, Pipe.DetectorValues, AssetPolicy.Value;
      openAlert := Some(alert);
      history := history.(raised := history.raised + [alert]);
    }

    /** A work order could not be raised: remember it for retry. */
    method AwaitRetry(top: string)
      requires Valid()
      modifies this`pendingTop, this`retry
      ensures Valid() && repr == old(repr) && Value() == old(Value()).(pendingTop := top, retry := 0)
    {
      hide Pipe.Valid, Pipe.SampleValues, Pipe.DetectorValues, AssetPolicy.Value;
      pendingTop, retry := top, 0;
    }

    /** One more retry. */
    method CountRetry()
      requires Valid()
      modifies this`retry
      ensures Valid() && repr == old(repr) && Value() == old(Value()).(retry := old(retry) + 1)
    {
      hide Pipe.Valid, Pipe.SampleValues, Pipe.DetectorValues, AssetPolicy.Value;
      retry := retry + 1;
    }

    /** Nothing is pending any more. */
    method DropPending()
      requires Valid()
      modifies this`pendingTop
      ensures Valid() && repr == old(repr) && Value() == old(Value()).(pendingTop := "")
    {
      hide Pipe.Valid, Pipe.SampleValues, Pipe.DetectorValues, AssetPolicy.Value;
      pendingTop := "";
    }

    /** The episode's alert is closed. */
    method CloseAlert()
      requires Valid()
      modifies this`openAlert
      ensures Valid() && repr == old(repr) && Value() == old(Value()).(openAlert := None)
    {
      hide Pipe.Valid, Pipe.SampleValues, Pipe.DetectorValues, AssetPolicy.Value;
      openAlert := None;
    }
  }
}
