/**
  What a failing store call breaks: when an evaluation takes effect (its risk
  reaches the policy, and the open alert stays in step with the episode), which
  aborts lose it, and when a verdict can move the threshold more than once.
 */
module EngineFaults {
  import opened Common
  import opened Policy
  import opened PolicyRuns
  import opened WorkOrders
  import opened Pipeline
  import opened EngineModel
  import opened EngineEffects
  import opened EngineWorld
  import opened EngineSafety
  import EngineRestart
  import Extractor
  import Fusion

  // ----- Out of step -----

  /** There is an open alert exactly in an alerted episode. */
  predicate InStep(a: Asset) {
    a.openAlert.Some? <==> a.policy.state.Active? && a.policy.alerted
  }

  /** The store calls that matter succeed: saving the alert of a fire; loading and saving the open alert on a clear. */
  predicate Recorded(f: Faults, env: Env, a: Asset, o: Outcome) {
    && (o.Fire? ==> !f.store(env.calls))
    && (o.Clear? && a.openAlert.Some? ==>
          !f.store(env.calls) && (a.openAlert.value in env.alerts ==> !f.store(env.calls + 1)))
  }

  lemma FireOpensIff(f: Faults, s: Progress, ts: Time, as_: Fusion.Assessment, top: string)
    ensures var a' := OnFire(f, s, ts, as_, top).asset;
            && a'.policy == s.asset.policy && a'.history.evaluations == s.asset.history.evaluations
            && a'.openAlert == if f.store(s.env.calls) then s.asset.openAlert else Some(s.env.nextId)
  {
    hide RaiseOrder;
  }

  lemma HoldKeepsOpen(cfg: Config, f: Faults, s: Progress)
    ensures var a' := OnHold(cfg, f, s).asset;
            && a'.policy == s.asset.policy && a'.history.evaluations == s.asset.history.evaluations
            && a'.openAlert == s.asset.openAlert
  {
    hide RaiseOrder;
  }

  lemma ClearClosesIff(f: Faults, s: Progress, ts: Time)
    ensures var a' := OnClear(f, s, ts).asset;
            && a'.policy == s.asset.policy && a'.history.evaluations == s.asset.history.evaluations
            && (a'.openAlert.None? <==> Recorded(f, s.env, s.asset, Clear))
  {
  }

  /**
    From a state in step, feeding the policy and acting on the outcome ends in
    step if and only if the store calls that matter to the outcome succeed. Every
    other failure (of the maintenance system, of loading an alert for a retry, of
    saving an order or a link) leaves the asset in step.
   */
  lemma DecideStaysInStepIff(cfg: Config, f: Faults, s: Progress, ts: Time, as_: Fusion.Assessment, top: string)
    requires InStep(s.asset)
    ensures InStep(Decide(cfg, f, s, ts, as_, top).asset)
            <==> Recorded(f, s.env, s.asset, FeedPolicy(s, ts, as_.risk).1)
    ensures |Decide(cfg, f, s, ts, as_, top).asset.history.evaluations| == |s.asset.history.evaluations| + 1
  {
    hide FeedPolicy, Evaluate, OnFire, OnHold, OnClear, SiteLimiter;
    FeedPolicyFrame(s, ts, as_.risk);
    OutcomeStates(s.asset.policy, ts, as_.risk, SiteLimiter(s.env, s.asset));
    var (s1, o) := FeedPolicy(s, ts, as_.risk);
    FireOpensIff(f, s1, ts, as_, top);
    HoldKeepsOpen(cfg, f, s1);
    ClearClosesIff(f, s1, ts);
  }

  /** The warm-up, if this evaluation finishes it, can be persisted. */
  predicate WarmUpSaved(cfg: Config, f: Faults, s: Progress) {
    EngineRestart.Fits(cfg, s) ==> !f.store(s.env.calls)
  }

  /** An evaluation took effect: the policy was fed one more risk, and the open alert is in step with the episode. */
  predicate TookEffect(a: Asset, a': Asset) {
    InStep(a') && |a'.history.evaluations| == |a.history.evaluations| + 1
  }

  /**
    When an evaluation takes effect: from a state in step, if and only if the
    snapshot of a warm-up it finishes can be saved, the alert of a fire can be
    saved, and the open alert can be loaded and saved on a clear. An evaluation
    aborted at the warm-up snapshot leaves policy and snapshots as they were. In
    every case its instant counts as evaluated: nothing up to it calls for an
    evaluation again.
   */
  lemma EvaluationTakesEffectIff(cfg: Config, f: Faults, s: Progress, ts: Time)
    requires WellFormed(s.asset) && InStep(s.asset) && Evaluates(s.asset, ts)
    ensures var x, s' := Examine(cfg, f, s, ts), EvaluateIfReady(cfg, f, s, ts);
            var recorded := Recorded(f, x.s.env, s.asset, FeedPolicy(x.s, ts, x.assessment.risk).1);
            && (TookEffect(s.asset, s'.asset) <==> WarmUpSaved(cfg, f, s) && recorded)
            && (InStep(s'.asset) <==> !WarmUpSaved(cfg, f, s) || recorded)
            && (!WarmUpSaved(cfg, f, s) ==>
                  && !s'.ok && s'.asset.policy == s.asset.policy && s'.env.snapshots == s.env.snapshots
                  && s'.asset.history.evaluations == s.asset.history.evaluations)
            && WellFormed(s'.asset) && s'.asset.lastEval == ts
            && forall t :: t <= ts ==> !Evaluates(s'.asset, t)
  {
    EvaluateShape(cfg, f, s, ts);
    EvaluateKeepsInputs(cfg, f, s, ts);
    assert InputsOf(EvaluateIfReady(cfg, f, s, ts).asset).lastEval == ts;
    hide Examine, Decide, FeedPolicy, EngineRestart.Fits, Recorded;
    ExamineFrame(cfg, f, s, ts);
    EngineRestart.ExamineSnapshots(cfg, f, s, ts);
    var x := Examine(cfg, f, s, ts);
    DecideStaysInStepIff(cfg, f, x.s, ts, x.assessment, x.top);
  }

  lemma ReactAborts(cfg: Config, f: Faults, s: Progress, ts: Time, as_: Fusion.Assessment, top: string, o: Outcome)
    requires s.ok && !React(cfg, f, s, ts, as_, top, o).ok
    ensures o.Hold? || !Recorded(f, s.env, s.asset, o)
  {
    hide RaiseOrder;
  }

  /**
    Of the evaluations that abort a batch, exactly those in which the episode
    holds (the open alert could not be loaded to retry its work order) have taken
    effect. Every other abort has lost its evaluation.
   */
  lemma AbortKeepsIffHold(cfg: Config, f: Faults, s: Progress, ts: Time)
    requires WellFormed(s.asset) && InStep(s.asset) && Evaluates(s.asset, ts) && !EvaluateIfReady(cfg, f, s, ts).ok
    ensures var x := Examine(cfg, f, s, ts);
            TookEffect(s.asset, EvaluateIfReady(cfg, f, s, ts).asset)
            <==> x.s.ok && FeedPolicy(x.s, ts, x.assessment.risk).1.Hold?
  {
    hide Examine, FeedPolicy, EngineRestart.Fits, React, Evaluates;
    ExamineFrame(cfg, f, s, ts);
    EngineRestart.ExamineSnapshots(cfg, f, s, ts);
    EvaluationTakesEffectIff(cfg, f, s, ts);
    var x := Examine(cfg, f, s, ts);
    if x.s.ok {
      FeedPolicyFrame(x.s, ts, x.assessment.risk);
      var (s1, o) := FeedPolicy(x.s, ts, x.assessment.risk);
      ReactAborts(cfg, f, s1, ts, x.assessment, x.top, o);
    }
  }

  /** Nothing else moves an asset in or out of step, and an asset built anew starts in step. */
  lemma OnlyEvaluationsMoveStep(
    cfg: Config, a: Asset, m: Metric, id: Id, v: Verdict, tpl: Template, s: Snapshot, templates: map<string, Template>)
    requires WellFormed(a)
    ensures InStep(PushMetric(cfg, a, m).0) <==> InStep(a)
    ensures InStep(Judged(a, id, v)) <==> InStep(a)
    ensures InStep(Rebuilt(a, tpl, id)) <==> InStep(a)
    ensures s.class_ in templates ==> InStep(Restored(a.id, s, templates, id))
  {
    hide Extractor.PushReading, FreshDetectors;
  }

  // ----- Verdicts that count twice -----

  /** Cancelling an order never stops a verdict: whether adapting succeeds is decided by saving the snapshot. */
  lemma AdaptingIff(f: Faults, env: Env, a: Asset, alert: Alert, v: Verdict)
    ensures var (env1, ok) := AfterAdapting(f, env, a, alert, v);
            && (ok <==> !f.store(env.calls)) && env.calls < env1.calls && env1.alerts == env.alerts
  {
    hide CancelOrder;
    if alert.workOrder.Some? {
      CancelFrame(f, SaveSnapshot(f, env, a).0, alert.workOrder.value);
      CancelCalls(f, SaveSnapshot(f, env, a).0, alert.workOrder.value);
    }
  }

  lemma CancelCalls(f: Faults, env: Env, id: Id)
    ensures env.calls < CancelOrder(f, env, id).calls
  {
    hide CmmsCancel, SaveOrder;
    if id in env.orders {
      var env1, wo := Called(env), env.orders[id].(status := OrderCancelled);
      SaveOrderCalls(f, env1, wo);
      if wo.external.Some? {
        var env2 := CmmsCancel(f, env1, wo.external.value).0;
        CmmsCancelCalls(f, env1, wo.external.value);
        SaveOrderCalls(f, env2, wo);
      }
    }
  }

  lemma SaveOrderCalls(f: Faults, env: Env, wo: WorkOrder)
    ensures SaveOrder(f, env, wo).0.calls == env.calls + 1
  {
  }

  lemma CmmsCancelCalls(f: Faults, env: Env, ref: nat)
    ensures CmmsCancel(f, env, ref).0.calls == env.calls + 1
  {
    hide CancelRecord;
  }

  /** The call reaches an open alert of a known asset. */
  ghost predicate Reaches(f: Faults, w: World, id: Id) {
    && Judges(f, w, id) && w.env.alerts[id].id == id && w.env.alerts[id].asset in w.assets
  }

  /** The world after the asset adapted: the call that saves the verdict is the next one. */
  function Adapted(f: Faults, w: World, id: Id, v: Verdict): Env
    requires id in w.env.alerts && w.env.alerts[id].asset in w.assets
  {
    var alert := w.env.alerts[id];
    AfterAdapting(f, Called(w.env), Judged(w.assets[alert.asset], id, v), alert, v).0
  }

  /**
    A first verdict moves the threshold whatever fails. The alert stays open, to
    be judged again, if and only if saving the snapshot or saving the alert
    fails; in the second case a linked order may already have been cancelled, and
    that stays.
   */
  lemma VerdictSticksIff(f: Faults, w: World, id: Id, v: Verdict)
    requires Reaches(f, w, id)
    ensures var (w', reply) := Feedback(f, w, id, v);
            var alert, env1 := w.env.alerts[id], Adapted(f, w, id, v);
            && w'.assets == w.assets[alert.asset := Judged(w.assets[alert.asset], id, v)]
            && id in w'.env.alerts
            && (w'.env.alerts[id].status.AlertOpen? <==> f.store(w.env.calls + 1) || f.store(env1.calls))
            && (reply == StoreError <==> w'.env.alerts[id].status.AlertOpen?)
            && (!w'.env.alerts[id].status.AlertOpen? ==> reply == Applied && w'.env.alerts[id].status == StatusFor(v))
            && w'.env.orders == env1.orders && w'.env.cmms == env1.cmms
            && w'.env.alerts[id].asset == alert.asset && w'.env.alerts[id].id == id
  {
    hide AfterAdapting, Judged;
    var alert := w.env.alerts[id];
    AdaptingIff(f, Called(w.env), Judged(w.assets[alert.asset], id, v), alert, v);
  }

  /**
    One alert, two verdicts: when saving the snapshot or the alert fails, a second
    call that reaches the store applies its own verdict on top of the first. Two
    dismissals move the threshold twice, as long as the clamp leaves room.
   */
  lemma FailedSaveMovesTwice(f: Faults, w: World, id: Id, v1: Verdict, v2: Verdict)
    requires Reaches(f, w, id) && (f.store(w.env.calls + 1) || f.store(Adapted(f, w, id, v1).calls))
    requires !f.store(Feedback(f, w, id, v1).0.env.calls)
    ensures Reaches(f, Feedback(f, w, id, v1).0, id)
    ensures var (asset, w2) := (w.env.alerts[id].asset, Feedback(f, Feedback(f, w, id, v1).0, id, v2).0);
            var a, a' := w.assets[asset], w2.assets[asset];
            var once := OffsetAfter(a.policy.p, a.policy.offset, [v1]);
            && a'.policy.offset == OffsetAfter(a.policy.p, a.policy.offset, [v1, v2])
            && a'.history.judged == a.history.judged + [(id, v1), (id, v2)]
            && (v2.Dismiss? && a.policy.p.adaptation.dismissStep > 0.0 && once < a.policy.p.adaptation.maxOffset
                ==> a'.policy.offset > once)
  {
    hide Feedback, AfterAdapting;
    VerdictSticksIff(f, w, id, v1);
    var w1 := Feedback(f, w, id, v1).0;
    VerdictSticksIff(f, w1, id, v2);
    var a := w.assets[w.env.alerts[id].asset];
    var p, o := a.policy.p, a.policy.offset;
    assert [v1, v2][..1] == [v1] && [v1][..0] == [];
    assert OffsetAfter(p, o, []) == o;
    assert OffsetAfter(p, o, [v1]) == ClampOffset(p, Wanted(p, o, v1));
    assert OffsetAfter(p, o, [v1, v2]) == ClampOffset(p, Wanted(p, OffsetAfter(p, o, [v1]), v2));
    assert a.history.judged + [(id, v1)] + [(id, v2)] == a.history.judged + [(id, v1), (id, v2)];
  }
}
