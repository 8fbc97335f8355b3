/**
  The engine protocol of internal/domain/engine/engine.go as functions on
  values: ingest, evaluation, work orders, feedback and template updates over
  the in-memory store and the simulated maintenance system. Every store or
  maintenance call may fail: call number n fails when the fault oracle says so,
  and a failed call has no effect.
 */
module EngineModel {
  import opened Common
  import opened RateLimit
  import opened Policy
  import opened PolicyRuns
  import opened Extractor
  import opened WorkOrders
  import opened Fusion
  import opened Pipeline
  import HstDetector

  // ----- Entities -----

  datatype Metric = Metric(
    asset: string, site: string, class_: string, signal: string, unit: string,
    value: real, samples: seq<real>, ts: Time)
  {
    /** The readings carried: a burst or a scalar. */
    function Values(): (vs: seq<real>)
      ensures vs != []
    {
      if samples != [] then samples else [value]
    }
  }

  const DEFAULT_SITE := "default"
  const MAX_SAMPLES := 16384

  predicate IdentChar(c: char) {
    'a' <= c <= 'z' || 'A' <= c <= 'Z' || '0' <= c <= '9' || c in "-_.:/"
  }

  predicate IdentOk(s: string) {
    |s| <= 128 && forall i :: 0 <= i < |s| ==> IdentChar(s[i])
  }

  /** Validation, with the default site filled in. */
  function Validated(m: Metric): Option<Metric> {
    var site := if m.site == "" then DEFAULT_SITE else m.site;
    if m.asset == "" || !IdentOk(m.asset) || m.signal == "" || !IdentOk(site) || m.ts == ZERO_TIME
      || |m.samples| > MAX_SAMPLES
    then None
    else Some(m.(site := site))
  }

  /**
    Asset identifiers that pass validation make idempotency keys that identify
    their triples, whatever the failure modes.
   */
  lemma KeysIdentify(m1: Metric, f1: string, x1: string, m2: Metric, f2: string, x2: string)
    requires Validated(m1).Some? && Validated(m2).Some? && '|' !in x1 && '|' !in x2
    ensures KeyText(m1.asset, f1, x1) == KeyText(m2.asset, f2, x2) <==> m1.asset == m2.asset && f1 == f2 && x1 == x2
  {
    assert forall c :: IdentChar(c) ==> c != '|';
    if KeyText(m1.asset, f1, x1) == KeyText(m2.asset, f2, x2) {
      KeyTextInjective(m1.asset, f1, x1, m2.asset, f2, x2);
    }
  }

  datatype AlertStatus = AlertOpen | Confirmed | Dismissed

  datatype Alert = Alert(
    id: Id, asset: string, failureMode: string, risk: real, confidence: real, status: AlertStatus,
    eventTime: Time, clearedAt: Option<Time>, workOrder: Option<Id>)

  datatype Snapshot = Snapshot(
    asset: string, site: string, class_: string, baselines: HstDetector.Baselines, offset: real, age: real)

  /**
    What the asset has been through since its pipeline was last rebuilt or, for
    the accepted metrics, since it was registered. These are history variables:
    no step reads them.
   */
  datatype History = History(
    origin: PolicyState,              // the policy at the rebuild
    evaluations: seq<Obs>,            // what the policy has been fed since
    since: Id,                        // the first identifier that could be handed out since
    raised: seq<Id>,                  // alerts stored since, in order
    judged: seq<(Id, Verdict)>,       // verdicts applied since, in order
    accepted: seq<Metric>,            // metrics accepted since the asset was registered, in order
    rebuilt: nat)                     // how many of them came before the rebuild

  datatype Asset = Asset(
    id: string, site: string, class_: string, tpl: Template,
    samples: Samples, detectors: Detectors, policy: PolicyState,
    age: real, lastTS: map<string, Time>, lastEval: Time, evals: nat,
    openAlert: Option<Id>, pendingTop: string, retry: nat,
    history: History)

  /** Everything outside the assets: limiters, store, maintenance system, identifiers, and the number of calls made. */
  datatype Env = Env(
    sites: map<string, Limiter>, alerts: map<Id, Alert>, orders: map<Id, WorkOrder>,
    snapshots: map<string, Snapshot>, templates: map<string, Template>,
    cmms: Cmms, nextId: Id, calls: nat)

  /** `born` is the first identifier this engine could hand out: another history variable. */
  datatype World = World(templates: map<string, Template>, assets: map<string, Asset>, env: Env, born: Id)

  datatype Config = Config(units: Units, kernels: Kernels, maxRetry: nat, defaults: map<string, Template>)

  /** Whether call number n fails. */
  datatype Faults = Faults(store: nat -> bool, cmms: nat -> bool)

  ghost predicate StoreWorks(f: Faults) {
    forall n :: !f.store(n)
  }

  datatype Tally = Tally(accepted: nat, rejected: nat, duplicates: nat, evaluated: nat, alerts: nat, workOrders: nat)

  const NOTHING := Tally(0, 0, 0, 0, 0, 0)

  // ----- Store and maintenance calls -----

  function Called(env: Env): Env {
    env.(calls := env.calls + 1)
  }

  function SaveAlert(f: Faults, env: Env, a: Alert): (Env, bool) {
    if f.store(env.calls) then (Called(env), false)
    else (Called(env).(alerts := env.alerts[a.id := a]), true)
  }

  function SaveOrder(f: Faults, env: Env, wo: WorkOrder): (Env, bool) {
    if f.store(env.calls) then (Called(env), false)
    else (Called(env).(orders := env.orders[wo.id := wo]), true)
  }

  function SaveSnapshot(f: Faults, env: Env, a: Asset): (Env, bool) {
    if f.store(env.calls) then (Called(env), false)
    else
      var learned := if a.detectors.fromAsset then a.detectors.baselines else map[];
      var snap := Snapshot(a.id, a.site, a.class_, learned, a.policy.offset, a.age);
      (Called(env).(snapshots := env.snapshots[a.id := snap]), true)
  }

  /** The open orders of an asset and failure mode. */
  ghost function OpenOrders(orders: map<Id, WorkOrder>, asset: string, mode: string): set<Id> {
    set i | i in orders && orders[i].status.OrderOpen? && orders[i].asset == asset && orders[i].failureMode == mode
  }

  ghost function FindOpen(orders: map<Id, WorkOrder>, asset: string, mode: string): (r: Option<WorkOrder>)
    ensures r.Some? <==> OpenOrders(orders, asset, mode) != {}
    ensures r.Some? ==> exists i :: i in OpenOrders(orders, asset, mode) && orders[i] == r.value
  {
    var open := OpenOrders(orders, asset, mode);
    if open == {} then None
    else
      var i :| i in open;
      Some(orders[i])
  }

  function CmmsCreate(f: Faults, env: Env, wo: WorkOrder): (Env, Option<nat>) {
    var called := env.cmms.(calls := env.cmms.calls + [wo.alert]);
    if f.cmms(env.calls) then (Called(env).(cmms := called), None)
    else
      var (c, ref) := Register(called, wo);
      (Called(env).(cmms := c), Some(ref))
  }

  function CmmsCancel(f: Faults, env: Env, ref: nat): (Env, bool) {
    if f.cmms(env.calls) then (Called(env), false)
    else
      var (c, ok) := CancelRecord(env.cmms, ref);
      (Called(env).(cmms := c), ok)
  }

  // ----- Work orders -----

  datatype Raise = Created | Skipped | Failed

  /** Links the alert to its order; the alert is saved again. */
  function LinkOrder(f: Faults, env: Env, alert: Alert, id: Id, done: Raise): (Env, Raise) {
    var (env1, saved) := SaveAlert(f, env, alert.(workOrder := Some(id)));
    (env1, if saved then done else Failed)
  }

  function StoreOrder(f: Faults, env: Env, wo: WorkOrder, alert: Alert): (Env, Raise) {
    var (env1, saved) := SaveOrder(f, env, wo);
    if !saved then (env1, Failed) else LinkOrder(f, env1, alert, wo.id, Created)
  }

  function NewOrder(env: Env, a: Asset, alert: Alert, mode: string): WorkOrder {
    WorkOrder(env.nextId, alert.id, a.id, mode, a.tpl.orders.priority, alert.confidence, alert.risk, OrderOpen, None)
  }

  /** Creates, stores and links a new order for the alert. */
  function CreateOrder(f: Faults, env: Env, a: Asset, alert: Alert, mode: string): (Env, Raise) {
    var wo := NewOrder(env, a, alert, mode);
    var (env1, ref) := CmmsCreate(f, env.(nextId := wo.id + 1), wo);
    if ref.None? then (env1, Failed) else StoreOrder(f, env1, wo.(external := ref), alert)
  }

  /** An order exists already or confidence is too low; an unlinked alert is linked to the open order. */
  function SkipOrder(f: Faults, env: Env, alert: Alert, open: Option<WorkOrder>): (Env, Raise) {
    if open.Some? && alert.workOrder.None? then LinkOrder(f, env, alert, open.value.id, Skipped) else (env, Skipped)
  }

  ghost function RaiseOrder(f: Faults, env: Env, a: Asset, alert: Alert, top: string): (Env, Raise) {
    var mode := a.tpl.orders.ResolveFailureMode(top);
    if f.store(env.calls) then (Called(env), Failed)
    else
      var open := FindOpen(env.orders, a.id, mode);
      if a.tpl.orders.Creates(alert.confidence, open) then CreateOrder(f, Called(env), a, alert, mode)
      else SkipOrder(f, Called(env), alert, open)
  }

  // ----- One evaluation -----

  /** An asset with its surroundings, part way through a batch; `ok` turns false when a store error aborts it. */
  datatype Progress = Progress(env: Env, asset: Asset, tally: Tally, ok: bool)

  function SiteLimiter(env: Env, a: Asset): Option<Limiter> {
    var limit := a.tpl.alerting.maxPerSite;
    if limit <= 0 then None
    else if a.site in env.sites then Some(env.sites[a.site])
    else Some(Limiter(limit, HOUR, []))
  }

  function PutSiteLimiter(env: Env, site: string, l: Option<Limiter>): Env {
    match l
    case None => env
    case Some(limiter) => env.(sites := env.sites[site := limiter])
  }

  function NewAlert(env: Env, a: Asset, ts: Time, s: Assessment, top: string): Alert {
    Alert(env.nextId, a.id, a.tpl.orders.ResolveFailureMode(top), s.risk, s.confidence, AlertOpen, ts, None, None)
  }

  /** The policy fired: store the alert, then try to raise a work order. */
  ghost function OnFire(f: Faults, s: Progress, ts: Time, as_: Assessment, top: string): Progress {
    var alert := NewAlert(s.env, s.asset, ts, as_, top);
    var (env1, saved) := SaveAlert(f, s.env.(nextId := alert.id + 1), alert);
    var tally := s.tally.(alerts := s.tally.alerts + 1);
    if !saved then Progress(env1, s.asset, tally, false)
    else
      var a1 := s.asset.(openAlert := Some(alert.id),
                         history := s.asset.history.(raised := s.asset.history.raised + [alert.id]));
      FirstTry(f, Progress(env1, a1, tally, true), alert, top)
  }

  /** The first attempt at a work order; a failure is remembered for retry. */
  ghost function FirstTry(f: Faults, s: Progress, alert: Alert, top: string): Progress {
    var (env1, outcome) := RaiseOrder(f, s.env, s.asset, alert, top);
    var a1 := if outcome.Failed? then s.asset.(pendingTop := top, retry := 0) else s.asset;
    Progress(env1, a1, CountOrder(s.tally, outcome), true)
  }

  function CountOrder(t: Tally, outcome: Raise): Tally {
    if outcome.Created? then t.(workOrders := t.workOrders + 1) else t
  }

  /** The episode holds: retry a failed work order, at most maxRetry times per episode. */
  ghost function OnHold(cfg: Config, f: Faults, s: Progress): Progress {
    var a := s.asset;
    if a.pendingTop == "" || a.openAlert.None? || a.retry >= cfg.maxRetry then s
    else if f.store(s.env.calls) || a.openAlert.value !in s.env.alerts then
      Progress(Called(s.env), a.(retry := a.retry + 1), s.tally, false)
    else
      TryAgain(f, Progress(Called(s.env), a.(retry := a.retry + 1), s.tally, true), s.env.alerts[a.openAlert.value])
  }

  ghost function TryAgain(f: Faults, s: Progress, alert: Alert): Progress {
    var (env1, outcome) := RaiseOrder(f, s.env, s.asset, alert, s.asset.pendingTop);
    var a1 := if outcome.Failed? then s.asset else s.asset.(pendingTop := "");
    Progress(env1, a1, CountOrder(s.tally, outcome), true)
  }

  /** The episode cleared: stamp its alert. */
  function OnClear(f: Faults, s: Progress, ts: Time): Progress {
    var a1 := s.asset.(pendingTop := "");
    if a1.openAlert.None? then s.(asset := a1)
    else if f.store(s.env.calls) then Progress(Called(s.env), a1, s.tally, false)
    else if a1.openAlert.value !in s.env.alerts then Progress(Called(s.env), a1.(openAlert := None), s.tally, true)
    else
      var (env1, saved) := SaveAlert(f, Called(s.env), s.env.alerts[a1.openAlert.value].(clearedAt := Some(ts)));
      if saved then Progress(env1, a1.(openAlert := None), s.tally, true) else Progress(env1, a1, s.tally, false)
  }

  ghost function React(
      cfg: Config, f: Faults, s: Progress, ts: Time, as_: Assessment, top: string, outcome: Outcome): Progress {
    match outcome
    case Fire => OnFire(f, s, ts, as_, top)
    case Hold => OnHold(cfg, f, s)
    case Clear => OnClear(f, s, ts)
    case _ => s
  }

  /** Feeds the policy one risk, with the site's limiter. */
  function FeedPolicy(s: Progress, ts: Time, risk: real): (Progress, Outcome) {
    var a := s.asset;
    var site := SiteLimiter(s.env, a);
    var (policy, d, site') := Evaluate(a.policy, ts, risk, site);
    var seen := Obs(ts, risk, a.policy.offset, site);
    var a1 := a.(policy := policy, history := a.history.(evaluations := a.history.evaluations + [seen]));
    (Progress(PutSiteLimiter(s.env, a.site, site'), a1, s.tally, true), d.outcome)
  }

  /** The policy's turn: feed it the risk and act on the outcome. */
  ghost function Decide(cfg: Config, f: Faults, s: Progress, ts: Time, as_: Assessment, top: string): Progress {
    var (s1, outcome) := FeedPolicy(s, ts, as_.risk);
    React(cfg, f, s1, ts, as_, top, outcome)
  }

  lemma FeedPolicyFrame(s: Progress, ts: Time, risk: real)
    ensures var (s1, outcome) := FeedPolicy(s, ts, risk);
            var seen := Obs(ts, risk, s.asset.policy.offset, SiteLimiter(s.env, s.asset));
            && s1.asset == s.asset.(policy := s1.asset.policy,
                                    history := s.asset.history.(evaluations := s.asset.history.evaluations + [seen]))
            && s1.env == s.env.(sites := s1.env.sites)
            && s1.tally == s.tally && s1.ok
            && s1.asset.policy == Evaluate(s.asset.policy, ts, risk, seen.site).0
            && outcome == Evaluate(s.asset.policy, ts, risk, seen.site).1.outcome
  {
    hide Evaluate, SiteLimiter;
  }

  datatype Examined = Examined(s: Progress, assessment: Assessment, top: string)

  const NO_ASSESSMENT := Assessment(0.0, 0.0, 0.0, 0.0, 0.0, 0, 0)

  /** The scoring half: warm-up, detectors and fusion. A finished warm-up is persisted, and that may fail. */
  function Examine(cfg: Config, f: Faults, s: Progress, ts: Time): Examined
    requires s.asset.tpl.Valid()
  {
    var features := cfg.kernels.extract(s.asset.tpl, s.asset.samples);
    var (detectors, fitted) := Learn(s.asset.tpl, s.asset.detectors, features);
    var a := s.asset.(lastEval := ts, evals := s.asset.evals + 1, detectors := detectors);
    var tally := s.tally.(evaluated := s.tally.evaluated + 1);
    var (env, saved) := if fitted then SaveSnapshot(f, s.env, a) else (s.env, true);
    if !saved then Examined(Progress(env, a, tally, false), NO_ASSESSMENT, "")
    else
      var (assessed, assessment, top) := Assess(cfg.kernels, a.tpl, a.id, detectors, a.age, features);
      Examined(Progress(env, a.(detectors := assessed), tally, true), assessment, top)
  }

  /** What scoring leaves alone. */
  lemma ExamineFrame(cfg: Config, f: Faults, s: Progress, ts: Time)
    requires s.asset.tpl.Valid()
    ensures var s' := Examine(cfg, f, s, ts).s;
            && s'.asset == s.asset.(lastEval := ts, evals := s.asset.evals + 1, detectors := s'.asset.detectors)
            && s'.env == s.env.(snapshots := s'.env.snapshots, calls := s'.env.calls)
            && s'.tally == s.tally.(evaluated := s.tally.evaluated + 1)
            && (StoreWorks(f) ==> s'.ok)
  {
    hide Learn, Assess;
  }

  /** The full pipeline at event time `ts`. */
  ghost function EvaluateAsset(cfg: Config, f: Faults, s: Progress, ts: Time): Progress
    requires s.asset.tpl.Valid()
  {
    var x := Examine(cfg, f, s, ts);
    if !x.s.ok then x.s else Decide(cfg, f, x.s, ts, x.assessment, x.top)
  }

  ghost predicate Evaluates(a: Asset, ts: Time)
    requires a.tpl.specs.Keys <= a.samples.Keys
  {
    Extractor.Ready(a.tpl.specs, a.samples) && ts > a.lastEval
  }

  ghost function EvaluateIfReady(cfg: Config, f: Faults, s: Progress, ts: Time): Progress
    requires WellFormed(s.asset)
  {
    if Evaluates(s.asset, ts) then EvaluateAsset(cfg, f, s, ts) else s
  }

  // ----- One batch -----

  datatype Pushed = Accepted | Rejected | Duplicate

  /** What every asset in memory satisfies by construction. */
  ghost predicate WellFormed(a: Asset) {
    a.tpl.Valid() && Fits(a.tpl.specs, a.samples)
  }

  predicate IsDuplicate(a: Asset, m: Metric) {
    m.signal in a.lastTS && m.ts <= a.lastTS[m.signal]
  }

  predicate IsRuntime(a: Asset, m: Metric) {
    a.tpl.runtimeSignal != "" && m.signal == a.tpl.runtimeSignal
  }

  /** The high-water mark of an accepted metric. */
  function Marked(a: Asset, m: Metric): Asset {
    a.(lastTS := a.lastTS[m.signal := m.ts], history := a.history.(accepted := a.history.accepted + [m]))
  }

  /** One metric: class check, replay guard, then the runtime counter or the signal's window. */
  function PushMetric(cfg: Config, a: Asset, m: Metric): (Asset, Pushed)
    requires Fits(a.tpl.specs, a.samples)
  {
    if m.class_ != "" && m.class_ != a.class_ then (a, Rejected)
    else if IsDuplicate(a, m) then (a, Duplicate)
    else if IsRuntime(a, m) then
      if !Convertible(cfg.units, m.unit, "h") then (a, Rejected)
      else (Marked(a, m).(age := Convert(cfg.units, m.value, m.unit, "h")), Accepted)
    else
      var (samples, result) := PushReading(cfg.units, a.tpl.specs, a.samples, m.signal, m.Values(), m.unit);
      if result.Pushed? then (Marked(a, m).(samples := samples), Accepted)
      else (a.(samples := samples), Rejected)
  }

  function Count(t: Tally, p: Pushed): Tally {
    match p
    case Accepted => t.(accepted := t.accepted + 1)
    case Rejected => t.(rejected := t.rejected + 1)
    case Duplicate => t.(duplicates := t.duplicates + 1)
  }

  lemma PushKeepsShape(cfg: Config, a: Asset, m: Metric)
    requires WellFormed(a)
    ensures WellFormed(PushMetric(cfg, a, m).0)
  {
    BurstAllOrNothing(cfg.units, a.tpl.specs, a.samples, m.signal, m.Values(), m.unit);
  }

  /** The part of an asset that only pushes, the site rule and rebuilds touch, and the time of its last evaluation. */
  datatype Inputs = Inputs(
    id: string, site: string, class_: string, tpl: Template, samples: Samples,
    age: real, lastTS: map<string, Time>, accepted: seq<Metric>, rebuilt: nat, lastEval: Time)

  function InputsOf(a: Asset): Inputs {
    Inputs(a.id, a.site, a.class_, a.tpl, a.samples, a.age, a.lastTS, a.history.accepted, a.history.rebuilt, a.lastEval)
  }

  lemma ReactKeepsInputs(cfg: Config, f: Faults, s: Progress, ts: Time, as_: Assessment, top: string, outcome: Outcome)
    ensures InputsOf(React(cfg, f, s, ts, as_, top, outcome).asset) == InputsOf(s.asset)
  {
    hide RaiseOrder, SaveAlert, NewAlert;
  }

  lemma DecideKeepsInputs(cfg: Config, f: Faults, s: Progress, ts: Time, as_: Assessment, top: string)
    ensures InputsOf(Decide(cfg, f, s, ts, as_, top).asset) == InputsOf(s.asset)
  {
    hide React, FeedPolicy;
    FeedPolicyFrame(s, ts, as_.risk);
    var (s1, outcome) := FeedPolicy(s, ts, as_.risk);
    ReactKeepsInputs(cfg, f, s1, ts, as_, top, outcome);
  }

  /** An evaluation moves the time of the last evaluation and nothing else of these. */
  lemma EvaluateKeepsInputs(cfg: Config, f: Faults, s: Progress, ts: Time)
    requires WellFormed(s.asset)
    ensures InputsOf(EvaluateIfReady(cfg, f, s, ts).asset)
            == if Evaluates(s.asset, ts) then InputsOf(s.asset).(lastEval := ts) else InputsOf(s.asset)
  {
    if Evaluates(s.asset, ts) {
      hide Decide, Examine;
      ExamineFrame(cfg, f, s, ts);
      var x := Examine(cfg, f, s, ts);
      DecideKeepsInputs(cfg, f, x.s, ts, x.assessment, x.top);
    }
  }

  /** The metrics of one asset in time order: evaluate whenever event time moves on, and once at the end. */
  ghost function IngestGroup(cfg: Config, f: Faults, s: Progress, pending: Time, ms: seq<Metric>): Progress
    requires WellFormed(s.asset)
    decreases |ms|
  {
    if ms == [] then
      if pending != ZERO_TIME then EvaluateIfReady(cfg, f, s, pending) else s
    else
      var m := ms[0];
      var s1 := if pending != ZERO_TIME && m.ts > pending then EvaluateIfReady(cfg, f, s, pending) else s;
      EvaluateKeepsInputs(cfg, f, s, pending);
      if !s1.ok then s1
      else
        var (a, pushed) := PushMetric(cfg, s1.asset, m);
        PushKeepsShape(cfg, s1.asset, m);
        IngestGroup(cfg, f, s1.(asset := a, tally := Count(s1.tally, pushed)), m.ts, ms[1..])
  }
}
