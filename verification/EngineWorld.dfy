/**
  Whole operations of the engine: ingesting a batch, technician feedback,
  replacing a template, restarting over the same store, and runs of them.
 */
module EngineWorld {
  import opened Common
  import opened Policy
  import opened PolicyRuns
  import opened Extractor
  import opened WorkOrders
  import opened Pipeline
  import opened EngineModel
  import opened EngineEffects
  import HstDetector

  // ----- Grouping a batch -----

  /** The metrics that pass validation, in order. */
  function ValidOf(batch: seq<Metric>): seq<Metric> {
    if batch == [] then []
    else
      ValidOf(batch[..|batch| - 1])
      + match Validated(batch[|batch| - 1])
        case None => []
        case Some(m) => [m]
  }

  /** The assets of a batch in order of first appearance. */
  function AssetsOf(ms: seq<Metric>): (ids: seq<string>)
  {
    if ms == [] then []
    else
      var front := AssetsOf(ms[..|ms| - 1]);
      if ms[|ms| - 1].asset in front then front else front + [ms[|ms| - 1].asset]
  }

  function GroupOf(ms: seq<Metric>, id: string): (g: seq<Metric>)
    ensures |g| <= |ms| && forall m :: m in g ==> m.asset == id && m in ms
  {
    if ms == [] then []
    else GroupOf(ms[..|ms| - 1], id) + if ms[|ms| - 1].asset == id then [ms[|ms| - 1]] else []
  }

  ghost predicate InTimeOrder(ms: seq<Metric>) {
    forall i, j :: 0 <= i < j < |ms| ==> ms[i].ts <= ms[j].ts
  }

  function InsertByTime(ms: seq<Metric>, m: Metric): (r: seq<Metric>)
    ensures |r| == |ms| + 1
  {
    if ms == [] || ms[|ms| - 1].ts <= m.ts then ms + [m]
    else InsertByTime(ms[..|ms| - 1], m) + [ms[|ms| - 1]]
  }

  /** Stable sort by timestamp. */
  function SortByTime(ms: seq<Metric>): (r: seq<Metric>)
    ensures |r| == |ms|
  {
    if ms == [] then [] else InsertByTime(SortByTime(ms[..|ms| - 1]), ms[|ms| - 1])
  }

  // ----- Assets -----

  function BuiltAsset(
      id: string, site: string, tpl: Template, learned: HstDetector.Baselines, offset: real, age: real, since: Id)
    : Asset {
    var policy := SetOffset(NewPolicy(tpl.alerting), offset);
    Asset(id, site, tpl.class_, tpl, EmptySamples(tpl.specs), FreshDetectors(tpl, learned), policy,
          age, map[], ZERO_TIME, 0, None, "", 0, History(policy, [], since, [], [], [], 0))
  }

  /** A template update: the pipeline starts afresh, the episode, the replay guard and the learned offset stay. */
  function Rebuilt(a: Asset, tpl: Template, since: Id): Asset {
    var learned := if a.detectors.fromAsset then a.detectors.baselines else map[];
    var policy := SetOffset(SetParams(a.policy, tpl.alerting), a.policy.offset);
    a.(tpl := tpl, class_ := tpl.class_, samples := EmptySamples(tpl.specs), detectors := FreshDetectors(tpl, learned),
       policy := policy, lastEval := ZERO_TIME,
       history := History(policy, [], since, [], [], a.history.accepted, |a.history.accepted|))
  }

  /** Every asset of the template's class rebuilt. */
  function RebuiltClass(assets: map<string, Asset>, t: Template, since: Id): map<string, Asset> {
    map id | id in assets :: if assets[id].class_ == t.class_ then Rebuilt(assets[id], t, since) else assets[id]
  }

  /** The asset a group belongs to: a known one (which may learn its site), or a new one if its class has a template. */
  function AssetFor(w: World, m: Metric): Option<Asset> {
    if m.asset in w.assets then
      var a := w.assets[m.asset];
      Some(if m.site != DEFAULT_SITE && a.site == DEFAULT_SITE then a.(site := m.site) else a)
    else if m.class_ == "" || m.class_ !in w.templates then None
    else Some(BuiltAsset(m.asset, m.site, w.templates[m.class_], map[], 0.0, 0.0, w.env.nextId))
  }

  /** What the maps of a world hold by construction. */
  ghost predicate WorldShape(w: World) {
    && (forall c :: c in w.templates ==> w.templates[c].Valid())
    && (forall c :: c in w.env.templates ==> w.env.templates[c].Valid())
    && (forall id :: id in w.assets ==> w.assets[id].id == id && WellFormed(w.assets[id]))
  }

  lemma AssetForShape(w: World, m: Metric)
    requires WorldShape(w) && AssetFor(w, m).Some?
    ensures WellFormed(AssetFor(w, m).value) && AssetFor(w, m).value.id == m.asset
  {
  }

  // ----- Ingest -----

  datatype Ingested = Ingested(world: World, tally: Tally, ok: bool)

  /** One asset's share of a batch, sorted by time. */
  ghost function IngestAsset(cfg: Config, f: Faults, w: World, tally: Tally, ms: seq<Metric>): Ingested
    requires WorldShape(w) && ms != []
  {
    match AssetFor(w, ms[0])
    case None => Ingested(w, tally.(rejected := tally.rejected + |ms|), true)
    case Some(a) =>
      AssetForShape(w, ms[0]);
      var s := IngestGroup(cfg, f, Progress(w.env, a, tally, true), ZERO_TIME, ms);
      Ingested(World(w.templates, w.assets[a.id := s.asset], s.env, w.born), s.tally, s.ok)
  }

  ghost function IngestAssets(
      cfg: Config, f: Faults, w: World, tally: Tally, ids: seq<string>, ms: seq<Metric>): Ingested
    requires WorldShape(w) && forall id :: id in ids ==> GroupOf(ms, id) != []
    decreases |ids|
  {
    if ids == [] then Ingested(w, tally, true)
    else
      var r := IngestAsset(cfg, f, w, tally, SortByTime(GroupOf(ms, ids[0])));
      IngestAssetShape(cfg, f, w, tally, SortByTime(GroupOf(ms, ids[0])));
      if !r.ok then r else IngestAssets(cfg, f, r.world, r.tally, ids[1..], ms)
  }

  ghost function Ingest(cfg: Config, f: Faults, w: World, batch: seq<Metric>): Ingested
    requires WorldShape(w)
  {
    var ms := ValidOf(batch);
    ValidLength(batch);
    AssetsHaveGroups(ms);
    IngestAssets(cfg, f, w, NOTHING.(rejected := |batch| - |ms|), AssetsOf(ms), ms)
  }

  lemma {:induction false} ValidLength(batch: seq<Metric>)
    ensures |ValidOf(batch)| <= |batch|
    ensures forall m :: m in ValidOf(batch) ==> m.ts != ZERO_TIME
  {
    if batch != [] {
      ValidLength(batch[..|batch| - 1]);
    }
  }

  lemma {:induction false} AssetsHaveGroups(ms: seq<Metric>)
    ensures forall id :: id in AssetsOf(ms) <==> GroupOf(ms, id) != []
    ensures forall i, j :: 0 <= i < j < |AssetsOf(ms)| ==> AssetsOf(ms)[i] != AssetsOf(ms)[j]
  {
    if ms != [] {
      AssetsHaveGroups(ms[..|ms| - 1]);
    }
  }

  lemma {:induction false} GroupKeepsShape(cfg: Config, f: Faults, s: Progress, pending: Time, ms: seq<Metric>)
    requires WellFormed(s.asset)
    ensures var s' := IngestGroup(cfg, f, s, pending, ms);
            WellFormed(s'.asset) && s'.asset.id == s.asset.id && s'.asset.tpl == s.asset.tpl
            && s'.asset.class_ == s.asset.class_ && s'.asset.site == s.asset.site
            && s'.env.templates == s.env.templates
    decreases |ms|
  {
    hide EvaluateIfReady, PushMetric, WellFormed;
    EvaluateShape(cfg, f, s, pending);
    if ms != [] {
      var m := ms[0];
      var s1 := if pending != ZERO_TIME && m.ts > pending then EvaluateIfReady(cfg, f, s, pending) else s;
      if s1.ok {
        PushShape(cfg, s1.asset, m);
        var (a, pushed) := PushMetric(cfg, s1.asset, m);
        GroupKeepsShape(cfg, f, s1.(asset := a, tally := Count(s1.tally, pushed)), m.ts, ms[1..]);
      }
    }
  }

  lemma PushShape(cfg: Config, a: Asset, m: Metric)
    requires WellFormed(a)
    ensures Fits(a.tpl.specs, a.samples)
    ensures var a' := PushMetric(cfg, a, m).0;
            WellFormed(a') && a'.id == a.id && a'.tpl == a.tpl && a'.class_ == a.class_ && a'.site == a.site
  {
    hide PushReading;
    PushKeepsShape(cfg, a, m);
  }

  lemma EvaluateShape(cfg: Config, f: Faults, s: Progress, ts: Time)
    requires WellFormed(s.asset)
    ensures var s' := EvaluateIfReady(cfg, f, s, ts);
            WellFormed(s'.asset) && s'.asset.id == s.asset.id && s'.asset.tpl == s.asset.tpl
            && s'.asset.class_ == s.asset.class_ && s'.asset.site == s.asset.site
            && s'.env.templates == s.env.templates
  {
    hide EvaluateIfReady;
    EvaluateKeepsInputs(cfg, f, s, ts);
    EvaluateKeepsTemplates(cfg, f, s, ts);
    assert InputsOf(EvaluateIfReady(cfg, f, s, ts).asset).tpl == s.asset.tpl;
  }

  lemma EvaluateKeepsTemplates(cfg: Config, f: Faults, s: Progress, ts: Time)
    requires WellFormed(s.asset)
    ensures EvaluateIfReady(cfg, f, s, ts).env.templates == s.env.templates
  {
    if Evaluates(s.asset, ts) {
      hide Examine, FeedPolicy, React;
      ExamineFrame(cfg, f, s, ts);
      var x := Examine(cfg, f, s, ts);
      FeedPolicyFrame(x.s, ts, x.assessment.risk);
      var (s1, outcome) := FeedPolicy(x.s, ts, x.assessment.risk);
      ReactKeepsTemplates(cfg, f, s1, ts, x.assessment, x.top, outcome);
    }
  }

  lemma ReactKeepsTemplates(
      cfg: Config, f: Faults, s: Progress, ts: Time, as_: Fusion.Assessment, top: string, o: Outcome)
    requires s.ok
    ensures React(cfg, f, s, ts, as_, top, o).env.templates == s.env.templates
  {
    hide OnFire, OnHold, OnClear, NewAlert, AlertLinked, OrderAdded, CmmsStep, Stamped;
    match o
    case Fire => FireHasEffect(f, s, ts, as_, top);
    case Hold => HoldHasEffect(cfg, f, s);
    case Clear => ClearHasEffect(f, s, ts);
    case _ =>
  }

  lemma IngestAssetShape(cfg: Config, f: Faults, w: World, tally: Tally, ms: seq<Metric>)
    requires WorldShape(w) && ms != []
    ensures WorldShape(IngestAsset(cfg, f, w, tally, ms).world)
    ensures IngestAsset(cfg, f, w, tally, ms).world.templates == w.templates
  {
    hide IngestGroup, WellFormed, AssetFor;
    if AssetFor(w, ms[0]).Some? {
      AssetForShape(w, ms[0]);
      GroupKeepsShape(cfg, f, Progress(w.env, AssetFor(w, ms[0]).value, tally, true), ZERO_TIME, ms);
    }
  }

  // ----- Feedback -----

  datatype Reply = UnknownAlert | StoreError | Repeated | Conflict | Applied

  function StatusFor(v: Verdict): AlertStatus {
    match v
    case Confirm => Confirmed
    case Dismiss => Dismissed
  }

  function CancelBoth(f: Faults, env: Env, wo: WorkOrder, ref: nat): Env {
    var (env1, cancelled) := CmmsCancel(f, env, ref);
    if cancelled then SaveOrder(f, env1, wo.(status := OrderCancelled)).0 else env1
  }

  /** Best effort: any failure leaves the order as it was. */
  function CancelOrder(f: Faults, env: Env, id: Id): Env {
    if f.store(env.calls) || id !in env.orders || !env.orders[id].status.OrderOpen? then Called(env)
    else
      match env.orders[id].external
      case None => SaveOrder(f, Called(env), env.orders[id].(status := OrderCancelled)).0
      case Some(ref) => CancelBoth(f, Called(env), env.orders[id], ref)
  }

  /** The asset after a verdict on one of its alerts. */
  function Judged(a: Asset, id: Id, v: Verdict): Asset {
    a.(policy := ApplyFeedback(a.policy, v), history := a.history.(judged := a.history.judged + [(id, v)]))
  }

  /** Persists the moved offset, and cancels the linked order when the class says so. */
  function AfterAdapting(f: Faults, env: Env, a: Asset, alert: Alert, v: Verdict): (Env, bool) {
    var (env1, saved) := SaveSnapshot(f, env, a);
    if saved && v.Dismiss? && alert.workOrder.Some? && a.tpl.orders.autoCancelOnDismiss then
      (CancelOrder(f, env1, alert.workOrder.value), true)
    else (env1, saved)
  }

  function RecordVerdict(f: Faults, w: World, alert: Alert, v: Verdict): (World, Reply) {
    var (env1, saved) := SaveAlert(f, w.env, alert.(status := StatusFor(v)));
    (w.(env := env1), if saved then Applied else StoreError)
  }

  /** A first verdict on an alert. */
  function JudgeAlert(f: Faults, w: World, alert: Alert, v: Verdict): (World, Reply) {
    if alert.asset !in w.assets then RecordVerdict(f, w, alert, v)
    else
      var a := Judged(w.assets[alert.asset], alert.id, v);
      var (env1, ok) := AfterAdapting(f, w.env, a, alert, v);
      var w1 := w.(assets := w.assets[alert.asset := a], env := env1);
      if ok then RecordVerdict(f, w1, alert, v) else (w1, StoreError)
  }

  function Feedback(f: Faults, w: World, id: Id, v: Verdict): (World, Reply) {
    var w1 := w.(env := Called(w.env));
    if f.store(w.env.calls) then (w1, StoreError)
    else if id !in w.env.alerts then (w1, UnknownAlert)
    else if w.env.alerts[id].status.AlertOpen? then JudgeAlert(f, w1, w.env.alerts[id], v)
    else (w1, if w.env.alerts[id].status == StatusFor(v) then Repeated else Conflict)
  }

  // ----- Templates and restarts -----

  /** An invalid template or a store failure changes nothing; otherwise every asset of the class is rebuilt. */
  function PutTemplate(f: Faults, w: World, t: Template): (World, bool) {
    if !t.Valid() then (w, false)
    else if f.store(w.env.calls) then (w.(env := Called(w.env)), false)
    else
      (World(w.templates[t.class_ := t],
             RebuiltClass(w.assets, t, w.env.nextId),
             Called(w.env).(templates := w.env.templates[t.class_ := t]), w.born),
       true)
  }

  function Restored(id: string, s: Snapshot, templates: map<string, Template>, since: Id): Asset
    requires s.class_ in templates
  {
    BuiltAsset(id, s.site, templates[s.class_], s.baselines, s.offset, s.age, since)
  }

  /**
    A new engine over the same store and maintenance system: stored templates
    win over built-in ones, assets come back from snapshots.
   */
  function Restarted(cfg: Config, w: World): World {
    var templates := cfg.defaults + w.env.templates;
    World(templates,
          map id | id in w.env.snapshots && w.env.snapshots[id].class_ in templates ::
            Restored(id, w.env.snapshots[id], templates, w.env.nextId),
          w.env.(sites := map[], templates := templates), w.env.nextId)
  }

  // ----- Runs -----

  datatype Op =
    | DoIngest(batch: seq<Metric>)
    | DoFeedback(alert: Id, verdict: Verdict)
    | DoTemplate(t: Template)
    | DoRestart

  ghost predicate ConfigOk(cfg: Config) {
    forall c :: c in cfg.defaults ==> cfg.defaults[c].Valid() && cfg.defaults[c].class_ == c
  }

  ghost function Perform(cfg: Config, f: Faults, w: World, op: Op): World
    requires WorldShape(w)
  {
    match op
    case DoIngest(batch) => Ingest(cfg, f, w, batch).world
    case DoFeedback(alert, v) => Feedback(f, w, alert, v).0
    case DoTemplate(t) => PutTemplate(f, w, t).0
    case DoRestart => Restarted(cfg, w)
  }

  lemma {:induction false} IngestAssetsShape(
      cfg: Config, f: Faults, w: World, tally: Tally, ids: seq<string>, ms: seq<Metric>)
    requires WorldShape(w) && forall id :: id in ids ==> GroupOf(ms, id) != []
    ensures WorldShape(IngestAssets(cfg, f, w, tally, ids, ms).world)
    ensures IngestAssets(cfg, f, w, tally, ids, ms).world.templates == w.templates
    decreases |ids|
  {
    hide WorldShape, IngestAsset, SortByTime;
    if ids != [] {
      var group := SortByTime(GroupOf(ms, ids[0]));
      IngestAssetShape(cfg, f, w, tally, group);
      var r := IngestAsset(cfg, f, w, tally, group);
      if r.ok {
        IngestAssetsShape(cfg, f, r.world, r.tally, ids[1..], ms);
      }
    }
  }

  lemma CancelFrame(f: Faults, env: Env, id: Id)
    ensures var e := CancelOrder(f, env, id);
            e == env.(orders := e.orders, cmms := e.cmms, calls := e.calls)
  {
    hide CmmsCancel, SaveOrder;
    if id in env.orders {
      var wo := env.orders[id].(status := OrderCancelled);
      SaveOrderFrame(f, Called(env), wo);
      if wo.external.Some? {
        CmmsCancelFrame(f, Called(env), wo.external.value);
        SaveOrderFrame(f, CmmsCancel(f, Called(env), wo.external.value).0, wo);
      }
    }
  }

  lemma SaveOrderFrame(f: Faults, env: Env, wo: WorkOrder)
    ensures var e := SaveOrder(f, env, wo).0;
            e == env.(orders := e.orders, calls := e.calls)
              && (e.orders == env.orders || e.orders == env.orders[wo.id := wo])
  {
  }

  lemma CmmsCancelFrame(f: Faults, env: Env, ref: nat)
    ensures var e := CmmsCancel(f, env, ref).0;
            && e == env.(cmms := e.cmms, calls := e.calls)
            && (e.cmms == env.cmms || e.cmms == CancelRecord(env.cmms, ref).0)
  {
    hide CancelRecord;
  }

  lemma AfterAdaptingFrame(f: Faults, env: Env, a: Asset, alert: Alert, v: Verdict)
    ensures var (e, ok) := AfterAdapting(f, env, a, alert, v);
            && e == env.(orders := e.orders, cmms := e.cmms, snapshots := e.snapshots, calls := e.calls)
            && (StoreWorks(f) ==> ok)
  {
    hide CancelOrder;
    if alert.workOrder.Some? {
      CancelFrame(f, SaveSnapshot(f, env, a).0, alert.workOrder.value);
    }
  }

  /** The call reaches an alert that nobody has judged yet. */
  predicate Judges(f: Faults, w: World, id: Id) {
    !f.store(w.env.calls) && id in w.env.alerts && w.env.alerts[id].status.AlertOpen?
  }

  /** What feedback changes: the status of the judged alert, the offset of its asset, and work orders and snapshots. */
  ghost predicate FeedbackEffect(f: Faults, w: World, alert: Alert, v: Verdict, w': World) {
    var alerts' := w.env.alerts[alert.id := alert.(status := StatusFor(v))];
    && w'.templates == w.templates && w'.born == w.born
    && w'.env == w.env.(alerts := w'.env.alerts, orders := w'.env.orders, cmms := w'.env.cmms,
                        snapshots := w'.env.snapshots, calls := w'.env.calls)
    && w'.assets == (if alert.asset in w.assets
                     then w.assets[alert.asset := Judged(w.assets[alert.asset], alert.id, v)] else w.assets)
    && (w'.env.alerts == w.env.alerts || w'.env.alerts == alerts')
    && (StoreWorks(f) ==> w'.env.alerts == alerts')
  }

  lemma RecordEffect(f: Faults, w: World, alert: Alert, v: Verdict)
    ensures var w' := RecordVerdict(f, w, alert, v).0;
            && w' == w.(env := w.env.(alerts := w'.env.alerts, calls := w'.env.calls))
            && (w'.env.alerts == w.env.alerts
               || w'.env.alerts == w.env.alerts[alert.id := alert.(status := StatusFor(v))])
            && (StoreWorks(f) ==> w'.env.alerts == w.env.alerts[alert.id := alert.(status := StatusFor(v))])
  {
    if StoreWorks(f) {
      assert !f.store(w.env.calls);
    }
  }

  lemma JudgeEffect(f: Faults, w: World, alert: Alert, v: Verdict)
    ensures FeedbackEffect(f, w, alert, v, JudgeAlert(f, w, alert, v).0)
  {
    hide AfterAdapting, ApplyFeedback, RecordVerdict;
    if alert.asset in w.assets {
      var a := Judged(w.assets[alert.asset], alert.id, v);
      AfterAdaptingFrame(f, w.env, a, alert, v);
      var w1 := w.(assets := w.assets[alert.asset := a], env := AfterAdapting(f, w.env, a, alert, v).0);
      RecordEffect(f, w1, alert, v);
    } else {
      RecordEffect(f, w, alert, v);
    }
  }

  lemma FeedbackShape(f: Faults, w: World, id: Id, v: Verdict)
    requires WorldShape(w)
    ensures WorldShape(Feedback(f, w, id, v).0)
  {
    hide JudgeAlert, Fits, ApplyFeedback;
    if Judges(f, w, id) {
      JudgeEffect(f, w.(env := Called(w.env)), w.env.alerts[id], v);
    }
  }

  lemma RebuiltShape(a: Asset, t: Template, since: Id)
    requires t.Valid()
    ensures WellFormed(Rebuilt(a, t, since)) && Rebuilt(a, t, since).id == a.id
  {
    hide FreshDetectors, SetParams, SetOffset;
  }

  lemma TemplateShape(f: Faults, w: World, t: Template)
    requires WorldShape(w)
    ensures WorldShape(PutTemplate(f, w, t).0)
  {
    hide Rebuilt, WellFormed;
    if t.Valid() {
      forall id | id in w.assets
        ensures WellFormed(Rebuilt(w.assets[id], t, w.env.nextId)) && Rebuilt(w.assets[id], t, w.env.nextId).id == id
      {
        RebuiltShape(w.assets[id], t, w.env.nextId);
      }
    }
  }

  lemma BuiltShape(
      id: string, site: string, tpl: Template, learned: HstDetector.Baselines, offset: real, age: real, since: Id)
    requires tpl.Valid()
    ensures var a := BuiltAsset(id, site, tpl, learned, offset, age, since); a.id == id && WellFormed(a)
  {
    hide FreshDetectors, NewPolicy, SetOffset;
  }

  lemma RestartShape(cfg: Config, w: World)
    requires WorldShape(w) && ConfigOk(cfg)
    ensures WorldShape(Restarted(cfg, w))
  {
    hide WellFormed, BuiltAsset, Template.Valid;
    var templates := cfg.defaults + w.env.templates;
    forall id | id in w.env.snapshots && w.env.snapshots[id].class_ in templates
      ensures var s := w.env.snapshots[id];
              var a := BuiltAsset(id, s.site, templates[s.class_], s.baselines, s.offset, s.age, w.env.nextId);
              a.id == id && WellFormed(a)
    {
      var s := w.env.snapshots[id];
      BuiltShape(id, s.site, templates[s.class_], s.baselines, s.offset, s.age, w.env.nextId);
    }
  }

  lemma IngestShape(cfg: Config, f: Faults, w: World, batch: seq<Metric>)
    requires WorldShape(w)
    ensures WorldShape(Ingest(cfg, f, w, batch).world)
  {
    hide WorldShape, IngestAssets, ValidOf, AssetsOf, GroupOf;
    var ms := ValidOf(batch);
    ValidLength(batch);
    AssetsHaveGroups(ms);
    IngestAssetsShape(cfg, f, w, NOTHING.(rejected := |batch| - |ms|), AssetsOf(ms), ms);
  }

  lemma PerformShape(cfg: Config, f: Faults, w: World, op: Op)
    requires WorldShape(w) && ConfigOk(cfg)
    ensures WorldShape(Perform(cfg, f, w, op))
  {
    hide WorldShape, Feedback, PutTemplate, Restarted, Ingest;
    match op
    case DoIngest(batch) => IngestShape(cfg, f, w, batch);
    case DoFeedback(id, v) => FeedbackShape(f, w, id, v);
    case DoTemplate(t) => TemplateShape(f, w, t);
    case DoRestart => RestartShape(cfg, w);
  }

  ghost function Run(cfg: Config, f: Faults, w0: World, ops: seq<Op>): (w: World)
    requires WorldShape(w0) && ConfigOk(cfg)
    ensures WorldShape(w)
  {
    if ops == [] then w0
    else
      var w := Run(cfg, f, w0, ops[..|ops| - 1]);
      PerformShape(cfg, f, w, ops[|ops| - 1]);
      Perform(cfg, f, w, ops[|ops| - 1])
  }

  /** A first start over an empty store. */
  function Begin(cfg: Config): World {
    World(cfg.defaults, map[], Env(map[], map[], map[], map[], cfg.defaults, EMPTY_CMMS, 0, 0), 0)
  }

  lemma BeginShape(cfg: Config)
    requires ConfigOk(cfg)
    ensures WorldShape(Begin(cfg))
  {
  }

  /** The world after a run from a first start. */
  ghost function After(cfg: Config, f: Faults, ops: seq<Op>): (w: World)
    requires ConfigOk(cfg)
    ensures WorldShape(w)
  {
    BeginShape(cfg);
    Run(cfg, f, Begin(cfg), ops)
  }
}
