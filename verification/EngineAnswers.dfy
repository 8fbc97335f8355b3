/**
  The answers the engine gives at its edge: which metrics it takes, which asset a
  group of them goes to and in what order, and what it replies to a verdict.
 */
module EngineAnswers {
  import opened Common
  import opened Policy
  import opened WorkOrders
  import opened Pipeline
  import opened EngineModel
  import opened EngineWorld
  import opened EngineSafety
  import EngineReplay
  import EngineRestart
  import Extractor

  // ----- Metrics -----

  /** At most 128 letters, digits and the five marks allowed. */
  predicate Plain(s: string) {
    |s| <= 128 && forall c :: c in s ==>
      'a' <= c <= 'z' || 'A' <= c <= 'Z' || '0' <= c <= '9' || c in ['-', '_', '.', ':', '/']
  }

  /**
    A metric is taken if and only if it breaks no rule; it is taken as it is,
    except that a missing site is filled in.
   */
  lemma TakenIff(m: Metric)
    ensures Validated(m).Some? <==>
              && m.asset != "" && Plain(m.asset) && m.signal != "" && Plain(m.site) && m.ts != ZERO_TIME
              && |m.samples| <= 16384
    ensures Validated(m).Some? ==> Validated(m).value == m.(site := if m.site == "" then "default" else m.site)
    ensures Validated(m).Some? ==> Validated(Validated(m).value) == Validated(m)
  {
    PlainIs(m.asset);
    PlainIs(m.site);
    PlainIs(DEFAULT_SITE);
    hide Plain, IdentOk;
  }

  lemma PlainIs(s: string)
    ensures IdentOk(s) <==> Plain(s)
    ensures s == "" || s == DEFAULT_SITE ==> Plain(s)
  {
    if IdentOk(s) {
      forall c | c in s
        ensures IdentChar(c)
      {
      }
    }
  }

  /**
    A burst is read as its samples, a metric without samples as its value, and
    each signal's window takes them converted.
   */
  lemma ReadingsTaken(cfg: Config, a: Asset, m: Metric)
    requires WellFormed(a) && PushMetric(cfg, a, m).1.Accepted? && !IsRuntime(a, m)
    ensures var a', spec := PushMetric(cfg, a, m).0, a.tpl.specs[m.signal];
            a'.samples[m.signal] == LastN(
              a.samples[m.signal]
              + Extractor.ConvertEach(cfg.units, if |m.samples| > 0 then m.samples else [m.value], m.unit, spec.unit),
              spec.window)
  {
    hide Extractor.ConvertEach, LastN, PushMetric;
    EngineReplay.PushIs(cfg, a, m);
  }

  // ----- Groups -----

  /** Assets are taken in the order in which they first appear: a longer batch only adds to the end. */
  lemma {:induction false} AssetsInOrderOfAppearance(ms: seq<Metric>, n: nat)
    requires n <= |ms|
    ensures AssetsOf(ms[..n]) <= AssetsOf(ms)
    ensures n < |ms| && ms[n].asset !in AssetsOf(ms[..n]) ==> AssetsOf(ms[..n]) + [ms[n].asset] <= AssetsOf(ms)
  {
    if n == |ms| {
      assert ms[..n] == ms;
    } else {
      var front := ms[..|ms| - 1];
      assert front[..n] == ms[..n];
      AssetsInOrderOfAppearance(front, n);
      if n < |front| {
        assert front[n] == ms[n];
      }
    }
  }

  /** An asset's share of a batch is its metrics in the order they came in. */
  lemma {:induction false} GroupsKeepOrder(xs: seq<Metric>, ys: seq<Metric>, id: string)
    ensures GroupOf(xs + ys, id) == GroupOf(xs, id) + GroupOf(ys, id)
    ensures |xs| == 1 ==> GroupOf(xs, id) == if xs[0].asset == id then xs else []
  {
    if ys == [] {
      assert xs + ys == xs;
    } else {
      var front, last := ys[..|ys| - 1], ys[|ys| - 1];
      GroupsKeepOrder(xs, front, id);
      assert (xs + ys)[..|xs + ys| - 1] == xs + front && (xs + ys)[|xs + ys| - 1] == last;
    }
  }

  /**
    The asset of a group. A known one is found as it is, except that it learns its
    site once, from the first metric that names one. Otherwise it is registered, if
    the metric names a class with a template: on the metric's site, with the class's
    baselines, no runtime and no offset.
   */
  lemma AssetIs(w: World, m: Metric)
    requires WorldShape(w)
    ensures m.asset in w.assets ==>
              var a := w.assets[m.asset];
              AssetFor(w, m) == Some(a.(site := if a.site == "default" then m.site else a.site))
    ensures m.asset !in w.assets ==>
              && (AssetFor(w, m).Some? <==> m.class_ != "" && m.class_ in w.templates)
              && (AssetFor(w, m).Some? ==>
                    var a, tpl := AssetFor(w, m).value, w.templates[m.class_];
                    && a.id == m.asset && a.site == m.site && a.tpl == tpl && a.class_ == tpl.class_
                    && a.age == 0.0 && a.evals == 0 && a.lastTS == map[] && a.lastEval == ZERO_TIME
                    && a.openAlert == None && a.pendingTop == ""
                    && a.samples == Extractor.EmptySamples(tpl.specs)
                    && a.policy == NewPolicy(tpl.alerting) && EngineRestart.StartsWith(a.detectors, tpl, map[]))
  {
    hide Template.Valid, WellFormed, FreshDetectors, EngineRestart.StartsWith, FreshLimiter;
    if m.asset in w.assets {
    } else if m.class_ in w.templates {
      var tpl := w.templates[m.class_];
      EngineRestart.FreshStarts(tpl, map[]);
      EngineRestart.ValidClamp(tpl);
    }
  }

  // ----- Verdicts -----

  /**
    What feedback is answered. An alert that cannot be loaded or is not stored, and
    one that has been judged, stay as they are, with everything else: the same
    verdict again is fine, the other one is refused. An open one is judged, and
    `Applied` is answered if and only if its new status is stored.
   */
  lemma FeedbackAnswers(f: Faults, w: World, id: Id, v: Verdict)
    requires AlertsKeyed(w.env)
    ensures var (w', reply), alerts := Feedback(f, w, id, v), w.env.alerts;
            if f.store(w.env.calls) then reply == StoreError && w' == w.(env := Called(w.env))
            else if id !in alerts then reply == UnknownAlert && w' == w.(env := Called(w.env))
            else
              match alerts[id].status
              case Confirmed => w' == w.(env := Called(w.env)) && reply == (if v.Confirm? then Repeated else Conflict)
              case Dismissed => w' == w.(env := Called(w.env)) && reply == (if v.Dismiss? then Repeated else Conflict)
              case AlertOpen =>
                && (reply == Applied || reply == StoreError)
                && (alerts[id].asset !in w.assets ==> (reply == Applied <==> !f.store(w.env.calls + 1)))
                && w'.env.alerts == (if reply == StoreError then alerts
                                     else alerts[id :=
                                       alerts[id].(status := if v.Confirm? then Confirmed else Dismissed)])
  {
    hide Judged, AfterAdapting, RecordVerdict;
    if Judges(f, w, id) {
      var alert, w1 := w.env.alerts[id], w.(env := Called(w.env));
      if alert.asset in w.assets {
        var a := Judged(w.assets[alert.asset], id, v);
        AfterAdaptingFrame(f, w1.env, a, alert, v);
        var env2 := AfterAdapting(f, w1.env, a, alert, v).0;
        RecordIs(f, w1.(assets := w.assets[alert.asset := a], env := env2), alert, v);
      } else {
        RecordIs(f, w1, alert, v);
      }
    }
  }

  lemma RecordIs(f: Faults, w: World, alert: Alert, v: Verdict)
    ensures var (w', reply), alerts := RecordVerdict(f, w, alert, v), w.env.alerts;
            && (reply == Applied || reply == StoreError)
            && (reply == Applied <==> !f.store(w.env.calls))
            && w'.env.alerts == (if reply == StoreError then alerts
                                 else alerts[alert.id := alert.(status := if v.Confirm? then Confirmed else Dismissed)])
  {
  }
}
