/** Every metric of a batch is counted once, and the accepted ones are logged. */
module EngineConservation {
  import opened Common
  import opened EngineModel
  import opened EngineWorld
  import opened EngineReplay
  import opened EngineRedelivery

  function Handled(t: Tally): nat {
    t.accepted + t.rejected + t.duplicates
  }

  lemma EvaluateKeepsLog(cfg: Config, f: Faults, s: Progress, ts: Time)
    requires WellFormed(s.asset)
    ensures EvaluateIfReady(cfg, f, s, ts).asset.history.accepted == s.asset.history.accepted
  {
    hide EvaluateIfReady, WellFormed, Evaluates;
    EvaluateKeepsInputs(cfg, f, s, ts);
    assert InputsOf(EvaluateIfReady(cfg, f, s, ts).asset).accepted == InputsOf(s.asset).accepted;
  }

  lemma PushLogs(cfg: Config, a: Asset, m: Metric)
    requires WellFormed(a)
    ensures var (a', pushed) := PushMetric(cfg, a, m);
            a'.history.accepted == a.history.accepted + if pushed.Accepted? then [m] else []
  {
    hide PushMetric, Settled, WellFormed;
    PushShape(cfg, a, m);
    PushIs(cfg, a, m);
  }

  /**
    One asset's share: the accepted count is the growth of its log, and a share
    taken without error is counted in full.
   */
  lemma {:induction false} GroupConserves(cfg: Config, f: Faults, s: Progress, pending: Time, ms: seq<Metric>)
    requires WellFormed(s.asset)
    ensures var s' := IngestGroup(cfg, f, s, pending, ms);
            && (s'.ok ==> Handled(s'.tally) == Handled(s.tally) + |ms|)
            && s'.tally.accepted - s.tally.accepted == |s'.asset.history.accepted| - |s.asset.history.accepted|
            && s.asset.history.accepted <= s'.asset.history.accepted
    decreases |ms|
  {
    hide EvaluateIfReady, PushMetric, WellFormed;
    EvaluateShape(cfg, f, s, pending);
    EvaluateCounts(cfg, f, s, pending);
    EvaluateKeepsLog(cfg, f, s, pending);
    if ms != [] {
      var m := ms[0];
      var s1 := if pending != ZERO_TIME && m.ts > pending then EvaluateIfReady(cfg, f, s, pending) else s;
      if s1.ok {
        PushShape(cfg, s1.asset, m);
        PushLogs(cfg, s1.asset, m);
        var (a, pushed) := PushMetric(cfg, s1.asset, m);
        GroupConserves(cfg, f, s1.(asset := a, tally := Count(s1.tally, pushed)), m.ts, ms[1..]);
      }
    }
  }

  lemma ShareConserves(cfg: Config, f: Faults, w: World, tally: Tally, g: seq<Metric>)
    requires WorldShape(w) && g != []
    ensures var r := IngestAsset(cfg, f, w, tally, g); r.ok ==> Handled(r.tally) == Handled(tally) + |g|
  {
    hide IngestGroup, WellFormed, AssetFor;
    if AssetFor(w, g[0]).Some? {
      AssetForShape(w, g[0]);
      GroupConserves(cfg, f, Progress(w.env, AssetFor(w, g[0]).value, tally, true), ZERO_TIME, g);
    }
  }

  lemma {:induction false} SharesConserve(
      cfg: Config, f: Faults, w: World, tally: Tally, ids: seq<string>, ms: seq<Metric>)
    requires WorldShape(w) && forall id :: id in ids ==> GroupOf(ms, id) != []
    ensures var r := IngestAssets(cfg, f, w, tally, ids, ms);
            r.ok ==> Handled(r.tally) == Handled(tally) + Total(ids, ms)
    decreases |ids|
  {
    hide WorldShape, IngestAsset, GroupOf, Handled;
    if ids != [] {
      var g := Share(ms, ids[0]);
      IngestAssetShape(cfg, f, w, tally, g);
      ShareConserves(cfg, f, w, tally, g);
      var r := IngestAsset(cfg, f, w, tally, g);
      if r.ok {
        SharesConserve(cfg, f, r.world, r.tally, ids[1..], ms);
      }
    }
  }

  /** Without a store error every metric of the batch is accepted, rejected or a duplicate, exactly once. */
  lemma IngestConserves(cfg: Config, f: Faults, w: World, batch: seq<Metric>)
    requires WorldShape(w)
    ensures var r := Ingest(cfg, f, w, batch); r.ok ==> Handled(r.tally) == |batch|
  {
    hide WorldShape, IngestAssets, ValidOf, AssetsOf, GroupOf, Total;
    var ms := ValidOf(batch);
    ValidLength(batch);
    AssetsHaveGroups(ms);
    SharesConserve(cfg, f, w, NOTHING.(rejected := |batch| - |ms|), AssetsOf(ms), ms);
    SharesCoverBatch(ms);
  }
}
