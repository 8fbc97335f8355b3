/**
  Redelivery of whole batches: ingesting a batch again changes nothing exactly
  when every asset's share of it is settled, the batch just ingested is such a
  batch, and an older one need not be.
 */
module EngineRedelivery {
  import opened Common
  import opened EngineModel
  import opened EngineWorld
  import opened EngineReplay

  // ----- Sorting and grouping -----

  lemma {:induction false} InsertRearranges(ms: seq<Metric>, m: Metric)
    ensures multiset(InsertByTime(ms, m)) == multiset(ms) + multiset{m}
  {
    if ms != [] && ms[|ms| - 1].ts > m.ts {
      InsertRearranges(ms[..|ms| - 1], m);
      assert ms == ms[..|ms| - 1] + [ms[|ms| - 1]];
    }
  }

  lemma {:induction false} InsertOrders(ms: seq<Metric>, m: Metric)
    requires InTimeOrder(ms)
    ensures InTimeOrder(InsertByTime(ms, m))
    ensures ms != [] ==>
              var r := InsertByTime(ms, m);
              r[|r| - 1].ts == if ms[|ms| - 1].ts <= m.ts then m.ts else ms[|ms| - 1].ts
  {
    if ms != [] && ms[|ms| - 1].ts > m.ts {
      var front := ms[..|ms| - 1];
      InsertOrders(front, m);
      var r := InsertByTime(front, m);
      assert front == [] || front[|front| - 1].ts <= ms[|ms| - 1].ts;
      assert forall i :: 0 <= i < |r| ==> r[i].ts <= r[|r| - 1].ts;
    }
  }

  lemma {:induction false} SortOrders(ms: seq<Metric>)
    ensures InTimeOrder(SortByTime(ms))
  {
    hide InsertByTime, InTimeOrder;
    if ms == [] {
      NothingInOrder();
    } else {
      SortOrders(ms[..|ms| - 1]);
      InsertOrders(SortByTime(ms[..|ms| - 1]), ms[|ms| - 1]);
    }
  }

  lemma NothingInOrder()
    ensures InTimeOrder([])
  {
  }

  lemma {:induction false} SortRearranges(ms: seq<Metric>)
    ensures multiset(SortByTime(ms)) == multiset(ms)
  {
    hide InsertByTime;
    if ms != [] {
      SortRearranges(ms[..|ms| - 1]);
      InsertRearranges(SortByTime(ms[..|ms| - 1]), ms[|ms| - 1]);
      assert ms == ms[..|ms| - 1] + [ms[|ms| - 1]];
    }
  }

  /** Sorting orders by time and only rearranges. */
  lemma SortKeeps(ms: seq<Metric>)
    ensures InTimeOrder(SortByTime(ms))
    ensures multiset(SortByTime(ms)) == multiset(ms)
    ensures forall m :: m in SortByTime(ms) <==> m in ms
  {
    hide SortByTime;
    SortOrders(ms);
    SortRearranges(ms);
    assert forall m :: m in SortByTime(ms) <==> m in multiset(SortByTime(ms));
  }

  /** The metrics with timestamp `t`, in order. */
  function AtTime(ms: seq<Metric>, t: Time): seq<Metric> {
    if ms == [] then []
    else AtTime(ms[..|ms| - 1], t) + if ms[|ms| - 1].ts == t then [ms[|ms| - 1]] else []
  }

  lemma {:induction false} InsertIsStable(ms: seq<Metric>, m: Metric, t: Time)
    requires InTimeOrder(ms)
    ensures AtTime(InsertByTime(ms, m), t) == AtTime(ms, t) + if m.ts == t then [m] else []
  {
    if ms == [] || ms[|ms| - 1].ts <= m.ts {
      assert (ms + [m])[..|ms|] == ms;
    } else {
      var front, last := ms[..|ms| - 1], ms[|ms| - 1];
      InsertIsStable(front, m, t);
      assert (InsertByTime(front, m) + [last])[..|ms|] == InsertByTime(front, m);
      if m.ts == t {
        assert AtTime(ms, t) == AtTime(front, t) + [];
      }
    }
  }

  /** Sorting is stable: metrics with equal timestamps keep their order. */
  lemma {:induction false} SortIsStable(ms: seq<Metric>, t: Time)
    ensures AtTime(SortByTime(ms), t) == AtTime(ms, t)
  {
    if ms != [] {
      SortIsStable(ms[..|ms| - 1], t);
      SortKeeps(ms[..|ms| - 1]);
      InsertIsStable(SortByTime(ms[..|ms| - 1]), ms[|ms| - 1], t);
    }
  }

  /** One asset's share of a batch. */
  function Share(ms: seq<Metric>, id: string): (g: seq<Metric>)
    ensures |g| == |GroupOf(ms, id)|
  {
    SortByTime(GroupOf(ms, id))
  }

  ghost predicate Timed(ms: seq<Metric>) {
    forall m :: m in ms ==> m.ts != ZERO_TIME
  }

  lemma ShareShape(ms: seq<Metric>, id: string)
    requires Timed(ms)
    ensures var g := Share(ms, id); InTimeOrder(g) && Later(g, ZERO_TIME) && forall m :: m in g ==> m.asset == id
  {
    SortKeeps(GroupOf(ms, id));
  }

  // ----- Settled batches -----

  /**
    Ingesting the share would change nothing: no asset for it, or a known and
    fully configured one to which all of it is old.
   */
  ghost predicate ShareSettled(cfg: Config, w: World, g: seq<Metric>)
    requires WorldShape(w) && g != []
  {
    match AssetFor(w, g[0])
    case None => true
    case Some(a) => g[0].asset in w.assets && a == w.assets[g[0].asset] && Quiet(cfg, a, g)
  }

  ghost predicate SharesSettled(cfg: Config, w: World, ids: seq<string>, ms: seq<Metric>)
    requires WorldShape(w) && forall id :: id in ids ==> GroupOf(ms, id) != []
  {
    forall id :: id in ids ==> ShareSettled(cfg, w, Share(ms, id))
  }

  /** Every metric of the batch is invalid, without an asset, refused or a duplicate, and calls for no evaluation. */
  ghost predicate BatchSettled(cfg: Config, w: World, batch: seq<Metric>)
    requires WorldShape(w)
  {
    var ms := ValidOf(batch);
    AssetsHaveGroups(ms);
    SharesSettled(cfg, w, AssetsOf(ms), ms)
  }

  lemma SettledShareIsNoop(cfg: Config, f: Faults, w: World, tally: Tally, g: seq<Metric>)
    requires WorldShape(w) && g != [] && ShareSettled(cfg, w, g)
    ensures var r := IngestAsset(cfg, f, w, tally, g); r.ok && r.world == w && OnlyRefused(tally, r.tally, |g|)
  {
    hide IngestGroup, Quiet, WellFormed, AssetFor;
    if AssetFor(w, g[0]).Some? {
      var a := w.assets[g[0].asset];
      QuietIsNoop(cfg, f, Progress(w.env, a, tally, true), ZERO_TIME, g);
      assert w.assets[a.id := a] == w.assets;
    }
  }

  /** Conversely, a share that is taken without acceptance, evaluation, or change to its asset was settled. */
  lemma NoopShareIsSettled(cfg: Config, f: Faults, w: World, tally: Tally, g: seq<Metric>)
    requires WorldShape(w) && g != [] && InTimeOrder(g) && Later(g, ZERO_TIME)
    requires var r := IngestAsset(cfg, f, w, tally, g);
             && r.ok && r.tally.accepted == tally.accepted && r.tally.evaluated == tally.evaluated
             && (g[0].asset in r.world.assets ==>
                g[0].asset in w.assets && r.world.assets[g[0].asset] == w.assets[g[0].asset])
    ensures ShareSettled(cfg, w, g)
  {
    hide IngestGroup, Quiet, WellFormed, AssetFor, InTimeOrder, Later;
    if AssetFor(w, g[0]).Some? {
      var a := AssetFor(w, g[0]).value;
      AssetForShape(w, g[0]);
      var s := Progress(w.env, a, tally, true);
      NoopIsQuiet(cfg, f, s, ZERO_TIME, g);
      QuietIsNoop(cfg, f, s, ZERO_TIME, g);
    }
  }

  /** Total length of the shares of some assets. */
  function Total(ids: seq<string>, ms: seq<Metric>): nat {
    if ids == [] then 0 else |GroupOf(ms, ids[0])| + Total(ids[1..], ms)
  }

  lemma {:induction false} SettledIsNoop(
      cfg: Config, f: Faults, w: World, tally: Tally, ids: seq<string>, ms: seq<Metric>)
    requires WorldShape(w) && (forall id :: id in ids ==> GroupOf(ms, id) != []) && SharesSettled(cfg, w, ids, ms)
    ensures var r := IngestAssets(cfg, f, w, tally, ids, ms);
            r.ok && r.world == w && OnlyRefused(tally, r.tally, Total(ids, ms))
    decreases |ids|
  {
    hide WorldShape, IngestAsset, GroupOf, ShareSettled;
    if ids != [] {
      var g := Share(ms, ids[0]);
      SettledShareIsNoop(cfg, f, w, tally, g);
      assert SharesSettled(cfg, w, ids[1..], ms);
      SettledIsNoop(cfg, f, w, IngestAsset(cfg, f, w, tally, g).tally, ids[1..], ms);
    }
  }

  // ----- Every metric has one share -----

  lemma {:induction false} TotalSplit(ids: seq<string>, more: seq<string>, ms: seq<Metric>)
    ensures Total(ids + more, ms) == Total(ids, ms) + Total(more, ms)
  {
    if ids == [] {
      assert ids + more == more;
    } else {
      assert (ids + more)[1..] == ids[1..] + more;
      TotalSplit(ids[1..], more, ms);
    }
  }

  /** One more metric lengthens the shares of the listed assets by one if its own asset is listed. */
  lemma {:induction false} TotalExtend(ids: seq<string>, ms: seq<Metric>)
    requires ms != [] && forall i, j :: 0 <= i < j < |ids| ==> ids[i] != ids[j]
    ensures Total(ids, ms) == Total(ids, ms[..|ms| - 1]) + if ms[|ms| - 1].asset in ids then 1 else 0
  {
    if ids != [] {
      TotalExtend(ids[1..], ms);
      assert ids == [ids[0]] + ids[1..];
    }
  }

  lemma {:induction false} SharesCoverBatch(ms: seq<Metric>)
    ensures Total(AssetsOf(ms), ms) == |ms|
  {
    if ms != [] {
      var front, last := ms[..|ms| - 1], ms[|ms| - 1];
      SharesCoverBatch(front);
      AssetsHaveGroups(front);
      AssetsHaveGroups(ms);
      TotalExtend(AssetsOf(ms), ms);
      if last.asset !in AssetsOf(front) {
        TotalSplit(AssetsOf(front), [last.asset], front);
        assert Total([last.asset], front) == 0;
      }
    }
  }

  // ----- Only its own assets change -----

  /** Same templates, and the same asset (or none) under every identifier but one. */
  ghost predicate OnlyAsset(w: World, w': World, id: string) {
    && w'.templates == w.templates
    && forall x :: x != id ==> (x in w'.assets <==> x in w.assets) && (x in w.assets ==> w'.assets[x] == w.assets[x])
  }

  lemma IngestAssetFrame(cfg: Config, f: Faults, w: World, tally: Tally, g: seq<Metric>)
    requires WorldShape(w) && g != []
    ensures var r := IngestAsset(cfg, f, w, tally, g);
            && OnlyAsset(w, r.world, g[0].asset)
            && tally.accepted <= r.tally.accepted && tally.evaluated <= r.tally.evaluated
  {
    hide IngestGroup, WellFormed, AssetFor;
    if AssetFor(w, g[0]).Some? {
      AssetForShape(w, g[0]);
      var s := Progress(w.env, AssetFor(w, g[0]).value, tally, true);
      GroupKeepsShape(cfg, f, s, ZERO_TIME, g);
      CountsGrow(cfg, f, s, ZERO_TIME, g);
    }
  }

  /** An asset outside the list is as it was. */
  lemma {:induction false} IngestAssetsFrame(
      cfg: Config, f: Faults, w: World, tally: Tally, ids: seq<string>, ms: seq<Metric>, x: string)
    requires WorldShape(w) && Timed(ms) && (forall id :: id in ids ==> GroupOf(ms, id) != []) && x !in ids
    ensures var r := IngestAssets(cfg, f, w, tally, ids, ms);
            && (x in r.world.assets <==> x in w.assets) && (x in w.assets ==> r.world.assets[x] == w.assets[x])
            && tally.accepted <= r.tally.accepted && tally.evaluated <= r.tally.evaluated
    decreases |ids|
  {
    hide WorldShape, IngestAsset, GroupOf, InTimeOrder, Later;
    if ids != [] {
      var g := Share(ms, ids[0]);
      ShareShape(ms, ids[0]);
      IngestAssetFrame(cfg, f, w, tally, g);
      IngestAssetShape(cfg, f, w, tally, g);
      var r := IngestAsset(cfg, f, w, tally, g);
      if r.ok {
        IngestAssetsFrame(cfg, f, r.world, r.tally, ids[1..], ms, x);
      }
    }
  }

  ghost predicate Distinct(ids: seq<string>) {
    forall i, j :: 0 <= i < j < |ids| ==> ids[i] != ids[j]
  }

  /** A list of shares taken without acceptance, evaluation or change to the world was settled. */
  lemma {:induction false} NoopIsSettled(
      cfg: Config, f: Faults, w: World, tally: Tally, ids: seq<string>, ms: seq<Metric>)
    requires WorldShape(w) && Timed(ms) && (forall id :: id in ids ==> GroupOf(ms, id) != []) && Distinct(ids)
    requires var r := IngestAssets(cfg, f, w, tally, ids, ms);
             r.ok && r.world == w && r.tally.accepted == tally.accepted && r.tally.evaluated == tally.evaluated
    ensures SharesSettled(cfg, w, ids, ms)
    decreases |ids|
  {
    hide WorldShape, IngestAsset, GroupOf, InTimeOrder, Later, ShareSettled;
    if ids != [] {
      var g := Share(ms, ids[0]);
      ShareShape(ms, ids[0]);
      IngestAssetFrame(cfg, f, w, tally, g);
      IngestAssetShape(cfg, f, w, tally, g);
      var r := IngestAsset(cfg, f, w, tally, g);
      IngestAssetsFrame(cfg, f, r.world, r.tally, ids[1..], ms, ids[0]);
      NoopShareIsSettled(cfg, f, w, tally, g);
      SettledShareIsNoop(cfg, f, w, tally, g);
      NoopIsSettled(cfg, f, w, r.tally, ids[1..], ms);
    }
  }

  /**
    When redelivering a batch changes nothing: for any batch, ingesting it
    accepts nothing, evaluates nothing and leaves the whole world (assets,
    policies, detectors, store, maintenance system, call counter) as it was if
    and only if the batch is settled.
   */
  lemma RedeliveryIsNoopIff(cfg: Config, f: Faults, w: World, batch: seq<Metric>)
    requires WorldShape(w)
    ensures var r := Ingest(cfg, f, w, batch);
            (r.ok && r.world == w && r.tally.accepted == 0 && r.tally.evaluated == 0) <==> BatchSettled(cfg, w, batch)
    ensures BatchSettled(cfg, w, batch) ==>
              var t := Ingest(cfg, f, w, batch).tally;
              t.alerts == 0 && t.workOrders == 0 && t.rejected + t.duplicates == |batch|
  {
    hide WorldShape, IngestAssets, ValidOf, AssetsOf, GroupOf, SharesSettled, Total;
    var ms := ValidOf(batch);
    ValidLength(batch);
    AssetsHaveGroups(ms);
    var ids, tally := AssetsOf(ms), NOTHING.(rejected := |batch| - |ms|);
    if BatchSettled(cfg, w, batch) {
      SettledIsNoop(cfg, f, w, tally, ids, ms);
      SharesCoverBatch(ms);
    }
    var r := IngestAssets(cfg, f, w, tally, ids, ms);
    if r.ok && r.world == w && r.tally.accepted == 0 && r.tally.evaluated == 0 {
      NoopIsSettled(cfg, f, w, tally, ids, ms);
    }
  }

  // ----- The batch just ingested -----

  /** The asset known after its share went in is the one the next delivery will find. */
  lemma AssetForAgain(w: World, w': World, m: Metric, a': Asset)
    requires AssetFor(w, m).Some? && m.asset in w'.assets && w'.assets[m.asset] == a'
    requires a'.site == AssetFor(w, m).value.site
    ensures AssetFor(w', m) == Some(a')
  {
    hide BuiltAsset;
    if m.asset !in w.assets {
      BuiltSite(m, w);
    }
  }

  lemma BuiltSite(m: Metric, w: World)
    requires m.class_ in w.templates
    ensures BuiltAsset(m.asset, m.site, w.templates[m.class_], map[], 0.0, 0.0, w.env.nextId).site == m.site
  {
  }

  lemma ShareSettles(cfg: Config, f: Faults, w: World, tally: Tally, g: seq<Metric>)
    requires WorldShape(w) && g != [] && InTimeOrder(g) && Later(g, ZERO_TIME)
    requires IngestAsset(cfg, f, w, tally, g).ok
    requires WorldShape(IngestAsset(cfg, f, w, tally, g).world)
    ensures ShareSettled(cfg, IngestAsset(cfg, f, w, tally, g).world, g)
  {
    hide IngestGroup, Quiet, WellFormed, AssetFor, InTimeOrder, Later;
    if AssetFor(w, g[0]).Some? {
      AssetForShape(w, g[0]);
      var a := AssetFor(w, g[0]).value;
      var s := Progress(w.env, a, tally, true);
      GroupKeepsShape(cfg, f, s, ZERO_TIME, g);
      GroupSettles(cfg, f, s, ZERO_TIME, g, []);
      assert [] + g == g;
      AssetForAgain(w, IngestAsset(cfg, f, w, tally, g).world, g[0], IngestGroup(cfg, f, s, ZERO_TIME, g).asset);
    }
  }

  lemma SettledElsewhere(cfg: Config, w: World, w': World, id: string, g: seq<Metric>)
    requires WorldShape(w) && WorldShape(w') && g != [] && ShareSettled(cfg, w, g)
    requires OnlyAsset(w, w', id) && g[0].asset != id
    ensures ShareSettled(cfg, w', g)
  {
    hide Quiet, BuiltAsset;
  }

  lemma {:induction false} IngestSettles(
    cfg: Config, f: Faults, w: World, tally: Tally, ids: seq<string>, ms: seq<Metric>, done: seq<string>)
    requires WorldShape(w) && Timed(ms) && (forall id :: id in done + ids ==> GroupOf(ms, id) != [])
             && Distinct(done + ids)
    requires SharesSettled(cfg, w, done, ms)
    requires IngestAssets(cfg, f, w, tally, ids, ms).ok
    ensures WorldShape(IngestAssets(cfg, f, w, tally, ids, ms).world)
    ensures SharesSettled(cfg, IngestAssets(cfg, f, w, tally, ids, ms).world, done + ids, ms)
    decreases |ids|
  {
    hide WorldShape, IngestAsset, GroupOf, InTimeOrder, Later, ShareSettled, OnlyAsset;
    if ids == [] {
      assert done + ids == done;
    } else {
      var id, g := ids[0], Share(ms, ids[0]);
      assert id in done + ids;
      ShareShape(ms, id);
      IngestAssetFrame(cfg, f, w, tally, g);
      IngestAssetShape(cfg, f, w, tally, g);
      ShareSettles(cfg, f, w, tally, g);
      var r := IngestAsset(cfg, f, w, tally, g);
      forall x | x in done
        ensures ShareSettled(cfg, r.world, Share(ms, x))
      {
        DistinctApart(done, ids, x);
        ShareShape(ms, x);
        SettledElsewhere(cfg, w, r.world, id, Share(ms, x));
      }
      assert done + [id] + ids[1..] == done + ids;
      IngestSettles(cfg, f, r.world, r.tally, ids[1..], ms, done + [id]);
    }
  }

  lemma DistinctApart(done: seq<string>, ids: seq<string>, x: string)
    requires Distinct(done + ids) && x in done && ids != []
    ensures x != ids[0]
  {
    var i :| 0 <= i < |done| && done[i] == x;
    assert (done + ids)[i] == x && (done + ids)[|done|] == ids[0];
  }

  /**
    Replaying the batch just ingested is a no-op: after an ingest without a
    store error, ingesting the same batch again accepts nothing, evaluates
    nothing, fires nothing, creates nothing, counts every metric as rejected or
    duplicate, and leaves the whole world unchanged.
   */
  lemma ReplayIsNoop(cfg: Config, f: Faults, w: World, batch: seq<Metric>)
    requires WorldShape(w) && Ingest(cfg, f, w, batch).ok
    ensures WorldShape(Ingest(cfg, f, w, batch).world)
    ensures var w1 := Ingest(cfg, f, w, batch).world;
            var again := Ingest(cfg, f, w1, batch);
            && again.ok && again.world == w1
            && again.tally.accepted == 0 && again.tally.evaluated == 0
            && again.tally.alerts == 0 && again.tally.workOrders == 0
            && again.tally.rejected + again.tally.duplicates == |batch|
  {
    hide WorldShape, IngestAssets, ValidOf, AssetsOf, GroupOf, SharesSettled;
    var ms := ValidOf(batch);
    ValidLength(batch);
    AssetsHaveGroups(ms);
    assert Timed(ms);
    var ids := AssetsOf(ms);
    assert [] + ids == ids;
    NothingSettled(cfg, w, ms);
    IngestShape(cfg, f, w, batch);
    IngestSettles(cfg, f, w, NOTHING.(rejected := |batch| - |ms|), ids, ms, []);
    RedeliveryIsNoopIff(cfg, f, Ingest(cfg, f, w, batch).world, batch);
  }

  lemma NothingSettled(cfg: Config, w: World, ms: seq<Metric>)
    requires WorldShape(w)
    ensures SharesSettled(cfg, w, [], ms)
  {
  }
}
