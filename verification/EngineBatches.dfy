/**
  Where a stream is cut into batches, and what retrying a failed batch does: a
  share can be cut between two instants without a difference, and a retry takes
  up exactly what the abort cut off, without making the failed evaluation again.
 */
module EngineBatches {
  import opened Common
  import opened EngineModel
  import opened EngineWorld
  import opened EngineReplay
  import opened EngineRedelivery
  import Fusion
  import Pipeline
  import Policy

  // ----- Cutting a share -----

  /** The time that waits to be evaluated after `ms`. */
  function PendingAfter(pending: Time, ms: seq<Metric>): Time {
    if ms == [] then pending else ms[|ms| - 1].ts
  }

  /** Taking a share in two pieces, cut where time moves on, is taking it whole. */
  lemma {:induction false} CutAtInstant(
      cfg: Config, f: Faults, s: Progress, pending: Time, ms: seq<Metric>, more: seq<Metric>)
    requires WellFormed(s.asset) && s.ok && more != []
    requires PendingAfter(pending, ms) != ZERO_TIME ==> PendingAfter(pending, ms) < more[0].ts
    ensures var s1 := IngestGroup(cfg, f, s, pending, ms);
            && WellFormed(s1.asset)
            && IngestGroup(cfg, f, s, pending, ms + more)
               == if s1.ok then IngestGroup(cfg, f, s1, ZERO_TIME, more) else s1
    decreases |ms|
  {
    hide EvaluateIfReady, PushMetric, WellFormed;
    EvaluateShape(cfg, f, s, pending);
    if ms == [] {
      assert ms + more == more;
    } else {
      var m := ms[0];
      assert (ms + more)[0] == m && (ms + more)[1..] == ms[1..] + more;
      var s1 := if pending != ZERO_TIME && m.ts > pending then EvaluateIfReady(cfg, f, s, pending) else s;
      if s1.ok {
        PushShape(cfg, s1.asset, m);
        var (a, pushed) := PushMetric(cfg, s1.asset, m);
        CutAtInstant(cfg, f, s1.(asset := a, tally := Count(s1.tally, pushed)), m.ts, ms[1..], more);
      }
    }
  }

  /** Some metrics, then others that are all later. */
  ghost predicate Before(done: seq<Metric>, rest: seq<Metric>) {
    forall i, j :: 0 <= i < |done| && 0 <= j < |rest| ==> done[i].ts < rest[j].ts
  }

  // ----- Cutting a batch -----

  function Plus(t: Tally, u: Tally): Tally {
    Tally(t.accepted + u.accepted, t.rejected + u.rejected, t.duplicates + u.duplicates,
          t.evaluated + u.evaluated, t.alerts + u.alerts, t.workOrders + u.workOrders)
  }

  function Shifted(t: Tally, s: Progress): Progress {
    s.(tally := Plus(t, s.tally))
  }

  /** Counts add up: no step looks at the tally it adds to. */
  lemma ReactAdds(
      cfg: Config, f: Faults, s: Progress, ts: Time, as_: Fusion.Assessment, top: string, o: Policy.Outcome, t: Tally)
    ensures React(cfg, f, Shifted(t, s), ts, as_, top, o) == Shifted(t, React(cfg, f, s, ts, as_, top, o))
  {
    hide RaiseOrder;
  }

  lemma ExamineAdds(cfg: Config, f: Faults, s: Progress, ts: Time, t: Tally)
    requires s.asset.tpl.Valid()
    ensures var x := Examine(cfg, f, s, ts); Examine(cfg, f, Shifted(t, s), ts) == x.(s := Shifted(t, x.s))
  {
    hide Pipeline.Learn, Pipeline.Assess;
  }

  lemma FeedAdds(s: Progress, ts: Time, risk: real, t: Tally)
    ensures var (s1, o) := FeedPolicy(s, ts, risk); FeedPolicy(Shifted(t, s), ts, risk) == (Shifted(t, s1), o)
  {
    hide Policy.Evaluate, SiteLimiter;
  }

  lemma EvaluateAdds(cfg: Config, f: Faults, s: Progress, ts: Time, t: Tally)
    requires WellFormed(s.asset)
    ensures EvaluateIfReady(cfg, f, Shifted(t, s), ts) == Shifted(t, EvaluateIfReady(cfg, f, s, ts))
  {
    hide Examine, FeedPolicy, React, Evaluates;
    if Evaluates(s.asset, ts) {
      ExamineAdds(cfg, f, s, ts, t);
      var x := Examine(cfg, f, s, ts);
      FeedAdds(x.s, ts, x.assessment.risk, t);
      var (s1, o) := FeedPolicy(x.s, ts, x.assessment.risk);
      ReactAdds(cfg, f, s1, ts, x.assessment, x.top, o, t);
    }
  }

  lemma {:induction false} GroupAdds(cfg: Config, f: Faults, s: Progress, pending: Time, ms: seq<Metric>, t: Tally)
    requires WellFormed(s.asset)
    ensures IngestGroup(cfg, f, Shifted(t, s), pending, ms) == Shifted(t, IngestGroup(cfg, f, s, pending, ms))
    decreases |ms|
  {
    hide EvaluateIfReady, PushMetric, WellFormed;
    EvaluateAdds(cfg, f, s, pending, t);
    EvaluateShape(cfg, f, s, pending);
    if ms != [] {
      var m := ms[0];
      var s1 := if pending != ZERO_TIME && m.ts > pending then EvaluateIfReady(cfg, f, s, pending) else s;
      if s1.ok {
        PushShape(cfg, s1.asset, m);
        var (a, pushed) := PushMetric(cfg, s1.asset, m);
        GroupAdds(cfg, f, s1.(asset := a, tally := Count(s1.tally, pushed)), m.ts, ms[1..], t);
      }
    }
  }

  lemma {:induction false} ValidOfBoth(b1: seq<Metric>, b2: seq<Metric>)
    ensures ValidOf(b1 + b2) == ValidOf(b1) + ValidOf(b2)
  {
    hide Validated;
    if b2 == [] {
      assert b1 + b2 == b1;
    } else {
      ValidOfBoth(b1, b2[..|b2| - 1]);
      assert (b1 + b2)[..|b1 + b2| - 1] == b1 + b2[..|b2| - 1];
    }
  }

  /** All metrics are of one asset. */
  ghost predicate OfOne(ms: seq<Metric>, id: string) {
    ms != [] && forall m :: m in ms ==> m.asset == id
  }

  lemma {:induction false} OneGroup(ms: seq<Metric>, id: string)
    requires OfOne(ms, id)
    ensures AssetsOf(ms) == [id] && GroupOf(ms, id) == ms
  {
    var front := ms[..|ms| - 1];
    assert ms == front + [ms[|ms| - 1]];
    if front != [] {
      OneGroup(front, id);
    }
  }

  lemma {:induction false} InsertLater(xs: seq<Metric>, ys: seq<Metric>, m: Metric)
    requires forall x :: x in xs ==> x.ts <= m.ts
    ensures InsertByTime(xs + ys, m) == xs + InsertByTime(ys, m)
  {
    if ys == [] {
      assert xs + ys == xs;
    } else if ys[|ys| - 1].ts > m.ts {
      InsertLater(xs, ys[..|ys| - 1], m);
      assert (xs + ys)[..|xs + ys| - 1] == xs + ys[..|ys| - 1];
    }
  }

  lemma {:induction false} SortBoth(xs: seq<Metric>, ys: seq<Metric>)
    requires Before(xs, ys)
    ensures SortByTime(xs + ys) == SortByTime(xs) + SortByTime(ys)
  {
    if ys == [] {
      assert xs + ys == xs;
    } else {
      var front, m := ys[..|ys| - 1], ys[|ys| - 1];
      SortBoth(xs, front);
      assert (xs + ys)[..|xs + ys| - 1] == xs + front;
      SortKeeps(xs);
      InsertLater(SortByTime(xs), SortByTime(front), m);
    }
  }

  function Refused(n: nat): Tally {
    NOTHING.(rejected := n)
  }

  /** A batch of one asset is its share. */
  lemma OneShareBatch(cfg: Config, f: Faults, w: World, b: seq<Metric>, id: string)
    requires WorldShape(w) && OfOne(ValidOf(b), id)
    ensures |ValidOf(b)| <= |b|
    ensures Ingest(cfg, f, w, b)
            == IngestAsset(cfg, f, w, Refused(|b| - |ValidOf(b)|), SortByTime(ValidOf(b)))
  {
    hide WorldShape, ValidOf, AssetsOf, GroupOf, SortByTime, IngestAsset;
    var ms := ValidOf(b);
    ValidLength(b);
    OneGroup(ms, id);
    AssetsHaveGroups(ms);
    var t := Refused(|b| - |ms|);
    IngestAssetShape(cfg, f, w, t, SortByTime(ms));
    assert [id][1..] == [];
    assert IngestAssets(cfg, f, w, t, [id], ms) == IngestAsset(cfg, f, w, t, SortByTime(ms));
  }

  /** Two shares of a known or registrable asset at one site, one after the other. */
  lemma CutShare(cfg: Config, f: Faults, w: World, g1: seq<Metric>, g2: seq<Metric>, n1: nat, n2: nat)
    requires WorldShape(w) && g1 != [] && g2 != [] && g1[|g1| - 1].ts < g2[0].ts
    requires AssetFor(w, g1[0]).Some? && g2[0].asset == g1[0].asset && g2[0].site == g1[0].site
    ensures WorldShape(IngestAsset(cfg, f, w, Refused(n1), g1).world)
    ensures var r1 := IngestAsset(cfg, f, w, Refused(n1), g1);
            var r2 := IngestAsset(cfg, f, r1.world, Refused(n2), g2);
            IngestAsset(cfg, f, w, Refused(n1 + n2), g1 + g2)
            == if r1.ok then Ingested(r2.world, Plus(r1.tally, r2.tally), r2.ok)
               else r1.(tally := Plus(Refused(n2), r1.tally))
  {
    hide IngestGroup, WellFormed, AssetFor;
    IngestAssetShape(cfg, f, w, Refused(n1), g1);
    AssetForShape(w, g1[0]);
    var a := AssetFor(w, g1[0]).value;
    var s := Progress(w.env, a, Refused(n1), true);
    GroupKeepsShape(cfg, f, s, ZERO_TIME, g1);
    var s1 := IngestGroup(cfg, f, s, ZERO_TIME, g1);
    assert (g1 + g2)[0] == g1[0];
    assert Shifted(Refused(n2), s) == s.(tally := Refused(n1 + n2));
    GroupAdds(cfg, f, s, ZERO_TIME, g1 + g2, Refused(n2));
    CutAtInstant(cfg, f, s, ZERO_TIME, g1, g2);
    if s1.ok {
      var w1 := IngestAsset(cfg, f, w, Refused(n1), g1).world;
      FoundAtSite(w, w1, g1[0], g2[0], s1.asset);
      var p := Progress(s1.env, s1.asset, NOTHING, true);
      assert Shifted(s1.tally, p) == s1 && Shifted(Refused(n2), p) == p.(tally := Refused(n2));
      GroupAdds(cfg, f, p, ZERO_TIME, g2, s1.tally);
      GroupAdds(cfg, f, p, ZERO_TIME, g2, Refused(n2));
    }
  }

  /** The next metric of the same asset and site finds the asset as it was left. */
  lemma FoundAtSite(w: World, w': World, m: Metric, m': Metric, a': Asset)
    requires AssetFor(w, m).Some? && m'.asset == m.asset && m'.site == m.site
    requires m.asset in w'.assets && w'.assets[m.asset] == a' && a'.site == AssetFor(w, m).value.site
    ensures AssetFor(w', m') == Some(a')
  {
    hide BuiltAsset;
    if m.asset !in w.assets {
      BuiltSite(m, w);
    }
  }

  /**
    Where a stream of one asset at one site is cut into batches does not matter,
    as long as the cut falls between two instants: ingesting both pieces, one after
    the other, leaves the world of ingesting them as one batch, with the counts
    added up; and if the first piece is aborted, so is the whole, at the same place.
   */
  lemma CutBetweenInstants(cfg: Config, f: Faults, w: World, b1: seq<Metric>, b2: seq<Metric>, id: string, site: string)
    requires WorldShape(w) && OfOne(ValidOf(b1), id) && OfOne(ValidOf(b2), id) && Before(ValidOf(b1), ValidOf(b2))
    requires forall m :: m in ValidOf(b1) + ValidOf(b2) ==> m.site == site
    requires id in w.assets || (forall m :: m in ValidOf(b1) ==> m.class_ != "" && m.class_ in w.templates)
    ensures |ValidOf(b2)| <= |b2| && WorldShape(Ingest(cfg, f, w, b1).world)
    ensures var r1 := Ingest(cfg, f, w, b1);
            var r2 := Ingest(cfg, f, r1.world, b2);
            Ingest(cfg, f, w, b1 + b2)
            == if r1.ok then Ingested(r2.world, Plus(r1.tally, r2.tally), r2.ok)
               else r1.(tally := Plus(Refused(|b2| - |ValidOf(b2)|), r1.tally))
  {
    hide WorldShape, ValidOf, SortByTime, IngestAsset, Ingest, AssetFor, Before, OfOne, Plus, Refused;
    var m1, m2 := ValidOf(b1), ValidOf(b2);
    ValidOfBoth(b1, b2);
    ValidLength(b2);
    SortBoth(m1, m2);
    BothOfOne(m1, m2, id);
    SharesMeet(w, m1, m2, id, site);
    OneShareBatch(cfg, f, w, b1, id);
    OneShareBatch(cfg, f, w, b1 + b2, id);
    CutShare(cfg, f, w, SortByTime(m1), SortByTime(m2), |b1| - |m1|, |b2| - |m2|);
    OneShareBatch(cfg, f, Ingest(cfg, f, w, b1).world, b2, id);
  }

  lemma BothOfOne(m1: seq<Metric>, m2: seq<Metric>, id: string)
    requires OfOne(m1, id) && OfOne(m2, id)
    ensures OfOne(m1 + m2, id)
  {
  }

  lemma SharesMeet(w: World, m1: seq<Metric>, m2: seq<Metric>, id: string, site: string)
    requires OfOne(m1, id) && OfOne(m2, id) && Before(m1, m2) && forall m :: m in m1 + m2 ==> m.site == site
    requires id in w.assets || (forall m :: m in m1 ==> m.class_ != "" && m.class_ in w.templates)
    ensures var g1, g2 := SortByTime(m1), SortByTime(m2);
            && g1 != [] && g2 != [] && g1[|g1| - 1].ts < g2[0].ts
            && AssetFor(w, g1[0]).Some? && g2[0].asset == g1[0].asset && g2[0].site == g1[0].site
  {
    hide SortByTime, BuiltAsset;
    SortKeeps(m1);
    SortKeeps(m2);
    var g1, g2 := SortByTime(m1), SortByTime(m2);
    assert g1[0] in g1 && g1[|g1| - 1] in g1 && g2[0] in g2;
    assert g1[0] in m1 + m2 && g2[0] in m1 + m2;
  }

  // ----- Retrying a share -----

  /**
    An aborted share had taken a first part, all of one instant or earlier; that
    part is settled, the rest is later.
   */
  lemma {:induction false} AbortSplits(
      cfg: Config, f: Faults, s: Progress, pending: Time, ms: seq<Metric>, done: seq<Metric>)
    returns (k: nat)
    requires WellFormed(s.asset) && InTimeOrder(ms) && Later(ms, pending) && DoneBy(cfg, s.asset, done, pending)
    requires s.ok && (pending == ZERO_TIME <==> done == []) && !IngestGroup(cfg, f, s, pending, ms).ok
    ensures k <= |ms| && done + ms[..k] != [] && Before(done + ms[..k], ms[k..])
    ensures var s' := IngestGroup(cfg, f, s, pending, ms);
            WellFormed(s'.asset) && Quiet(cfg, s'.asset, done + ms[..k])
    decreases |ms|
  {
    hide EvaluateIfReady, PushMetric, WellFormed, Quiet, InTimeOrder, Later;
    EvaluateShape(cfg, f, s, pending);
    if ms == [] || (pending != ZERO_TIME && ms[0].ts > pending && !EvaluateIfReady(cfg, f, s, pending).ok) {
      k := 0;
      assert done + ms[..0] == done && ms[0..] == ms;
      EvaluationSettles(cfg, f, s, pending, done);
      LaterThanDone(cfg, s.asset, done, pending, ms);
    } else {
      var m := ms[0];
      TailInOrder(ms, pending);
      hide DoneBy;
      StepSettles(cfg, f, s, pending, m, done);
      var s1 := if pending != ZERO_TIME && m.ts > pending then EvaluateIfReady(cfg, f, s, pending) else s;
      PushShape(cfg, s1.asset, m);
      var (a, pushed) := PushMetric(cfg, s1.asset, m);
      var j := AbortSplits(cfg, f, s1.(asset := a, tally := Count(s1.tally, pushed)), m.ts, ms[1..], done + [m]);
      k := j + 1;
      assert done + [m] + ms[1..][..j] == done + ms[..k] && ms[1..][j..] == ms[k..];
    }
  }

  lemma LaterThanDone(cfg: Config, a: Asset, done: seq<Metric>, pending: Time, ms: seq<Metric>)
    requires DoneBy(cfg, a, done, pending) && InTimeOrder(ms) && (ms != [] ==> pending < ms[0].ts)
    ensures Before(done, ms)
  {
    hide Settled;
    forall i, j | 0 <= i < |done| && 0 <= j < |ms|
      ensures done[i].ts < ms[j].ts
    {
      assert done[i] in done && ms[0].ts <= ms[j].ts;
    }
  }

  /** Taking a share again whose first part is settled is taking the rest: the first part is only counted. */
  lemma SettledPartIsSkipped(cfg: Config, f: Faults, s: Progress, done: seq<Metric>, rest: seq<Metric>)
    requires WellFormed(s.asset) && s.ok && Quiet(cfg, s.asset, done) && Before(done, rest) && done != []
    ensures var t := IngestGroup(cfg, f, s, ZERO_TIME, done).tally;
            && OnlyRefused(s.tally, t, |done|)
            && IngestGroup(cfg, f, s, ZERO_TIME, done + rest) == IngestGroup(cfg, f, s.(tally := t), ZERO_TIME, rest)
  {
    hide IngestGroup, Quiet, WellFormed;
    QuietIsNoop(cfg, f, s, ZERO_TIME, done);
    if rest == [] {
      assert done + rest == done;
      NothingToTake(cfg, f, IngestGroup(cfg, f, s, ZERO_TIME, done));
    } else {
      assert done[|done| - 1].ts < rest[0].ts;
      CutAtInstant(cfg, f, s, ZERO_TIME, done, rest);
    }
  }

  lemma NothingToTake(cfg: Config, f: Faults, s: Progress)
    requires WellFormed(s.asset)
    ensures IngestGroup(cfg, f, s, ZERO_TIME, []) == s
  {
  }

  /**
    Retrying an aborted share, from whatever tally: the first `k` metrics, up to
    the instant whose evaluation failed, are only counted as duplicates or
    rejections and call for no evaluation; the others are taken as if the share
    began with them.
   */
  lemma RetriedShareResumes(cfg: Config, f: Faults, s: Progress, ms: seq<Metric>, t: Tally) returns (k: nat)
    requires WellFormed(s.asset) && s.ok && InTimeOrder(ms) && Later(ms, ZERO_TIME)
    requires !IngestGroup(cfg, f, s, ZERO_TIME, ms).ok
    ensures 0 < k <= |ms| && Before(ms[..k], ms[k..])
    ensures var s1 := IngestGroup(cfg, f, s, ZERO_TIME, ms).(ok := true, tally := t);
            && WellFormed(s1.asset) && Quiet(cfg, s1.asset, ms[..k])
            && var t' := IngestGroup(cfg, f, s1, ZERO_TIME, ms[..k]).tally;
               && OnlyRefused(t, t', k)
               && IngestGroup(cfg, f, s1, ZERO_TIME, ms)
                  == IngestGroup(cfg, f, s1.(tally := t'), ZERO_TIME, ms[k..])
  {
    hide IngestGroup, Quiet, WellFormed, InTimeOrder, Later, Before;
    NothingDone(cfg, s.asset);
    k := AbortSplits(cfg, f, s, ZERO_TIME, ms, []);
    assert [] + ms[..k] == ms[..k] && ms[..k] + ms[k..] == ms;
    SettledPartIsSkipped(
      cfg, f, IngestGroup(cfg, f, s, ZERO_TIME, ms).(ok := true, tally := t), ms[..k], ms[k..]);
  }

  lemma NothingDone(cfg: Config, a: Asset)
    ensures DoneBy(cfg, a, [], ZERO_TIME)
  {
  }

  // ----- Retrying a batch -----

  /** The share of the asset that failed is taken up again at `rest`, and the shares after it follow. */
  ghost function Resumed(
      cfg: Config, f: Faults, w: World, tally: Tally, id: string, rest: seq<Metric>, ids: seq<string>, ms: seq<Metric>)
    : (r: Ingested)
    requires WorldShape(w) && id in w.assets && forall x :: x in ids ==> GroupOf(ms, x) != []
  {
    var s := IngestGroup(cfg, f, Progress(w.env, w.assets[id], tally, true), ZERO_TIME, rest);
    var w' := World(w.templates, w.assets[id := s.asset], s.env, w.born);
    ResumedShape(cfg, f, w, tally, id, rest);
    if s.ok then IngestAssets(cfg, f, w', s.tally, ids, ms) else Ingested(w', s.tally, false)
  }

  lemma ResumedShape(cfg: Config, f: Faults, w: World, tally: Tally, id: string, rest: seq<Metric>)
    requires WorldShape(w) && id in w.assets
    ensures var s := IngestGroup(cfg, f, Progress(w.env, w.assets[id], tally, true), ZERO_TIME, rest);
            WorldShape(World(w.templates, w.assets[id := s.asset], s.env, w.born))
  {
    hide IngestGroup, WellFormed;
    GroupKeepsShape(cfg, f, Progress(w.env, w.assets[id], tally, true), ZERO_TIME, rest);
  }

  /** An aborted list of shares took some of them and failed in the next. */
  lemma {:induction false} AbortedAt(
      cfg: Config, f: Faults, w: World, tally: Tally, ids: seq<string>, ms: seq<Metric>) returns (k: nat)
    requires WorldShape(w) && (forall x :: x in ids ==> GroupOf(ms, x) != [])
    requires !IngestAssets(cfg, f, w, tally, ids, ms).ok
    ensures k < |ids| && forall x :: x in ids[..k] ==> GroupOf(ms, x) != []
    ensures var r := IngestAssets(cfg, f, w, tally, ids[..k], ms);
            && r.ok && WorldShape(r.world)
            && IngestAssets(cfg, f, w, tally, ids, ms) == IngestAsset(cfg, f, r.world, r.tally, Share(ms, ids[k]))
    decreases |ids|
  {
    hide WorldShape, IngestAsset, GroupOf;
    var g := Share(ms, ids[0]);
    IngestAssetShape(cfg, f, w, tally, g);
    var r := IngestAsset(cfg, f, w, tally, g);
    if r.ok {
      var j := AbortedAt(cfg, f, r.world, r.tally, ids[1..], ms);
      k := j + 1;
      assert ids[..k][0] == ids[0] && ids[..k][1..] == ids[1..][..j];
    } else {
      k := 0;
      assert ids[..0] == [];
    }
  }

  /** Shares at the head of a list that are settled are skipped. */
  lemma {:induction false} SettledHeadIsSkipped(
      cfg: Config, f: Faults, w: World, tally: Tally, done: seq<string>, ids: seq<string>, ms: seq<Metric>)
    returns (t: Tally)
    requires WorldShape(w) && (forall x :: x in done + ids ==> GroupOf(ms, x) != [])
    requires (forall x :: x in done ==> GroupOf(ms, x) != []) && SharesSettled(cfg, w, done, ms)
    ensures forall x :: x in ids ==> GroupOf(ms, x) != []
    ensures OnlyRefused(tally, t, Total(done, ms))
    ensures IngestAssets(cfg, f, w, tally, done + ids, ms) == IngestAssets(cfg, f, w, t, ids, ms)
    decreases |done|
  {
    hide WorldShape, IngestAsset, GroupOf, ShareSettled;
    assert forall x :: x in ids ==> x in done + ids;
    if done == [] {
      t := tally;
      assert done + ids == ids;
    } else {
      var g := Share(ms, done[0]);
      assert done[0] in done && (done + ids)[0] == done[0] && (done + ids)[1..] == done[1..] + ids;
      SettledShareIsNoop(cfg, f, w, tally, g);
      assert forall x :: x in done[1..] + ids ==> x in done + ids;
      t := SettledHeadIsSkipped(cfg, f, w, IngestAsset(cfg, f, w, tally, g).tally, done[1..], ids, ms);
    }
  }

  /** The share that failed, taken again over the world it left. */
  lemma RetriedAssetResumes(cfg: Config, f: Faults, w: World, tally: Tally, g: seq<Metric>, t: Tally)
    returns (n: nat, t': Tally)
    requires WorldShape(w) && g != [] && InTimeOrder(g) && Later(g, ZERO_TIME)
    requires !IngestAsset(cfg, f, w, tally, g).ok
    ensures 0 < n <= |g| && Before(g[..n], g[n..]) && OnlyRefused(t, t', n)
    ensures var w1, id := IngestAsset(cfg, f, w, tally, g).world, g[0].asset;
            && WorldShape(w1) && id in w1.assets
            && Quiet(cfg, w1.assets[id], g[..n])
            && var s := IngestGroup(cfg, f, Progress(w1.env, w1.assets[id], t', true), ZERO_TIME, g[n..]);
               IngestAsset(cfg, f, w1, t, g)
               == Ingested(World(w1.templates, w1.assets[id := s.asset], s.env, w1.born), s.tally, s.ok)
  {
    hide IngestGroup, Quiet, WellFormed, AssetFor, InTimeOrder, Later, Before;
    IngestAssetShape(cfg, f, w, tally, g);
    AssetForShape(w, g[0]);
    var s := Progress(w.env, AssetFor(w, g[0]).value, tally, true);
    GroupKeepsShape(cfg, f, s, ZERO_TIME, g);
    var s1 := IngestGroup(cfg, f, s, ZERO_TIME, g).(ok := true, tally := t);
    n := RetriedShareResumes(cfg, f, s, g, t);
    t' := IngestGroup(cfg, f, s1, ZERO_TIME, g[..n]).tally;
    var w1 := IngestAsset(cfg, f, w, tally, g).world;
    AssetForAgain(w, w1, g[0], s1.asset);
    assert s1 == Progress(w1.env, w1.assets[g[0].asset], t, true);
  }

  /** What was settled stays so when only another asset changes. */
  lemma HeadStaysSettled(cfg: Config, w: World, w': World, id: string, done: seq<string>, ms: seq<Metric>)
    requires WorldShape(w) && WorldShape(w') && OnlyAsset(w, w', id) && id !in done && Timed(ms)
    requires (forall x :: x in done ==> GroupOf(ms, x) != []) && SharesSettled(cfg, w, done, ms)
    ensures SharesSettled(cfg, w', done, ms)
  {
    hide WorldShape, OnlyAsset, ShareSettled, InTimeOrder, Later, GroupOf;
    forall x | x in done
      ensures ShareSettled(cfg, w', Share(ms, x))
    {
      ShareShape(ms, x);
      SettledElsewhere(cfg, w, w', id, Share(ms, x));
    }
  }

  /** The prefix of a list that went through is settled where the next share failed. */
  lemma HeadIsSettled(
      cfg: Config, f: Faults, w: World, tally: Tally, ids: seq<string>, ms: seq<Metric>, k: nat)
    requires WorldShape(w) && Timed(ms) && Distinct(ids) && k < |ids|
    requires (forall x :: x in ids ==> GroupOf(ms, x) != []) && (forall x :: x in ids[..k] ==> GroupOf(ms, x) != [])
    requires IngestAssets(cfg, f, w, tally, ids[..k], ms).ok
    requires WorldShape(IngestAssets(cfg, f, w, tally, ids[..k], ms).world)
    ensures var r := IngestAssets(cfg, f, w, tally, ids[..k], ms);
            var w1 := IngestAsset(cfg, f, r.world, r.tally, Share(ms, ids[k])).world;
            WorldShape(w1) && SharesSettled(cfg, w1, ids[..k], ms)
  {
    hide WorldShape, IngestAssets, IngestAsset, GroupOf, SharesSettled, OnlyAsset;
    assert [] + ids[..k] == ids[..k];
    NothingSettled(cfg, w, ms);
    IngestSettles(cfg, f, w, tally, ids[..k], ms, []);
    var r, g := IngestAssets(cfg, f, w, tally, ids[..k], ms), Share(ms, ids[k]);
    assert ids[k] in ids;
    ShareShape(ms, ids[k]);
    IngestAssetShape(cfg, f, r.world, r.tally, g);
    IngestAssetFrame(cfg, f, r.world, r.tally, g);
    HeadStaysSettled(cfg, r.world, IngestAsset(cfg, f, r.world, r.tally, g).world, ids[k], ids[..k], ms);
  }

  /**
    Retrying a batch that a store error aborted, in full: the retry skips the
    shares that had gone through and, of the share that failed, the metrics up to
    the instant whose evaluation failed; it takes up the rest of that share and
    then the shares after it. Nothing of what it skips is evaluated again.
   */
  lemma RetryResumes(cfg: Config, f: Faults, w: World, batch: seq<Metric>) returns (k: nat, n: nat, t: Tally)
    requires WorldShape(w) && !Ingest(cfg, f, w, batch).ok
    ensures var ms, w1 := ValidOf(batch), Ingest(cfg, f, w, batch).world;
            var ids := AssetsOf(ms);
            && |ms| <= |batch| && k < |ids| && 0 < n <= |Share(ms, ids[k])|
            && WorldShape(w1) && ids[k] in w1.assets
            && (forall x :: x in ids ==> GroupOf(ms, x) != [])
            && var g := Share(ms, ids[k]);
               && Before(g[..n], g[n..]) && Quiet(cfg, w1.assets[ids[k]], g[..n])
               && SharesSettled(cfg, w1, ids[..k], ms)
               && OnlyRefused(NOTHING, t, |batch| - |ms| + Total(ids[..k], ms) + n)
               && Ingest(cfg, f, w1, batch) == Resumed(cfg, f, w1, t, ids[k], g[n..], ids[k + 1..], ms)
  {
    hide WorldShape, ValidOf, AssetsOf, GroupOf, SharesSettled, IngestAsset, IngestAssets, IngestGroup;
    hide Quiet, Before, InTimeOrder, Later;
    var ms := ValidOf(batch);
    ValidLength(batch);
    AssetsHaveGroups(ms);
    var ids, t0 := AssetsOf(ms), NOTHING.(rejected := |batch| - |ms|);
    k := AbortedAt(cfg, f, w, t0, ids, ms);
    var r := IngestAssets(cfg, f, w, t0, ids[..k], ms);
    HeadIsSettled(cfg, f, w, t0, ids, ms, k);
    assert ids[k] in ids;
    ShareShape(ms, ids[k]);
    var w1 := IngestAsset(cfg, f, r.world, r.tally, Share(ms, ids[k])).world;
    n, t := ListResumes(cfg, f, r.world, r.tally, w1, t0, ids, ms, k);
  }

  lemma ListResumes(
      cfg: Config, f: Faults, w: World, tally: Tally, w1: World, t0: Tally, ids: seq<string>, ms: seq<Metric>, k: nat)
    returns (n: nat, t: Tally)
    requires WorldShape(w) && WorldShape(w1) && k < |ids| && (forall x :: x in ids ==> GroupOf(ms, x) != [])
    requires InTimeOrder(Share(ms, ids[k])) && Later(Share(ms, ids[k]), ZERO_TIME)
    requires Share(ms, ids[k]) != [] && Share(ms, ids[k])[0].asset == ids[k]
    requires var r := IngestAsset(cfg, f, w, tally, Share(ms, ids[k])); !r.ok && r.world == w1
    requires (forall x :: x in ids[..k] ==> GroupOf(ms, x) != []) && SharesSettled(cfg, w1, ids[..k], ms)
    ensures ids[k] in w1.assets && 0 < n <= |Share(ms, ids[k])|
    ensures var g := Share(ms, ids[k]);
            && Before(g[..n], g[n..]) && Quiet(cfg, w1.assets[ids[k]], g[..n])
            && OnlyRefused(t0, t, Total(ids[..k], ms) + n)
            && IngestAssets(cfg, f, w1, t0, ids, ms) == Resumed(cfg, f, w1, t, ids[k], g[n..], ids[k + 1..], ms)
  {
    hide WorldShape, GroupOf, SharesSettled, IngestAsset, IngestAssets, IngestGroup, Quiet, Before, InTimeOrder, Later;
    hide Total;
    assert ids[..k] + ids[k..] == ids;
    var t1 := SettledHeadIsSkipped(cfg, f, w1, t0, ids[..k], ids[k..], ms);
    n, t := RetriedAssetResumes(cfg, f, w, tally, Share(ms, ids[k]), t1);
    ResumesAtHead(cfg, f, w1, t1, t, ids[k..], ms, Share(ms, ids[k])[n..]);
    assert ids[k..][1..] == ids[k + 1..];
  }

  lemma ResumesAtHead(
      cfg: Config, f: Faults, w: World, t: Tally, t': Tally, ids: seq<string>, ms: seq<Metric>, rest: seq<Metric>)
    requires WorldShape(w) && ids != [] && (forall x :: x in ids ==> GroupOf(ms, x) != []) && ids[0] in w.assets
    requires var s := IngestGroup(cfg, f, Progress(w.env, w.assets[ids[0]], t', true), ZERO_TIME, rest);
             IngestAsset(cfg, f, w, t, Share(ms, ids[0]))
             == Ingested(World(w.templates, w.assets[ids[0] := s.asset], s.env, w.born), s.tally, s.ok)
    ensures IngestAssets(cfg, f, w, t, ids, ms) == Resumed(cfg, f, w, t', ids[0], rest, ids[1..], ms)
  {
    hide WorldShape, GroupOf, IngestAsset, IngestGroup;
  }

  // ----- A batch of one instant -----

  /** A share at one instant is settled after its only evaluation, whether that was aborted or not. */
  lemma {:induction false} InstantSettles(
    cfg: Config, f: Faults, s: Progress, pending: Time, ms: seq<Metric>, done: seq<Metric>, t: Time)
    requires WellFormed(s.asset) && t != ZERO_TIME && forall m :: m in ms ==> m.ts == t
    requires pending == ZERO_TIME || pending == t
    requires DoneBy(cfg, s.asset, done, pending) && (pending == ZERO_TIME ==> done == []) && s.ok
    ensures var s' := IngestGroup(cfg, f, s, pending, ms);
            WellFormed(s'.asset) && Quiet(cfg, s'.asset, done + ms)
    decreases |ms|
  {
    hide EvaluateIfReady, PushMetric, WellFormed, Quiet, DoneBy;
    if ms == [] {
      assert done + ms == done;
      if pending != ZERO_TIME {
        EvaluationSettles(cfg, f, s, t, done);
      } else {
        NothingIsQuiet(cfg, s.asset);
      }
    } else {
      var m := ms[0];
      assert m in ms;
      StepSettles(cfg, f, s, pending, m, done);
      PushShape(cfg, s.asset, m);
      var (a, pushed) := PushMetric(cfg, s.asset, m);
      InstantSettles(cfg, f, s.(asset := a, tally := Count(s.tally, pushed)), m.ts, ms[1..], done + [m], t);
      assert done + [m] + ms[1..] == done + ms;
    }
  }

  lemma InstantShareSettles(cfg: Config, f: Faults, w: World, tally: Tally, g: seq<Metric>, t: Time)
    requires WorldShape(w) && g != [] && t != ZERO_TIME && forall m :: m in g ==> m.ts == t
    ensures WorldShape(IngestAsset(cfg, f, w, tally, g).world)
    ensures ShareSettled(cfg, IngestAsset(cfg, f, w, tally, g).world, g)
  {
    hide IngestGroup, Quiet, DoneBy, WellFormed, AssetFor;
    IngestAssetShape(cfg, f, w, tally, g);
    if AssetFor(w, g[0]).Some? {
      AssetForShape(w, g[0]);
      var a := AssetFor(w, g[0]).value;
      var s := Progress(w.env, a, tally, true);
      GroupKeepsShape(cfg, f, s, ZERO_TIME, g);
      NothingDone(cfg, a);
      InstantSettles(cfg, f, s, ZERO_TIME, g, [], t);
      assert [] + g == g;
      AssetForAgain(w, IngestAsset(cfg, f, w, tally, g).world, g[0],
        IngestGroup(cfg, f, s, ZERO_TIME, g).asset);
    }
  }

  lemma ShareAtInstant(ms: seq<Metric>, id: string, t: Time)
    requires GroupOf(ms, id) != [] && forall m :: m in ms ==> m.ts == t && m.ts != ZERO_TIME
    ensures t != ZERO_TIME && Share(ms, id) != []
    ensures forall m :: m in Share(ms, id) ==> m.ts == t
  {
    hide GroupOf, SortByTime;
    assert GroupOf(ms, id)[0] in GroupOf(ms, id);
    SortKeeps(GroupOf(ms, id));
    forall m | m in Share(ms, id)
      ensures m in ms
    {
      assert m in multiset(Share(ms, id));
      assert m in GroupOf(ms, id);
    }
  }

  /** A list of one share at one instant leaves it settled. */
  lemma OneShareSettles(cfg: Config, f: Faults, w: World, tally: Tally, id: string, ms: seq<Metric>, t: Time)
    requires WorldShape(w) && GroupOf(ms, id) != [] && forall m :: m in ms ==> m.ts == t && m.ts != ZERO_TIME
    ensures var w1 := IngestAssets(cfg, f, w, tally, [id], ms).world;
            WorldShape(w1) && SharesSettled(cfg, w1, [id], ms)
  {
    hide WorldShape, IngestAsset, GroupOf, SortByTime, ShareSettled;
    var g := Share(ms, id);
    ShareAtInstant(ms, id, t);
    InstantShareSettles(cfg, f, w, tally, g, t);
    assert [id][1..] == [];
    assert IngestAssets(cfg, f, w, tally, [id], ms).world == IngestAsset(cfg, f, w, tally, g).world;
  }

  /**
    Retrying a batch of one asset and one instant does nothing, also when its
    ingest was aborted by a store error: whatever the abort lost stays lost.
   */
  lemma RetryOfInstantIsNoop(cfg: Config, f: Faults, w: World, batch: seq<Metric>, id: string, t: Time)
    requires WorldShape(w) && AssetsOf(ValidOf(batch)) == [id] && forall m :: m in ValidOf(batch) ==> m.ts == t
    ensures WorldShape(Ingest(cfg, f, w, batch).world)
    ensures var w1 := Ingest(cfg, f, w, batch).world;
            var again := Ingest(cfg, f, w1, batch);
            && again.ok && again.world == w1
            && again.tally.accepted == 0 && again.tally.evaluated == 0
            && again.tally.alerts == 0 && again.tally.workOrders == 0
            && again.tally.rejected + again.tally.duplicates == |batch|
  {
    hide WorldShape, IngestAssets, ValidOf, AssetsOf, GroupOf, SharesSettled;
    var ms := ValidOf(batch);
    ValidLength(batch);
    AssetsHaveGroups(ms);
    assert id in AssetsOf(ms);
    OneShareSettles(cfg, f, w, NOTHING.(rejected := |batch| - |ms|), id, ms, t);
    RedeliveryIsNoopIff(cfg, f, Ingest(cfg, f, w, batch).world, batch);
  }
}
