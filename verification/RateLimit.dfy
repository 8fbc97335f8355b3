/**
  The sliding-window limiter of internal/domain/alerting/ratelimit.go; the
  full-history counter it refines when its calls arrive in time order; and the
  limiter that never forgets, which says what late calls can change.
 */
module RateLimit {
  import opened Common

  /** The value of a limiter: at most `limit` events per `window`. */
  datatype Limiter = Limiter(limit: int, window: Time, events: seq<Time>)

  /** Drops the leading events that are not after `cutoff`. */
  function Prune(events: seq<Time>, cutoff: Time): seq<Time> {
    if events == [] || events[0] > cutoff then events else Prune(events[1..], cutoff)
  }

  function Allow(l: Limiter, now: Time): (bool, Limiter) {
    if l.limit <= 0 then (true, l)
    else
      var kept := Prune(l.events, now - l.window);
      if |kept| >= l.limit then (false, l.(events := kept))
      else (true, l.(events := kept + [now]))
  }

  /** The limiter after a run of calls, and the times it accepted. */
  function Run(l: Limiter, calls: seq<Time>): (Limiter, seq<Time>) {
    if calls == [] then (l, [])
    else
      var (before, accepted) := Run(l, calls[..|calls| - 1]);
      var now := calls[|calls| - 1];
      var (ok, after) := Allow(before, now);
      (after, if ok then accepted + [now] else accepted)
  }

  // ----- The full-history counter -----

  /** Number of instants of `ts` in the half-open window (lo, hi]. */
  function CountIn(ts: seq<Time>, lo: Time, hi: Time): nat {
    if ts == [] then 0
    else CountIn(ts[..|ts| - 1], lo, hi) + (if lo < ts[|ts| - 1] <= hi then 1 else 0)
  }

  /** Accepts a call iff fewer than `limit` accepted calls lie in the window ending at it; forgets nothing. */
  function HistoryRun(limit: int, window: Time, calls: seq<Time>): seq<Time> {
    if calls == [] then []
    else
      var accepted := HistoryRun(limit, window, calls[..|calls| - 1]);
      var now := calls[|calls| - 1];
      if limit <= 0 || CountIn(accepted, now - window, now) < limit then accepted + [now] else accepted
  }

  ghost predicate NonDecreasing(ts: seq<Time>) {
    forall i, j :: 0 <= i < j < |ts| ==> ts[i] <= ts[j]
  }

  ghost predicate AtMost(ts: seq<Time>, hi: Time) {
    forall i :: 0 <= i < |ts| ==> ts[i] <= hi
  }

  lemma {:induction false} PruneIsSuffix(ts: seq<Time>, cutoff: Time) returns (k: nat)
    ensures k <= |ts| && Prune(ts, cutoff) == ts[k..]
    ensures forall i :: 0 <= i < k ==> ts[i] <= cutoff
    ensures k < |ts| ==> ts[k] > cutoff
  {
    if ts == [] || ts[0] > cutoff {
      k := 0;
    } else {
      var k' := PruneIsSuffix(ts[1..], cutoff);
      k := k' + 1;
      assert ts[1..][k'..] == ts[k..];
      assert forall i :: 0 < i < k ==> ts[i] == ts[1..][i - 1];
    }
  }

  lemma {:induction false} CountBelow(ts: seq<Time>, lo: Time, hi: Time)
    requires AtMost(ts, lo)
    ensures CountIn(ts, lo, hi) == 0
  {
    if ts != [] {
      CountBelow(ts[..|ts| - 1], lo, hi);
    }
  }

  lemma {:induction false} CountConcat(xs: seq<Time>, ys: seq<Time>, lo: Time, hi: Time)
    ensures CountIn(xs + ys, lo, hi) == CountIn(xs, lo, hi) + CountIn(ys, lo, hi)
  {
    if ys == [] {
      assert xs + ys == xs;
    } else {
      CountConcat(xs, ys[..|ys| - 1], lo, hi);
      assert (xs + ys)[..|xs + ys| - 1] == xs + ys[..|ys| - 1];
    }
  }

  lemma {:induction false} CountAll(ts: seq<Time>, lo: Time, hi: Time)
    requires forall i :: 0 <= i < |ts| ==> lo < ts[i] <= hi
    ensures CountIn(ts, lo, hi) == |ts|
  {
    if ts != [] {
      CountAll(ts[..|ts| - 1], lo, hi);
    }
  }

  /** On a sorted history, what pruning keeps is what the window counts. */
  lemma PruneCounts(ts: seq<Time>, lo: Time, hi: Time)
    requires NonDecreasing(ts) && AtMost(ts, hi)
    ensures |Prune(ts, lo)| == CountIn(ts, lo, hi)
  {
    hide Prune, CountIn;
    var k := PruneIsSuffix(ts, lo);
    assert ts == ts[..k] + ts[k..];
    CountConcat(ts[..k], ts[k..], lo, hi);
    CountBelow(ts[..k], lo, hi);
    CountAll(ts[k..], lo, hi);
  }

  /** Pruning at an earlier cutoff first changes nothing. */
  lemma {:induction false} PruneTwice(ts: seq<Time>, c1: Time, c2: Time)
    requires c1 <= c2
    ensures Prune(Prune(ts, c1), c2) == Prune(ts, c2)
  {
    if ts != [] && ts[0] <= c1 {
      PruneTwice(ts[1..], c1, c2);
    }
  }

  lemma {:induction false} PruneAppend(ts: seq<Time>, x: Time, cutoff: Time)
    requires x > cutoff
    ensures Prune(ts + [x], cutoff) == Prune(ts, cutoff) + [x]
  {
    if ts == [] {
      assert ts + [x] == [x];
    } else if ts[0] <= cutoff {
      assert (ts + [x])[1..] == ts[1..] + [x];
      PruneAppend(ts[1..], x, cutoff);
    }
  }

  /**
    One call of a limiter that retains exactly the window of `accepted` answers
    as the full history would, and keeps doing so.
   */
  lemma AllowRefines(limit: int, window: Time, accepted: seq<Time>, cutoff: Time, now: Time)
    requires limit > 0 && window > 0 && cutoff <= now - window
    requires NonDecreasing(accepted) && AtMost(accepted, now)
    ensures var (ok, l) := Allow(Limiter(limit, window, Prune(accepted, cutoff)), now);
            && ok == (CountIn(accepted, now - window, now) < limit)
            && l == Limiter(limit, window, Prune(if ok then accepted + [now] else accepted, now - window))
  {
    hide Prune, CountIn;
    PruneTwice(accepted, cutoff, now - window);
    PruneCounts(accepted, now - window, now);
    PruneAppend(accepted, now, now - window);
  }

  /** What the limiter retains after `calls`: the accepted calls still inside the window of the last one. */
  function Retained(accepted: seq<Time>, window: Time, calls: seq<Time>): seq<Time> {
    if calls == [] then [] else Prune(accepted, calls[|calls| - 1] - window)
  }

  lemma {:induction false} HistorySorted(limit: int, window: Time, calls: seq<Time>)
    requires NonDecreasing(calls)
    ensures var accepted := HistoryRun(limit, window, calls);
            NonDecreasing(accepted) && forall hi :: AtMost(calls, hi) ==> AtMost(accepted, hi)
  {
    if calls != [] {
      HistorySorted(limit, window, calls[..|calls| - 1]);
      assert AtMost(calls[..|calls| - 1], calls[|calls| - 1]);
    }
  }

  /**
    For calls in time order the limiter accepts exactly what the full-history
    counter accepts, and retains exactly the accepted calls still in the window.
   */
  lemma {:induction false} RefinesHistory(limit: int, window: Time, calls: seq<Time>)
    requires limit > 0 && window > 0 && NonDecreasing(calls)
    ensures var accepted := HistoryRun(limit, window, calls);
            Run(Limiter(limit, window, []), calls)
            == (Limiter(limit, window, Retained(accepted, window, calls)), accepted)
  {
    hide Prune, CountIn, Allow;
    if calls != [] {
      var front, now := calls[..|calls| - 1], calls[|calls| - 1];
      RefinesHistory(limit, window, front);
      HistorySorted(limit, window, front);
      var accepted := HistoryRun(limit, window, front);
      assert AtMost(front, now);
      var cutoff := if front == [] then now - window else front[|front| - 1] - window;
      var k := PruneIsSuffix(accepted, cutoff);
      assert Prune(accepted, cutoff) == Retained(accepted, window, front);
      AllowRefines(limit, window, accepted, cutoff, now);
    }
  }

  /** In whatever order the calls arrive, the retained list never exceeds the limit. */
  lemma {:induction false} RetainedBound(l: Limiter, calls: seq<Time>)
    requires l.limit > 0 && |l.events| <= l.limit
    ensures var l' := Run(l, calls).0; l'.limit == l.limit && l'.window == l.window && |l'.events| <= l.limit
  {
    if calls != [] {
      RetainedBound(l, calls[..|calls| - 1]);
      var before := Run(l, calls[..|calls| - 1]).0;
      var k := PruneIsSuffix(before.events, calls[|calls| - 1] - before.window);
    }
  }

  // ----- Late calls -----

  /**
    The comment on `Allow` says pruning follows the newest timestamp seen. The
    code prunes by the argument; the two agree on a late call exactly when the
    oldest event kept is still inside the window of the newest timestamp.
   */
  lemma LatePruneAgrees(events: seq<Time>, window: Time, now: Time, newest: Time)
    requires now <= newest
    ensures Prune(events, now - window) == Prune(events, newest - window)
            <==> (var kept := Prune(events, now - window); kept == [] || kept[0] > newest - window)
  {
    PruneTwice(events, now - window, newest - window);
    var kept := Prune(events, now - window);
    var k := PruneIsSuffix(kept, newest - window);
  }

  /** A limiter that never forgets: it prunes the whole list of accepted calls anew at every call. */
  function NeverForgets(limit: int, window: Time, calls: seq<Time>): seq<Time> {
    if calls == [] then []
    else
      var accepted := NeverForgets(limit, window, calls[..|calls| - 1]);
      var now := calls[|calls| - 1];
      if limit <= 0 || |Prune(accepted, now - window)| < limit then accepted + [now] else accepted
  }

  /**
    Pruning a list whose first `d` events are gone finds the same events if and
    only if none of those was after the cutoff.
   */
  lemma DroppedAgreeIff(ts: seq<Time>, d: nat, cutoff: Time)
    requires d <= |ts|
    ensures Prune(ts[d..], cutoff) == Prune(ts, cutoff) <==> forall i :: 0 <= i < d ==> ts[i] <= cutoff
    ensures |Prune(ts[d..], cutoff)| <= |Prune(ts, cutoff)|
  {
    hide Prune;
    var k := PruneIsSuffix(ts, cutoff);
    var j := PruneIsSuffix(ts[d..], cutoff);
    assert ts[d..][j..] == ts[d + j..];
    assert forall i :: 0 <= i < j ==> ts[d..][i] == ts[d + i];
  }

  ghost predicate EndsWith(ts: seq<Time>, tail: seq<Time>) {
    |tail| <= |ts| && tail == ts[|ts| - |tail|..]
  }

  lemma PruneKeepsEnd(ts: seq<Time>, tail: seq<Time>, cutoff: Time, now: Time)
    requires EndsWith(ts, tail)
    ensures EndsWith(ts, Prune(tail, cutoff)) && EndsWith(ts + [now], Prune(tail, cutoff) + [now])
  {
    hide Prune;
    var k := PruneIsSuffix(tail, cutoff);
    var d := |ts| - |tail|;
    assert tail[k..] == ts[d + k..];
    assert ts[d + k..] + [now] == (ts + [now])[d + k..];
  }

  /** In any order, what the limiter retains is the end of what it accepted. */
  lemma {:induction false} RetainedIsSuffix(limit: int, window: Time, calls: seq<Time>)
    ensures var (l, accepted) := Run(Limiter(limit, window, []), calls);
            && l.limit == limit && l.window == window && (limit <= 0 ==> l.events == [])
            && EndsWith(accepted, l.events)
  {
    hide Prune, EndsWith;
    NothingEndsWith(Run(Limiter(limit, window, []), calls).1);
    if calls != [] {
      RetainedIsSuffix(limit, window, calls[..|calls| - 1]);
      var (l, accepted) := Run(Limiter(limit, window, []), calls[..|calls| - 1]);
      PruneKeepsEnd(accepted, l.events, calls[|calls| - 1] - window, calls[|calls| - 1]);
    }
  }

  lemma NothingEndsWith(ts: seq<Time>)
    ensures EndsWith(ts, [])
  {
  }

  /** No accepted time that has been dropped is inside the window of a call at `now`. */
  ghost predicate ForgotNothing(limit: int, window: Time, calls: seq<Time>, now: Time) {
    var (l, accepted) := Run(Limiter(limit, window, []), calls);
    forall i :: 0 <= i < |accepted| - |l.events| ==> accepted[i] <= now - window
  }

  /**
    After calls in any order, a call at `now` is measured against the same events
    as by a limiter that never forgets if and only if no accepted time dropped so
    far is after `now` minus the window. A limiter that forgot something can only
    accept more.
   */
  lemma LateCallAgreesIff(limit: int, window: Time, calls: seq<Time>, now: Time)
    ensures var (l, accepted) := Run(Limiter(limit, window, []), calls);
            var full := Prune(accepted, now - window);
            && (Prune(l.events, now - window) == full <==> ForgotNothing(limit, window, calls, now))
            && (ForgotNothing(limit, window, calls, now) ==> Allow(l, now).0 == (limit <= 0 || |full| < limit))
            && (|full| < limit ==> Allow(l, now).0)
  {
    hide Prune, Run;
    RetainedIsSuffix(limit, window, calls);
    var (l, accepted) := Run(Limiter(limit, window, []), calls);
    DroppedAgreeIff(accepted, |accepted| - |l.events|, now - window);
  }

  /** So far the limiter has accepted what a limiter that never forgets accepts, and counts the same events at `now`. */
  ghost predicate CountsAll(limit: int, window: Time, calls: seq<Time>, now: Time) {
    var (l, accepted) := Run(Limiter(limit, window, []), calls);
    accepted == NeverForgets(limit, window, calls) && Prune(l.events, now - window) == Prune(accepted, now - window)
  }

  /**
    The limiter accepts the calls that a limiter that never forgets accepts as
    long as no call reaches back to a dropped time.
   */
  lemma {:induction false} AgreesWhile(limit: int, window: Time, calls: seq<Time>)
    requires forall n :: 0 <= n < |calls| ==> ForgotNothing(limit, window, calls[..n], calls[n])
    ensures Run(Limiter(limit, window, []), calls).1 == NeverForgets(limit, window, calls)
  {
    hide Prune, Allow, ForgotNothing;
    if calls != [] {
      var front, now := calls[..|calls| - 1], calls[|calls| - 1];
      forall n | 0 <= n < |front|
        ensures ForgotNothing(limit, window, front[..n], front[n])
      {
        assert front[..n] == calls[..n];
      }
      AgreesWhile(limit, window, front);
      RetainedIsSuffix(limit, window, front);
      assert ForgotNothing(limit, window, calls[..|calls| - 1], calls[|calls| - 1]);
      LateCallAgreesIff(limit, window, front, now);
    }
  }

  /**
    For calls in any order, the limiter answers every call from the same events as
    a limiter that never forgets if and only if no call is so late that an
    accepted time already dropped is inside its window.
   */
  lemma AgreesIff(limit: int, window: Time, calls: seq<Time>)
    ensures (forall n :: 0 <= n < |calls| ==> CountsAll(limit, window, calls[..n], calls[n]))
            <==> (forall n :: 0 <= n < |calls| ==> ForgotNothing(limit, window, calls[..n], calls[n]))
  {
    hide Prune, Run, NeverForgets, Allow, ForgotNothing;
    if forall n :: 0 <= n < |calls| ==> ForgotNothing(limit, window, calls[..n], calls[n]) {
      forall n | 0 <= n < |calls|
        ensures CountsAll(limit, window, calls[..n], calls[n])
      {
        assert forall m :: 0 <= m < n ==> calls[..n][..m] == calls[..m];
        AgreesWhile(limit, window, calls[..n]);
        LateCallAgreesIff(limit, window, calls[..n], calls[n]);
      }
    } else {
      var n :| 0 <= n < |calls| && !ForgotNothing(limit, window, calls[..n], calls[n]);
      LateCallAgreesIff(limit, window, calls[..n], calls[n]);
      assert !CountsAll(limit, window, calls[..n], calls[n]);
    }
  }

  /** A limiter that never forgets keeps the bound in every window, in whatever order the calls arrive. */
  lemma {:induction false} NeverForgetsBound(limit: int, window: Time, calls: seq<Time>, lo: Time)
    requires limit > 0 && window > 0
    ensures CountIn(NeverForgets(limit, window, calls), lo, lo + window) <= limit
  {
    hide Prune, CountIn;
    CountNone(lo, lo + window);
    if calls != [] {
      var accepted, now := NeverForgets(limit, window, calls[..|calls| - 1]), calls[|calls| - 1];
      NeverForgetsBound(limit, window, calls[..|calls| - 1], lo);
      CountConcat(accepted, [now], lo, lo + window);
      CountOne(now, lo, lo + window);
      if lo < now <= lo + window {
        var k := PruneIsSuffix(accepted, now - window);
        assert accepted == accepted[..k] + accepted[k..];
        CountConcat(accepted[..k], accepted[k..], lo, lo + window);
        CountBelow(accepted[..k], lo, lo + window);
        CountAtMost(accepted[k..], lo, lo + window);
      }
    }
  }

  lemma CountNone(lo: Time, hi: Time)
    ensures CountIn([], lo, hi) == 0
  {
  }

  lemma CountOne(t: Time, lo: Time, hi: Time)
    ensures CountIn([t], lo, hi) == if lo < t <= hi then 1 else 0
  {
    assert [t][..0] == [];
  }

  lemma {:induction false} CountAtMost(ts: seq<Time>, lo: Time, hi: Time)
    ensures CountIn(ts, lo, hi) <= |ts|
  {
    if ts != [] {
      CountAtMost(ts[..|ts| - 1], lo, hi);
    }
  }

  /** In any order, the bound holds in every window as long as no call reaches back to a dropped time. */
  lemma LateWindowBound(limit: int, window: Time, calls: seq<Time>, lo: Time)
    requires limit > 0 && window > 0
    requires forall n :: 0 <= n < |calls| ==> ForgotNothing(limit, window, calls[..n], calls[n])
    ensures CountIn(Run(Limiter(limit, window, []), calls).1, lo, lo + window) <= limit
  {
    hide Run, NeverForgets, CountIn, ForgotNothing;
    AgreesWhile(limit, window, calls);
    NeverForgetsBound(limit, window, calls, lo);
  }

  // ----- Calls in time order -----

  /** In time order no call reaches back to a dropped time. */
  lemma {:induction false} TimeOrderForgetsNothing(limit: int, window: Time, calls: seq<Time>, now: Time)
    requires limit > 0 && window > 0 && NonDecreasing(calls) && AtMost(calls, now)
    ensures ForgotNothing(limit, window, calls, now)
  {
    hide Prune;
    if calls != [] {
      var front, last := calls[..|calls| - 1], calls[|calls| - 1];
      TimeOrderForgetsNothing(limit, window, front, last);
      RetainedIsSuffix(limit, window, front);
      var (l, accepted) := Run(Limiter(limit, window, []), front);
      var k := PruneIsSuffix(l.events, last - window);
      assert forall i :: 0 <= i < k ==> accepted[|accepted| - |l.events| + i] == l.events[i];
      forall i | |accepted| - |l.events| <= i < |accepted| - |l.events| + k
        ensures accepted[i] <= last - window
      {
        assert accepted[i] == l.events[i - (|accepted| - |l.events|)];
      }
    }
  }

  /**
    For calls in time order the limiter that never forgets, the full-history
    counter and the limiter accept the same calls.
   */
  lemma NeverForgetsIsHistory(limit: int, window: Time, calls: seq<Time>)
    requires limit > 0 && window > 0 && NonDecreasing(calls)
    ensures NeverForgets(limit, window, calls) == HistoryRun(limit, window, calls)
    ensures Run(Limiter(limit, window, []), calls).1 == NeverForgets(limit, window, calls)
  {
    hide Run, NeverForgets, HistoryRun, ForgotNothing;
    forall n | 0 <= n < |calls|
      ensures ForgotNothing(limit, window, calls[..n], calls[n])
    {
      TimeOrderForgetsNothing(limit, window, calls[..n], calls[n]);
    }
    AgreesWhile(limit, window, calls);
    RefinesHistory(limit, window, calls);
  }

  /**
    For calls in time order no window of the limiter's length, wherever it is
    placed, holds more than `limit` accepted calls.
   */
  lemma WindowBound(limit: int, window: Time, calls: seq<Time>, lo: Time)
    requires limit > 0 && window > 0 && NonDecreasing(calls)
    ensures CountIn(Run(Limiter(limit, window, []), calls).1, lo, lo + window) <= limit
  {
    hide Run, NeverForgets, CountIn;
    NeverForgetsIsHistory(limit, window, calls);
    NeverForgetsBound(limit, window, calls, lo);
  }

  // ----- Which limits survive late calls -----

  ghost predicate Apart(ts: seq<Time>, window: Time) {
    forall i, j :: 0 <= i < j < |ts| ==> ts[i] <= ts[j] - window
  }

  function Newest(ts: seq<Time>): seq<Time> {
    if ts == [] then [] else [ts[|ts| - 1]]
  }

  lemma ApartStep(ts: seq<Time>, window: Time, now: Time)
    requires window > 0 && Apart(ts, window)
    ensures var (ok, l) := Allow(Limiter(1, window, Newest(ts)), now);
            var ts' := if ok then ts + [now] else ts;
            Apart(ts', window) && l == Limiter(1, window, Newest(ts'))
  {
    if ts != [] {
      var last := ts[|ts| - 1];
      assert [last][1..] == [] && Prune([], now - window) == [];
      assert Prune([last], now - window) == if last > now - window then [last] else [];
    }
  }

  /** With a limit of one the accepted calls are a whole window apart, in any order of calls. */
  lemma {:induction false} OneIsApart(window: Time, calls: seq<Time>)
    requires window > 0
    ensures var (l, accepted) := Run(Limiter(1, window, []), calls);
            Apart(accepted, window) && l == Limiter(1, window, Newest(accepted))
  {
    hide Allow, Apart, Newest;
    if calls == [] {
      NothingApart(window);
    } else {
      OneIsApart(window, calls[..|calls| - 1]);
      ApartStep(Run(Limiter(1, window, []), calls[..|calls| - 1]).1, window, calls[|calls| - 1]);
    }
  }

  lemma NothingApart(window: Time)
    ensures Apart([], window) && Newest([]) == []
  {
  }

  lemma {:induction false} ApartCounts(ts: seq<Time>, window: Time, lo: Time)
    requires Apart(ts, window)
    ensures CountIn(ts, lo, lo + window) <= 1
  {
    if ts != [] {
      ApartCounts(ts[..|ts| - 1], window, lo);
      if ts[|ts| - 1] <= lo + window {
        CountBelow(ts[..|ts| - 1], lo, lo + window);
      }
    }
  }

  /** Calls at time 0, then one a window later, then one an instant earlier than that. */
  function LateCalls(limit: nat, window: Time): seq<Time> {
    Zeros(limit) + [window] + [window - 1]
  }

  function Zeros(k: nat): (zs: seq<Time>)
    ensures |zs| == k && forall i :: 0 <= i < k ==> zs[i] == 0
  {
    seq(k, _ => 0)
  }

  lemma {:induction false} ZerosAccepted(limit: nat, window: Time, k: nat)
    requires window > 0 && k <= limit
    ensures Run(Limiter(limit, window, []), Zeros(k)) == (Limiter(limit, window, Zeros(k)), Zeros(k))
  {
    if k > 0 {
      hide Prune, Run;
      ZerosAccepted(limit, window, k - 1);
      RunStep(Limiter(limit, window, []), Zeros(k - 1), 0);
      assert Zeros(k - 1) + [0] == Zeros(k);
      var kept := PruneIsSuffix(Zeros(k - 1), -window);
    }
  }

  /** One window after the calls at time 0 they are all dropped. */
  lemma WindowLater(limit: nat, window: Time)
    requires limit >= 2 && window > 0
    ensures Run(Limiter(limit, window, []), Zeros(limit) + [window])
            == (Limiter(limit, window, [window]), Zeros(limit) + [window])
  {
    hide Run, Prune;
    ZerosAccepted(limit, window, limit);
    var k := PruneIsSuffix(Zeros(limit), 0);
    RunStep(Limiter(limit, window, []), Zeros(limit), window);
    assert [] + [window] == [window];
  }

  /** All of them are accepted. */
  lemma LateCallsAccepted(limit: nat, window: Time)
    requires limit >= 2 && window > 0
    ensures Run(Limiter(limit, window, []), LateCalls(limit, window)).1 == LateCalls(limit, window)
  {
    hide Run, Prune, Zeros;
    WindowLater(limit, window);
    var j := PruneIsSuffix([window], -1);
    RunStep(Limiter(limit, window, []), Zeros(limit) + [window], window - 1);
  }

  /** With a limit of two or more, a call late by a single instant puts one event too many into a window. */
  lemma LateCallBreaksWindow(limit: nat, window: Time)
    requires limit >= 2 && window > 0
    ensures LateByAtMost(LateCalls(limit, window), 1)
    ensures CountIn(Run(Limiter(limit, window, []), LateCalls(limit, window)).1, -1, window - 1) == limit + 1
  {
    hide Run, CountIn;
    var zs := Zeros(limit);
    LateCallsAccepted(limit, window);
    CountConcat(zs + [window], [window - 1], -1, window - 1);
    CountConcat(zs, [window], -1, window - 1);
    CountAll(zs, -1, window - 1);
    CountOne(window, -1, window - 1);
    CountOne(window - 1, -1, window - 1);
  }

  /** No call is more than `d` earlier than a call before it. */
  ghost predicate LateByAtMost(calls: seq<Time>, d: int) {
    forall i, j :: 0 <= i < j < |calls| ==> calls[i] - d <= calls[j]
  }

  /** The window after `lo` holds at most `limit` accepted calls. */
  predicate KeepsBound(limit: int, window: Time, calls: seq<Time>, lo: Time) {
    CountIn(Run(Limiter(limit, window, []), calls).1, lo, lo + window) <= limit
  }

  /** With a limit of one, calls in any order keep the window bound. */
  lemma OneKeepsBound(window: Time, calls: seq<Time>, lo: Time)
    requires window > 0
    ensures KeepsBound(1, window, calls, lo)
  {
    hide Run, CountIn, Apart;
    OneIsApart(window, calls);
    ApartCounts(Run(Limiter(1, window, []), calls).1, window, lo);
  }

  /**
    How late calls may be: when no call is more than `d` earlier than one before
    it, the window bound is sure to hold if and only if the limit is one or no
    lateness is allowed at all.
   */
  lemma BoundUnderLatenessIff(limit: int, window: Time, d: nat)
    requires limit > 0 && window > 0
    ensures (forall calls, lo :: LateByAtMost(calls, d) ==> KeepsBound(limit, window, calls, lo))
            <==> limit == 1 || d == 0
  {
    hide Run, CountIn;
    forall calls, lo | LateByAtMost(calls, d) && (limit == 1 || d == 0)
      ensures KeepsBound(limit, window, calls, lo)
    {
      if limit == 1 {
        OneKeepsBound(window, calls, lo);
      } else {
        WindowBound(limit, window, calls, lo);
      }
    }
    if limit >= 2 && d > 0 {
      LateCallBreaksWindow(limit, window);
      assert LateByAtMost(LateCalls(limit, window), d);
      assert !KeepsBound(limit, window, LateCalls(limit, window), -1);
    }
  }

  /** The window bound holds for calls in any order if and only if the limit is one. */
  lemma BoundInAnyOrderIff(limit: int, window: Time)
    requires limit > 0 && window > 0
    ensures (forall calls, lo :: KeepsBound(limit, window, calls, lo)) <==> limit == 1
  {
    hide KeepsBound, LateByAtMost;
    BoundUnderLatenessIff(limit, window, 1);
    if limit == 1 {
      forall calls, lo
        ensures KeepsBound(1, window, calls, lo)
      {
        OneKeepsBound(window, calls, lo);
      }
    }
  }

  lemma RunStep(l: Limiter, calls: seq<Time>, now: Time)
    ensures var (before, accepted) := Run(l, calls);
            var (ok, after) := Allow(before, now);
            Run(l, calls + [now]) == (after, if ok then accepted + [now] else accepted)
  {
    assert (calls + [now])[..|calls|] == calls;
  }

  // ----- The mutable limiter -----

  class RateLimiter {
    const limit: int
    const window: Time
    var events: seq<Time>

    function Value(): Limiter
      reads this
    {
      Limiter(limit, window, events)
    }

    constructor (limit: int, window: Time)
      ensures Value() == Limiter(limit, window, [])
    {
      this.limit := limit;
      this.window := window;
      events := [];
    }

    method PruneBefore(now: Time)
      modifies this
      ensures Value() == old(Value()).(events := Prune(old(events), now - window))
    {
      var cutoff := now - window;
      var i := 0;
      while i < |events| && !(events[i] > cutoff)
        invariant 0 <= i <= |events|
        invariant Prune(events[i..], cutoff) == Prune(events, cutoff)
      {
        assert events[i..][1..] == events[i + 1..];
        i := i + 1;
      }
      if i > 0 {
        events := events[i..];
      }
    }

    method TryAllow(now: Time) returns (ok: bool)
      modifies this
      ensures (ok, Value()) == Allow(old(Value()), now)
    {
      if limit <= 0 {
        return true;
      }
      PruneBefore(now);
      if |events| >= limit {
        return false;
      }
      events := events + [now];
      return true;
    }

    /** Number of retained events as of `now`. */
    method Count(now: Time) returns (n: nat)
      modifies this
      ensures Value() == old(Value()).(events := Prune(old(events), now - window))
      ensures n == |events|
      ensures NonDecreasing(old(events)) && AtMost(old(events), now) ==> n == CountIn(old(events), now - window, now)
    {
      PruneBefore(now);
      n := |events|;
      if NonDecreasing(old(events)) && AtMost(old(events), now) {
        PruneCounts(old(events), now - window, now);
      }
    }
  }
}
