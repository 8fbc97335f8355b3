/** The ring buffer of internal/domain/features/window.go: always the newest `capacity` samples, oldest first. */
module RingWindow {
  import opened Common

  /** Pushes a whole history into a window holding `held`. */
  function PushAll(held: seq<real>, history: seq<real>, cap: nat): seq<real> {
    if history == [] then held
    else LastN(PushAll(held, history[..|history| - 1], cap) + [history[|history| - 1]], cap)
  }

  /** Pushing one by one keeps exactly the newest samples of everything seen. */
  lemma {:induction false} PushAllKeepsNewest(held: seq<real>, history: seq<real>, cap: nat)
    requires |held| <= cap
    ensures PushAll(held, history, cap) == LastN(held + history, cap)
  {
    if history == [] {
      assert held + history == held;
    } else {
      var front, x := history[..|history| - 1], history[|history| - 1];
      PushAllKeepsNewest(held, front, cap);
      LastNAppend(held + front, [x], cap);
      assert held + front + [x] == held + history;
    }
  }

  predicate RingShape(size: nat, head: nat, n: nat) {
    size >= 1 && head < size && n <= size && (n < size ==> head == n)
  }

  /** The samples a ring holds, oldest first. */
  function Ring(b: seq<real>, head: nat, n: nat): (s: seq<real>)
    requires RingShape(|b|, head, n)
    ensures |s| == n
  {
    if n < |b| then b[..n] else b[head..] + b[..head]
  }

  function Capped(n: nat, size: nat): nat {
    if n < size then n + 1 else n
  }

  lemma NextSlot(head: nat, size: nat)
    requires head < size
    ensures (head + 1) % size == if head + 1 == size then 0 else head + 1
  {
  }

  lemma RingFills(b: seq<real>, n: nat, v: real)
    requires n < |b|
    ensures b[n := v][..n + 1] == b[..n] + [v]
  {
  }

  lemma RingEvicts(b: seq<real>, head: nat, v: real)
    requires head < |b|
    ensures b[head := v][head + 1..] + b[head := v][..head + 1] == (b[head..] + b[..head])[1..] + [v]
  {
    assert b[head := v][head + 1..] == b[head + 1..];
    assert b[head := v][..head + 1] == b[..head] + [v];
    assert (b[head..] + b[..head])[1..] == b[head + 1..] + b[..head];
  }

  /** One push: the ring after it holds the newest samples of what it held and the new one. */
  lemma RingPush(b: seq<real>, head: nat, n: nat, v: real)
    requires RingShape(|b|, head, n)
    ensures RingShape(|b|, (head + 1) % |b|, Capped(n, |b|))
    ensures Ring(b[head := v], (head + 1) % |b|, Capped(n, |b|)) == LastN(Ring(b, head, n) + [v], |b|)
  {
    NextSlot(head, |b|);
    if n < |b| {
      RingFills(b, n, v);
      if n + 1 == |b| {
        assert b[n := v][0..] + b[n := v][..0] == b[n := v][..n + 1];
      }
    } else {
      RingEvicts(b, head, v);
      if head + 1 == |b| {
        assert b[head := v][0..] + b[head := v][..0] == b[head := v][head + 1..] + b[head := v][..head + 1];
      }
    }
  }

  class Window {
    const buf: array<real>
    var head: nat
    var n: nat

    ghost predicate Valid()
      reads this
    {
      RingShape(buf.Length, head, n)
    }

    /** The samples held, oldest first. */
    ghost function Contents(): (s: seq<real>)
      requires Valid()
      reads this, buf
      ensures |s| == n
    {
      Ring(buf[..], head, n)
    }

    function Cap(): nat {
      buf.Length
    }

    constructor (capacity: int)
      ensures Valid() && fresh(buf) && Contents() == []
      ensures Cap() == if capacity < 1 then 1 else capacity
    {
      buf := new real[if capacity < 1 then 1 else capacity](_ => 0.0);
      head, n := 0, 0;
    }

    /** Appends a sample, evicting the oldest when full. */
    method Push(v: real)
      requires Valid()
      modifies this, buf
      ensures Valid()
      ensures Contents() == LastN(old(Contents()) + [v], Cap())
    {
      hide Ring, LastN;
      ghost var before := buf[..];
      RingPush(before, head, n, v);
      buf[head] := v;
      assert buf[..] == before[head := v];
      head := (head + 1) % buf.Length;
      if n < buf.Length {
        n := n + 1;
      }
    }

    /** Number of samples held. */
    method Len() returns (k: nat)
      requires Valid()
      ensures k == |Contents()|
    {
      k := n;
    }

    /** Copies the samples oldest first into `dst`, or into a new buffer when `dst` is too small. */
    method Values(dst: array<real>) returns (out: array<real>)
      requires Valid() && dst != buf
      modifies dst
      ensures Valid() && Contents() == old(Contents())
      ensures out == dst || fresh(out)
      ensures n <= out.Length && out[..n] == Contents()
    {
      out := dst;
      if dst.Length < n {
        out := new real[n];
      }
      CopyInto(out);
    }

    method CopyInto(out: array<real>)
      requires Valid() && out != buf && n <= out.Length
      modifies out
      ensures out[..n] == Contents()
    {
      if n < buf.Length {
        Copy(buf, 0, n, out, 0);
      } else {
        Copy(buf, head, n, out, 0);
        Copy(buf, 0, head, out, n - head);
        assert out[..n] == out[..n - head] + out[n - head..n];
      }
    }

    /** Drops all samples. */
    method Reset()
      requires Valid()
      modifies this
      ensures Valid() && Contents() == []
    {
      head, n := 0, 0;
    }
  }

  /** out[at..] := src[from..to], leaving the rest of `out` alone. */
  method Copy(src: array<real>, from: nat, to: nat, out: array<real>, at: nat)
    requires src != out && from <= to <= src.Length && at + (to - from) <= out.Length
    modifies out
    ensures out[..at] == old(out[..at])
    ensures out[at..at + (to - from)] == src[from..to]
  {
    for i := 0 to to - from
      invariant out[..at] == old(out[..at])
      invariant out[at..at + i] == src[from..from + i]
    {
      out[at + i] := src[from + i];
    }
  }
}
