/** Small vocabulary shared by every module of the model. */
module Common {

  datatype Option<+T> = None | Some(value: T)

  /** Instants and durations in nanoseconds; 0 is Go's zero `time.Time`. */
  type Time = int

  const ZERO_TIME: Time := 0
  const HOUR: Time := 3_600_000_000_000

  function Max(x: real, y: real): real {
    if x < y then y else x
  }

  function Min(x: real, y: real): real {
    if y < x then y else x
  }

  function Abs(x: real): real {
    if x < 0.0 then -x else x
  }

  function Clamp01(v: real): real {
    Max(0.0, Min(1.0, v))
  }

  /** The newest `cap` elements of `xs`, oldest first. */
  function LastN<T>(xs: seq<T>, cap: nat): seq<T> {
    if |xs| <= cap then xs else xs[|xs| - cap..]
  }

  /** Keeping the newest elements of a prefix first loses nothing. */
  lemma LastNAppend<T>(xs: seq<T>, ys: seq<T>, cap: nat)
    ensures LastN(LastN(xs, cap) + ys, cap) == LastN(xs + ys, cap)
  {
    if |xs| > cap {
      var d := |xs| - cap;
      var kept := xs[d..];
      DropAppend(xs, ys, d);
      DropTwice(xs + ys, d, |ys|);
      assert LastN(kept + ys, cap) == (kept + ys)[|ys|..];
    }
  }

  lemma DropAppend<T>(xs: seq<T>, ys: seq<T>, d: nat)
    requires d <= |xs|
    ensures xs[d..] + ys == (xs + ys)[d..]
  {
  }

  lemma DropTwice<T>(xs: seq<T>, d: nat, e: nat)
    requires d + e <= |xs|
    ensures xs[d..][e..] == xs[d + e..]
  {
  }
}
