/** The warm-up learner of internal/domain/detect/robustz.go. */
module Learner {
  import opened Common
  import opened RobustZ
  import opened HstDetector

  /** The samples of one feature over the warm-up vectors. */
  function Column(vectors: seq<Features>, name: string): seq<real> {
    if vectors == [] then []
    else
      Column(vectors[..|vectors| - 1], name)
      + if name in vectors[|vectors| - 1] then [vectors[|vectors| - 1][name]] else []
  }

  function FeatureNames(vectors: seq<Features>): set<string> {
    set i, n | 0 <= i < |vectors| && n in vectors[i] :: n
  }

  /** Median and MAD of every feature seen. */
  function Fitted(vectors: seq<Features>): Baselines {
    map n | n in FeatureNames(vectors) ::
      var (median, mad) := MedianMad(Column(vectors, n)); Baseline(median, mad)
  }

  function Needed(warmup: int): int {
    if warmup < 3 then 3 else warmup
  }

  lemma NamesGrow(vectors: seq<Features>, f: Features)
    ensures FeatureNames(vectors + [f]) == FeatureNames(vectors) + f.Keys
  {
    forall n | n in FeatureNames(vectors) + f.Keys
      ensures n in FeatureNames(vectors + [f])
    {
      if n in f.Keys {
        assert n in (vectors + [f])[|vectors|];
      } else {
        var i :| 0 <= i < |vectors| && n in vectors[i];
        assert n in (vectors + [f])[i];
      }
    }
  }

  lemma ColumnGrows(vectors: seq<Features>, f: Features, name: string)
    ensures Column(vectors + [f], name) == Column(vectors, name) + if name in f then [f[name]] else []
  {
    assert (vectors + [f])[..|vectors|] == vectors;
  }

  lemma {:induction false} UnseenColumn(vectors: seq<Features>, name: string)
    requires name !in FeatureNames(vectors)
    ensures Column(vectors, name) == []
  {
    if vectors != [] {
      var front := vectors[..|vectors| - 1];
      assert vectors == front + [vectors[|vectors| - 1]];
      NamesGrow(front, vectors[|vectors| - 1]);
      UnseenColumn(front, name);
    }
  }

  /** The samples of one feature once the vector is in. */
  function Appended(samples: map<string, seq<real>>, f: Features, n: string): seq<real> {
    if n !in f then (if n in samples then samples[n] else [])
    else if n in samples then samples[n] + [f[n]] else [f[n]]
  }

  method AppendEach(samples: map<string, seq<real>>, f: Features) returns (grown: map<string, seq<real>>)
    ensures grown.Keys == samples.Keys + f.Keys
    ensures forall n :: n in grown ==> grown[n] == Appended(samples, f, n)
  {
    grown := samples;
    var left := f.Keys;
    while left != {}
      invariant left <= f.Keys
      invariant grown.Keys == samples.Keys + (f.Keys - left)
      invariant forall n :: n in samples && (n in left || n !in f) ==> grown[n] == samples[n]
      invariant forall n :: n in f && n !in left ==> grown[n] == Appended(samples, f, n)
    {
      var n :| n in left;
      grown := grown[n := (if n in grown then grown[n] else []) + [f[n]]];
      left := left - {n};
    }
  }

  lemma AppendedIsColumn(vectors: seq<Features>, samples: map<string, seq<real>>, f: Features, n: string)
    requires samples.Keys == FeatureNames(vectors) && forall k :: k in samples ==> samples[k] == Column(vectors, k)
    ensures Appended(samples, f, n) == Column(vectors + [f], n)
  {
    hide Column, FeatureNames;
    ColumnGrows(vectors, f, n);
    if n !in samples {
      UnseenColumn(vectors, n);
    }
  }

  method MedianOf(xs: seq<real>) returns (b: Baseline)
    ensures b == Baseline(MedianMad(xs).0, MedianMad(xs).1)
  {
    var buffer := new real[|xs|](i requires 0 <= i < |xs| => xs[i]);
    assert buffer[..] == xs;
    var median, mad := ComputeMedianMad(buffer);
    b := Baseline(median, mad);
  }

  class BaselineLearner {
    const need: int
    var samples: map<string, seq<real>>
    var count: nat
    ghost var vectors: seq<Features>

    /** The samples are the columns of the vectors collected. */
    ghost predicate Valid()
      reads this
    {
      && count == |vectors| && samples.Keys == FeatureNames(vectors)
      && forall n :: n in samples ==> samples[n] == Column(vectors, n)
    }

    constructor (need: int)
      ensures Valid() && vectors == [] && this.need == Needed(need)
    {
      this.need := if need < 3 then 3 else need;
      samples, count, vectors := map[], 0, [];
    }

    /** Adds a vector unless enough are there; true once enough are. */
    method Observe(f: Features) returns (done: bool)
      requires Valid()
      modifies this
      ensures Valid() && vectors == (if |old(vectors)| >= need then old(vectors) else old(vectors) + [f])
      ensures done <==> |vectors| >= need
    {
      hide Column, FeatureNames, Appended;
      if count >= need {
        return true;
      }
      var grown := AppendEach(samples, f);
      NamesGrow(vectors, f);
      forall n | n in grown
        ensures grown[n] == Column(vectors + [f], n)
      {
        AppendedIsColumn(vectors, samples, f, n);
      }
      samples, count, vectors := grown, count + 1, vectors + [f];
      return count >= need;
    }

    /** Median/MAD baselines of everything collected. */
    method Fit() returns (base: Baselines)
      requires Valid()
      ensures base == Fitted(vectors)
    {
      hide MedianMad, Column, FeatureNames;
      base := map[];
      var left := samples.Keys;
      while left != {}
        invariant left <= samples.Keys && base.Keys == samples.Keys - left
        invariant forall n :: n in base ==> base[n] == Baseline(MedianMad(samples[n]).0, MedianMad(samples[n]).1)
      {
        var n :| n in left;
        var b := MedianOf(samples[n]);
        base := base[n := b];
        left := left - {n};
      }
    }
  }
}
