/**
  The sample side of internal/domain/features/extractor.go: unit conversion and
  one rolling window per signal. Feature computation itself is a parameter of
  the engine.
 */
module Extractor {
  import opened Common
  import opened RingWindow

  /** A linear unit: canonical = value*scale + offset within a dimension. */
  datatype UnitDef = UnitDef(dimension: string, scale: real, offset: real)

  /** The unit table; names are already normalised. */
  type Units = map<string, UnitDef>

  ghost predicate Linear(units: Units) {
    forall u :: u in units ==> units[u].scale != 0.0
  }

  predicate Convertible(units: Units, from: string, to: string) {
    from in units && to in units && units[from].dimension == units[to].dimension && units[to].scale != 0.0
  }

  function Convert(units: Units, v: real, from: string, to: string): real
    requires Convertible(units, from, to)
  {
    (v * units[from].scale + units[from].offset - units[to].offset) / units[to].scale
  }

  lemma DivideBack(x: real, d: real)
    requires d != 0.0
    ensures x / d * d == x
  {
  }

  /** Converting there and back is exact. */
  lemma ConvertRoundTrip(units: Units, v: real, from: string, to: string)
    requires Linear(units) && Convertible(units, from, to)
    ensures Convertible(units, to, from)
    ensures Convert(units, Convert(units, v, from, to), to, from) == v
  {
    var canonical := v * units[from].scale + units[from].offset;
    DivideBack(canonical - units[to].offset, units[to].scale);
    var there := Convert(units, v, from, to);
    assert there * units[to].scale + units[to].offset == canonical;
    assert canonical - units[from].offset == v * units[from].scale;
    assert v * units[from].scale / units[from].scale == v;
  }

  /** Conversion keeps the canonical value: the quantity itself does not change, only the unit it is read in. */
  lemma ConvertKeepsCanonical(units: Units, v: real, from: string, to: string)
    requires Convertible(units, from, to)
    ensures Convert(units, v, from, to) * units[to].scale + units[to].offset
            == v * units[from].scale + units[from].offset
  {
    DivideBack(v * units[from].scale + units[from].offset - units[to].offset, units[to].scale);
  }

  lemma SameCanonical(u: UnitDef, x: real, y: real)
    requires u.scale != 0.0 && x * u.scale + u.offset == y * u.scale + u.offset
    ensures x == y
  {
    assert (x - y) * u.scale == 0.0;
  }

  /** Converting through a third unit is converting directly. */
  lemma ConvertComposes(units: Units, v: real, a: string, b: string, c: string)
    requires Convertible(units, a, b) && Convertible(units, b, c)
    ensures Convertible(units, a, c)
    ensures Convert(units, Convert(units, v, a, b), b, c) == Convert(units, v, a, c)
  {
    ConvertKeepsCanonical(units, v, a, b);
    ConvertKeepsCanonical(units, Convert(units, v, a, b), b, c);
    ConvertKeepsCanonical(units, v, a, c);
    hide Convert;
    SameCanonical(units[c], Convert(units, Convert(units, v, a, b), b, c), Convert(units, v, a, c));
  }

  /** A part of the built-in table: temperatures, pressures, speeds and times. */
  const TABLE: Units := map[
    "c" := UnitDef("temperature", 1.0, 0.0),
    "f" := UnitDef("temperature", 5.0 / 9.0, -32.0 * 5.0 / 9.0),
    "k" := UnitDef("temperature", 1.0, -273.15),
    "bar" := UnitDef("pressure", 1.0, 0.0),
    "kpa" := UnitDef("pressure", 0.01, 0.0),
    "rpm" := UnitDef("rotational_speed", 1.0, 0.0),
    "hz" := UnitDef("rotational_speed", 60.0, 0.0),
    "h" := UnitDef("time", 1.0, 0.0),
    "min" := UnitDef("time", 1.0 / 60.0, 0.0)]

  /** Known points of it: freezing and boiling water, one atmosphere's worth, mains frequency, half an hour. */
  lemma KnownPoints()
    ensures Linear(TABLE)
    ensures Convert(TABLE, 32.0, "f", "c") == 0.0 && Convert(TABLE, 212.0, "f", "c") == 100.0
    ensures Convert(TABLE, 0.0, "c", "k") == 273.15 && Convert(TABLE, 100.0, "kpa", "bar") == 1.0
    ensures Convert(TABLE, 50.0, "hz", "rpm") == 3000.0 && Convert(TABLE, 30.0, "min", "h") == 0.5
    ensures !Convertible(TABLE, "kpa", "c") && !Convertible(TABLE, "furlong", "c")
  {
  }

  datatype SignalSpec = SignalSpec(unit: string, window: nat, minSamples: int) {
    /** Samples required before the signal is ready; 0 or too many means a full window. */
    function Need(): int {
      if minSamples <= 0 || minSamples > window then window else minSamples
    }
  }

  type Specs = map<string, SignalSpec>
  type Samples = map<string, seq<real>>

  function EmptySamples(specs: Specs): Samples {
    map s | s in specs :: []
  }

  ghost predicate Fits(specs: Specs, samples: Samples) {
    samples.Keys == specs.Keys && forall s :: s in specs ==> |samples[s]| <= specs[s].window
  }

  datatype PushResult = Unknown | BadUnit | Pushed

  /** One sample: convert, then append to the signal's window. */
  function PushValue(
      units: Units, specs: Specs, samples: Samples, signal: string, v: real, unit: string): (Samples, PushResult)
    requires specs.Keys <= samples.Keys
  {
    if signal !in specs then (samples, Unknown)
    else if !Convertible(units, unit, specs[signal].unit) then (samples, BadUnit)
    else
      var x := Convert(units, v, unit, specs[signal].unit);
      (samples[signal := LastN(samples[signal] + [x], specs[signal].window)], Pushed)
  }

  /** A whole reading: one value after the other, stopping at the first that is not taken. */
  function PushReading(units: Units, specs: Specs, samples: Samples, signal: string, vs: seq<real>, unit: string)
    : (r: (Samples, PushResult))
    requires specs.Keys <= samples.Keys && vs != []
    ensures r.0.Keys == samples.Keys
    decreases |vs|
  {
    var (after, result) := PushValue(units, specs, samples, signal, vs[0], unit);
    if !result.Pushed? || |vs| == 1 then (after, result)
    else PushReading(units, specs, after, signal, vs[1..], unit)
  }

  function ConvertEach(units: Units, vs: seq<real>, from: string, to: string): (r: seq<real>)
    requires Convertible(units, from, to)
    ensures |r| == |vs|
  {
    seq(|vs|, i requires 0 <= i < |vs| => Convert(units, vs[i], from, to))
  }

  predicate Takes(units: Units, specs: Specs, signal: string, unit: string) {
    signal in specs && Convertible(units, unit, specs[signal].unit)
  }

  /**
    A burst is all or nothing: either every value enters the window, converted and
    in order, or nothing changes. Which of the two depends only on the signal and
    the unit, never on the values or on what is in the window.
   */
  lemma {:induction false} BurstAllOrNothing(
      units: Units, specs: Specs, samples: Samples, signal: string, vs: seq<real>, unit: string)
    requires specs.Keys == samples.Keys && vs != []
    ensures var (after, result) := PushReading(units, specs, samples, signal, vs, unit);
            if Takes(units, specs, signal, unit) then
              result.Pushed? && after == samples[signal :=
                LastN(samples[signal] + ConvertEach(units, vs, unit, specs[signal].unit), specs[signal].window)]
            else after == samples && result == if signal in specs then BadUnit else Unknown
    decreases |vs|
  {
    hide Convert, Convertible, LastN, ConvertEach;
    if Takes(units, specs, signal, unit) && |vs| > 1 {
      var to, cap := specs[signal].unit, specs[signal].window;
      var x := Convert(units, vs[0], unit, to);
      var after := PushValue(units, specs, samples, signal, vs[0], unit).0;
      BurstAllOrNothing(units, specs, after, signal, vs[1..], unit);
      FirstThenRest(units, samples[signal], vs, unit, to, cap);
    } else if Takes(units, specs, signal, unit) {
      ConvertOne(units, vs, unit, specs[signal].unit);
    }
  }

  lemma ConvertOne(units: Units, vs: seq<real>, from: string, to: string)
    requires Convertible(units, from, to) && |vs| == 1
    ensures ConvertEach(units, vs, from, to) == [Convert(units, vs[0], from, to)]
  {
  }

  lemma FirstThenRest(units: Units, held: seq<real>, vs: seq<real>, from: string, to: string, cap: nat)
    requires Convertible(units, from, to) && vs != []
    ensures LastN(LastN(held + [Convert(units, vs[0], from, to)], cap) + ConvertEach(units, vs[1..], from, to), cap)
            == LastN(held + ConvertEach(units, vs, from, to), cap)
  {
    hide Convert;
    var x, rest := Convert(units, vs[0], from, to), ConvertEach(units, vs[1..], from, to);
    LastNAppend(held + [x], rest, cap);
    assert ConvertEach(units, vs, from, to) == [x] + rest;
    assert held + [x] + rest == held + ConvertEach(units, vs, from, to);
  }

  predicate Ready(specs: Specs, samples: Samples)
    requires specs.Keys <= samples.Keys
  {
    forall s :: s in specs ==> |samples[s]| >= specs[s].Need()
  }

  /**
    When an asset is ready, by what its signals have taken: each one its minimum
    number of samples, or a full window if none (or too many) is configured.
   */
  lemma ReadyCountsSamples(specs: Specs, samples: Samples, taken: map<string, seq<real>>)
    requires samples.Keys == specs.Keys == taken.Keys
    requires forall s :: s in specs ==> samples[s] == LastN(taken[s], specs[s].window)
    ensures Ready(specs, samples) <==>
              forall s :: s in specs ==>
                if 0 < specs[s].minSamples <= specs[s].window then |taken[s]| >= specs[s].minSamples
                else |taken[s]| >= specs[s].window
  {
    forall s | s in specs
      ensures |samples[s]| >= specs[s].Need() <==>
                if 0 < specs[s].minSamples <= specs[s].window then |taken[s]| >= specs[s].minSamples
                else |taken[s]| >= specs[s].window
    {
      assert |samples[s]| == if |taken[s]| <= specs[s].window then |taken[s]| else specs[s].window;
    }
  }

  lemma OneChanged(before: Samples, after: Samples, signal: string)
    requires signal in before && after.Keys == before.Keys
    requires forall s :: s in before && s != signal ==> after[s] == before[s]
    ensures after == before[signal := after[signal]]
  {
  }

  // ----- The mutable extractor -----

  method EmptyWindows(specs: Specs) returns (built: map<string, Window>)
    requires forall s :: s in specs ==> specs[s].window >= 2
    ensures built.Keys == specs.Keys
    ensures forall s :: s in specs ==>
              fresh(built[s]) && fresh(built[s].buf) && built[s].Valid() && built[s].Contents() == []
                && built[s].Cap() == specs[s].window
    ensures forall s, t :: s in specs && t in specs && s != t ==> built[s] != built[t] && built[s].buf != built[t].buf
  {
    hide Ring;
    built := map[];
    var left := specs.Keys;
    while left != {}
      invariant left <= specs.Keys && built.Keys == specs.Keys - left
      invariant forall s :: s in built ==>
                  fresh(built[s]) && fresh(built[s].buf) && built[s].Valid() && built[s].Contents() == []
                    && built[s].Cap() == specs[s].window
      invariant forall s, t :: s in built && t in built && s != t ==>
                  built[s] != built[t] && built[s].buf != built[t].buf
    {
      var s :| s in left;
      var w := new Window(specs[s].window);
      built := built[s := w];
      left := left - {s};
    }
  }

  class FeatureExtractor {
    const specs: Specs
    const windows: map<string, Window>
    ghost const buffers: set<object>

    ghost predicate Valid()
      reads buffers
    {
      && windows.Keys == specs.Keys
      && (forall s :: s in specs ==> windows[s] in buffers && windows[s].buf in buffers)
      && (forall s :: s in specs ==> windows[s].Valid() && windows[s].Cap() == specs[s].window)
      && (forall s, t :: s in specs && t in specs && s != t ==>
         windows[s] != windows[t] && windows[s].buf != windows[t].buf)
    }

    /** One empty window per signal; a template's windows hold at least two samples. */
    constructor (specs: Specs)
      requires forall s :: s in specs ==> specs[s].window >= 2
      ensures Valid() && fresh(buffers) && this.specs == specs && Value() == EmptySamples(specs)
    {
      hide Ring, RingShape, Window.Contents;
      var built := EmptyWindows(specs);
      this.specs, windows := specs, built;
      buffers := (set s | s in built :: built[s] as object) + (set s | s in built :: built[s].buf as object);
    }

    /** The samples of every signal, oldest first. */
    ghost function Value(): Samples
      requires Valid()
      reads buffers
    {
      map s | s in windows :: windows[s].Contents()
    }

    lemma CoversSignals()
      requires Valid()
      ensures Value().Keys == specs.Keys
    {
    }

    method Push(units: Units, signal: string, v: real, unit: string) returns (result: PushResult)
      requires Valid()
      modifies buffers
      ensures Valid() && (Value(), result) == PushValue(units, specs, old(Value()), signal, v, unit)
    {
      if signal !in specs {
        return Unknown;
      }
      var spec := specs[signal];
      if !Convertible(units, unit, spec.unit) {
        return BadUnit;
      }
      PushKnown(signal, Convert(units, v, unit, spec.unit));
      return Pushed;
    }

    method PushKnown(signal: string, x: real)
      requires Valid() && signal in specs
      modifies windows[signal], windows[signal].buf
      ensures Valid() && Value() == old(Value())[signal := LastN(old(Value())[signal] + [x], specs[signal].window)]
    {
      hide LastN, Ring, RingShape;
      ghost var before := Value();
      var w := windows[signal];
      w.Push(x);
      assert Valid();
      OneChanged(before, Value(), signal);
    }

    /** Whether every signal has its minimum number of samples. */
    method IsReady() returns (ready: bool)
      requires Valid()
      ensures ready == Ready(specs, Value())
    {
      var left := specs.Keys;
      while left != {}
        invariant left <= specs.Keys
        invariant forall s :: s in specs && s !in left ==> |Value()[s]| >= specs[s].Need()
      {
        var s :| s in left;
        var held := windows[s].Len();
        if held < specs[s].Need() {
          return false;
        }
        left := left - {s};
      }
      return true;
    }

    /** Copies every window out, oldest sample first, through one scratch buffer. */
    method Read() returns (samples: Samples)
      requires Valid()
      ensures Valid() && Value() == old(Value()) && samples == Value()
    {
      hide Ring, RingShape, Window.Valid, Window.Contents, Window.Cap;
      ghost var all := Value();
      var scratch := new real[0];
      samples := map[];
      var left := specs.Keys;
      while left != {}
        invariant left <= specs.Keys && samples.Keys == specs.Keys - left
        invariant fresh(scratch) && Valid() && Value() == all
        invariant forall s :: s in samples ==> samples[s] == all[s]
      {
        var s :| s in left;
        var held;
        held, scratch := ReadOne(windows[s], scratch);
        samples := samples[s := held];
        left := left - {s};
      }
    }

    method ReadOne(w: Window, scratch: array<real>) returns (held: seq<real>, used: array<real>)
      requires w.Valid() && scratch != w.buf
      modifies scratch
      ensures w.Valid() && held == w.Contents() == old(w.Contents())
      ensures used == scratch || fresh(used)
    {
      var n := w.Len();
      used := w.Values(scratch);
      held := used[..n];
    }
  }
}
