/**
 * Current sensing: two shunt sensors, each with a five-slot debounce buffer
 * (one row of a 2 x 5 array) and its own write index, plus the application
 * current limit, which can never be configured above the 100 mA safety ceiling.
 * The ADC reading of a sensor enters each update as a millivolt parameter.
 */
module CurrentSensing {
  import opened Debounce

  /** Values of the sensor enumeration. */
  const Sensor1: int := 0
  const Sensor2: int := 1

  /** Shunt resistance in ohms and amplifier gain of the sensing circuit. */
  const ShuntOhms: real := 0.015
  const Gain: real := 20.0

  /** Human-safety ceiling of the current limit, in amperes. */
  const SafeLimit: real := 0.1

  /**
   * The buffer row a sensor value selects: row 0 for the first sensor and
   * row 1 for every other value, including values outside the enumeration.
   */
  function RowOf(sensor: int): (k: nat)
    ensures k < 2
    ensures k == 0 <==> sensor == Sensor1
  {
    if sensor == Sensor1 then 0 else 1
  }

  /** Load current in amperes for an amplified shunt reading in millivolts. */
  function AmpsFromMillivolts(mv: int): (amps: real)
    ensures amps * 300.0 == mv as real
    ensures (amps >= 0.0) == (mv >= 0)
  {
    (mv as real / 1000.0) / (ShuntOhms * Gain)
  }

  /**
   * The limit actually stored for a requested one: the request itself when it
   * is at or below the ceiling, the ceiling otherwise; that is, the smaller of
   * the two, so clamping a clamped value changes nothing.
   */
  function ClampLimit(requested: real): (limit: real)
    ensures limit <= SafeLimit && limit <= requested
    ensures limit == requested || limit == SafeLimit
  {
    if requested <= SafeLimit then requested else SafeLimit
  }

  lemma ClampIdempotent(requested: real)
    ensures ClampLimit(ClampLimit(requested)) == ClampLimit(requested)
    ensures requested <= SafeLimit ==> ClampLimit(requested) == requested
  {
  }

  /** Entry k of `windows` is the result of pushing entry k of `histories` from zero. */
  ghost predicate Tracks(windows: seq<Buffer>, histories: seq<seq<real>>)
  {
    |windows| == 2 && |histories| == 2 &&
    windows[0] == AfterPushes(0, histories[0]) && windows[1] == AfterPushes(0, histories[1])
  }

  /** Pushing one sample into row `k` and appending it to history `k` keeps the two in step. */
  lemma TracksPush(windows: seq<Buffer>, histories: seq<seq<real>>, k: nat, v: real)
    requires Tracks(windows, histories) && k < 2
    ensures Tracks(windows[k := windows[k].Push(v)], histories[k := histories[k] + [v]])
  {
    AfterPushesSnoc(0, histories[k], v);
  }

  class State {
    /** Row k holds the last five samples of sensor row k. */
    const measurements: array2<real>
    /** Entry k is the slot the next sample of row k is written to. */
    const indices: array<int>
    /** The application-defined current limit, in amperes. */
    var limit: real
    /** Entry k is row k and its write index as a debounce window. */
    ghost var Windows: seq<Buffer>
    /** Entry k is every sample pushed into row k since start-up, oldest first. */
    ghost var Histories: seq<seq<real>>

    ghost predicate Valid()
      reads this, measurements, indices
    {
      Stored() && Tracks(Windows, Histories) && limit <= SafeLimit
    }

    /** The arrays hold the two windows. */
    ghost predicate Stored()
      reads this, measurements, indices
    {
      measurements.Length0 == 2 && measurements.Length1 == Capacity &&
      indices.Length == 2 && |Windows| == 2 &&
      Windows[0].Valid() && Windows[1].Valid() && Holds(0) && Holds(1)
    }

    /** Row `k` of the arrays and index `k` are window `k`. */
    ghost predicate Holds(k: nat)
      requires k < 2 && measurements.Length0 == 2 && measurements.Length1 == Capacity
      requires indices.Length == 2 && |Windows| == 2
      reads this, measurements, indices
    {
      Row(k) == Windows[k].slots && indices[k] == Windows[k].next
    }

    /** Row `k` of the buffer as a sequence. */
    ghost function Row(k: nat): (r: seq<real>)
      requires k < 2 && measurements.Length0 == 2 && measurements.Length1 == Capacity
      reads measurements
      ensures |r| == Capacity
    {
      [measurements[k, 0], measurements[k, 1], measurements[k, 2], measurements[k, 3], measurements[k, 4]]
    }

    /** Static storage: both rows and both indices zero, limit at the ceiling. */
    constructor ()
      ensures Valid() && fresh(measurements) && fresh(indices)
      ensures Windows == [Empty, Empty] && Histories == [[], []]
      ensures limit == SafeLimit
    {
      measurements := new real[2, Capacity]((_, _) => 0.0);
      indices := new int[2](_ => 0);
      limit := SafeLimit;
      Windows, Histories := [Empty, Empty], [[], []];
    }

    /** Mean of the five slots of the sensor's row; changes nothing. */
    method GetDebounced(sensor: int) returns (avg: real)
      requires Valid()
      ensures avg == Windows[RowOf(sensor)].Average()
      ensures avg == Sum(Recent(Histories[RowOf(sensor)])) / Capacity as real
    {
      var k := RowOf(sensor);
      ghost var slots := Windows[k].slots;
      assert Holds(k);
      var sum := 0.0;
      var i := 0;
      while i < Capacity
        invariant 0 <= i <= Capacity
        invariant sum == Sum(slots[..i])
      {
        assert slots[..i + 1] == slots[..i] + [measurements[k, i]];
        sum := sum + measurements[k, i];
        i := i + 1;
      }
      assert slots[..Capacity] == slots;
      avg := sum / Capacity as real;
      AverageOfRecent(0, Histories[k]);
    }

    /**
     * Convert one reading of `sensor`, store it at that row's write index and
     * advance the index; the other row, its index and the limit are untouched.
     */
    method Update(sensor: int, mv: int)
      requires Valid()
      modifies this, measurements, indices
      ensures Valid() && limit == old(limit)
      ensures Windows == old(Windows)[RowOf(sensor) := old(Windows)[RowOf(sensor)].Push(AmpsFromMillivolts(mv))]
      ensures Histories == old(Histories)[RowOf(sensor) := old(Histories)[RowOf(sensor)] + [AmpsFromMillivolts(mv)]]
    {
      var amps := AmpsFromMillivolts(mv);
      var k := RowOf(sensor);
      ghost var histories := Histories[k := Histories[k] + [amps]];
      TracksPush(Windows, Histories, k, amps);
      Store(k, amps);
      Histories := histories;
    }

    /** Write `v` into row `k` at its index and advance that index. */
    method Store(k: nat, v: real)
      requires k < 2 && Stored()
      modifies this`Windows, measurements, indices
      ensures Stored()
      ensures Windows == old(Windows)[k := old(Windows)[k].Push(v)]
    {
      ghost var before := Windows[k];
      measurements[k, indices[k]] := v;
      indices[k] := (indices[k] + 1) % Capacity;
      Windows := Windows[k := before.Push(v)];
      assert Row(k) == before.slots[before.next := v];
      assert Holds(k);
      assert Holds(1 - k);
    }

    /** One period of the sensing task: update the first sensor, then the second. */
    method Process(mv1: int, mv2: int)
      requires Valid()
      modifies this, measurements, indices
      ensures Valid() && limit == old(limit)
      ensures Windows[0] == old(Windows)[0].Push(AmpsFromMillivolts(mv1))
      ensures Windows[1] == old(Windows)[1].Push(AmpsFromMillivolts(mv2))
      ensures Histories[0] == old(Histories)[0] + [AmpsFromMillivolts(mv1)]
      ensures Histories[1] == old(Histories)[1] + [AmpsFromMillivolts(mv2)]
    {
      Update(Sensor1, mv1);
      Update(Sensor2, mv2);
    }

    /** Store the requested limit, clamped to the safety ceiling. */
    method SetLimit(requested: real)
      requires Valid()
      modifies this`limit
      ensures Valid()
      ensures limit == ClampLimit(requested)
    {
      limit := ClampLimit(requested);
    }

    /** The configured limit, which never exceeds the ceiling; changes nothing. */
    method GetLimit() returns (l: real)
      requires Valid()
      ensures l == limit
      ensures l <= SafeLimit
    {
      l := limit;
    }
  }
}
