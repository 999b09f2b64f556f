/**
 * Voltage sensing: one five-slot debounce buffer of load-voltage samples.
 * The module's static array and write index are the fields of `State`; the
 * ADC reading (calibrated, or raw when calibration is missing) enters each
 * update as a millivolt parameter.
 */
module VoltageSensing {
  import opened Debounce

  /** Resistor divider between the load and the ADC pin. */
  const DividerRatio: real := 10.0

  /** Load voltage in volts for an ADC pin reading in millivolts. */
  function VoltsFromMillivolts(mv: int): (volts: real)
    ensures volts * 100.0 == mv as real
    ensures (volts >= 0.0) == (mv >= 0)
  {
    mv as real / 1000.0 * DividerRatio
  }

  class State {
    /** The last five voltage samples. */
    const measurements: array<real>
    /** The slot the next sample is written to. */
    var index: int
    /** Every sample pushed since start-up, oldest first. */
    ghost var History: seq<real>

    ghost predicate Valid()
      reads this, measurements
    {
      measurements.Length == Capacity && 0 <= index < Capacity &&
      Model() == AfterPushes(0, History)
    }

    /** The buffer and index as a debounce window. */
    ghost function Model(): Buffer
      reads this, measurements
    {
      Buffer(measurements[..], index)
    }

    /** Static storage: every slot and the index start at zero. */
    constructor ()
      ensures Valid() && fresh(measurements)
      ensures Model() == Empty && History == []
    {
      measurements := new real[Capacity](_ => 0.0);
      index := 0;
      History := [];
      new;
      assert measurements[..] == Zeros;
    }

    /** Mean of all five slots, unwritten ones counting as 0; changes nothing. */
    method GetDebounced() returns (avg: real)
      requires Valid()
      ensures avg == Model().Average()
      ensures avg == Sum(Recent(History)) / Capacity as real
    {
      var sum := 0.0;
      var i := 0;
      while i < Capacity
        invariant 0 <= i <= Capacity
        invariant sum == Sum(measurements[..i])
      {
        assert measurements[..i + 1] == measurements[..i] + [measurements[i]];
        sum := sum + measurements[i];
        i := i + 1;
      }
      assert measurements[..Capacity] == measurements[..];
      avg := sum / Capacity as real;
      AverageOfRecent(0, History);
    }

    /** Convert one reading, store it at the write index and advance the index. */
    method Update(mv: int)
      requires Valid()
      modifies this, measurements
      ensures Valid()
      ensures Model() == old(Model()).Push(VoltsFromMillivolts(mv))
      ensures History == old(History) + [VoltsFromMillivolts(mv)]
    {
      var volts := VoltsFromMillivolts(mv);
      measurements[index] := volts;
      index := (index + 1) % Capacity;
      History := History + [volts];
      assert History[..|History| - 1] == old(History);
    }

    /** One task period: a single update, then the average of the updated buffer. */
    method Run(mv: int) returns (debounced: real)
      requires Valid()
      modifies this, measurements
      ensures Valid()
      ensures Model() == old(Model()).Push(VoltsFromMillivolts(mv))
      ensures History == old(History) + [VoltsFromMillivolts(mv)]
      ensures debounced == Model().Average()
    {
      Update(mv);
      debounced := GetDebounced();
    }
  }
}
