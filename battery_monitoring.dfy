/**
 * Battery monitoring for a pack of three cells in series: a five-slot debounce
 * buffer of pack-voltage samples, the state-of-charge percentage derived from
 * the debounced voltage, and the critical-voltage condition. The ADC reading
 * enters each run as a millivolt parameter; the log lines become out-parameters.
 */
module BatteryMonitoring {
  import opened Debounce

  /** Resistor divider on the board and number of cells in series. */
  const DividerRatio: real := 2.0
  const SeriesCells: real := 3.0

  /** Pack voltage at full charge (4.2 V per cell) and at the lowest safe charge (3.0 V per cell). */
  const FullVoltage: real := 12.6
  const EmptyVoltage: real := 9.0

  /** Pack voltage in volts for an ADC pin reading in millivolts. */
  function VoltsFromMillivolts(mv: int): (volts: real)
    ensures volts * 1000.0 == mv as real * 6.0
    ensures (volts >= 0.0) == (mv >= 0)
  {
    (mv as real / 1000.0) * DividerRatio * SeriesCells
  }

  /** Conversion of a real to an integer by dropping the fraction, as a C cast does. */
  function Truncate(x: real): (n: int)
    ensures x >= 0.0 ==> n >= 0 && n as real <= x < n as real + 1.0
    ensures x < 0.0 ==> n <= 0 && n as real - 1.0 < x <= n as real
  {
    if x >= 0.0 then x.Floor else -((-x).Floor)
  }

  /** Where `volts` lies between the empty and the full voltage, in percent (unclamped). */
  function Percent(volts: real): real
  {
    (volts - EmptyVoltage) / (FullVoltage - EmptyVoltage) * 100.0
  }

  /**
   * State of charge: 100 at or above the full voltage, 0 at or below the empty
   * voltage, and in between the linear percentage with its fraction dropped.
   */
  function StateOfCharge(volts: real): (soc: int)
    ensures 0 <= soc <= 100
    ensures volts >= FullVoltage ==> soc == 100
    ensures volts <= EmptyVoltage ==> soc == 0
    ensures EmptyVoltage < volts < FullVoltage ==>
              soc < 100 && soc as real <= Percent(volts) < soc as real + 1.0
  {
    if volts >= FullVoltage then 100
    else if volts <= EmptyVoltage then 0
    else Truncate(Percent(volts))
  }

  /** A higher voltage never reports a lower state of charge. */
  lemma StateOfChargeMonotone(v1: real, v2: real)
    requires v1 <= v2
    ensures StateOfCharge(v1) <= StateOfCharge(v2)
  {
    if EmptyVoltage < v1 && v2 < FullVoltage {
      assert Percent(v1) <= Percent(v2);
    }
  }

  /** The midpoint of the range, 10.8 V, reports exactly half charge. */
  lemma StateOfChargeMidpoint()
    ensures StateOfCharge(10.8) == 50
  {
    assert Percent(10.8) == 50.0;
  }

  class State {
    /** The last five pack-voltage samples. */
    const measurements: array<real>
    /** The slot the next sample is written to. */
    var index: int
    /** Every sample pushed since the buffer was last zeroed, oldest first. */
    ghost var History: seq<real>
    /** The write index at the time the buffer was last zeroed. */
    ghost var Start: nat

    ghost predicate Valid()
      reads this, measurements
    {
      measurements.Length == Capacity && 0 <= index < Capacity &&
      Start < Capacity && Model() == AfterPushes(Start, History)
    }

    /** The buffer and index as a debounce window. */
    ghost function Model(): Buffer
      requires measurements.Length == Capacity
      reads this, measurements
    {
      Buffer(measurements[..], index)
    }

    /** Static storage: every slot and the index start at zero. */
    constructor ()
      ensures Valid() && fresh(measurements)
      ensures Model() == Empty && History == []
    {
      measurements := new real[Capacity](_ => 0.0);
      index := 0;
      History, Start := [], 0;
      new;
      assert measurements[..] == Zeros;
    }

    /** Zero every slot of the buffer; the write index keeps its value and the history restarts. */
    method Init()
      requires Valid()
      modifies this`History, this`Start, measurements
      ensures Valid()
      ensures Model() == Buffer(Zeros, old(index))
      ensures History == []
    {
      var i := 0;
      while i < Capacity
        invariant 0 <= i <= Capacity
        invariant forall j :: 0 <= j < i ==> measurements[j] == 0.0
      {
        measurements[i] := 0.0;
        i := i + 1;
      }
      assert measurements[..] == Zeros;
      History, Start := [], index;
    }

    /** Mean of all five slots, unwritten ones counting as 0; changes nothing. */
    method GetDebouncedVoltage() returns (avg: real)
      requires Valid()
      ensures avg == Model().Average()
      ensures avg == Sum(Recent(History)) / Capacity as real
    {
      var sum := 0.0;
      var i := 0;
      while i < Capacity
        invariant 0 <= i <= Capacity
        invariant sum == Sum(measurements[..i])
      {
        assert measurements[..i + 1] == measurements[..i] + [measurements[i]];
        sum := sum + measurements[i];
        i := i + 1;
      }
      assert measurements[..Capacity] == measurements[..];
      avg := sum / Capacity as real;
      AverageOfRecent(Start, History);
    }

    /** Store one sample at the write index and advance the index. */
    method UpdateDebounceBuffer(volts: real)
      requires Valid()
      modifies this, measurements
      ensures Valid()
      ensures Model() == old(Model()).Push(volts)
      ensures History == old(History) + [volts]
    {
      measurements[index] := volts;
      index := (index + 1) % Capacity;
      AfterPushesSnoc(Start, History, volts);
      History := History + [volts];
    }

    /**
     * One task period: push the new reading, average the updated buffer, map
     * the average to a state of charge, and flag a critical battery when the
     * average is at or below the empty voltage.
     */
    method Run(mv: int) returns (raw: real, debounced: real, soc: int, critical: bool)
      requires Valid()
      modifies this, measurements
      ensures Valid()
      ensures raw == VoltsFromMillivolts(mv)
      ensures Model() == old(Model()).Push(raw)
      ensures History == old(History) + [raw]
      ensures debounced == Model().Average()
      ensures debounced == Sum(Recent(History)) / Capacity as real
      ensures soc == StateOfCharge(debounced)
      ensures critical <==> debounced <= EmptyVoltage
      ensures critical ==> soc == 0
    {
      raw := VoltsFromMillivolts(mv);
      UpdateDebounceBuffer(raw);
      debounced := GetDebouncedVoltage();
      soc := StateOfCharge(debounced);
      critical := debounced <= EmptyVoltage;
    }
  }
}
