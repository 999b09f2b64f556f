/**
 * The five-slot debounce window that the current, voltage and battery modules
 * each keep: a circular buffer of samples, a write index that wraps modulo 5,
 * and an average that always divides the sum of all five slots by five.
 *
 * The modules duplicate this logic over their own static arrays; this module
 * is the value-level description that their in-place methods are proved against.
 */
module Debounce {

  /** Number of slots of every debounce window. */
  const Capacity: nat := 5

  /** All slots zero: what C static storage and battery initialisation give. */
  const Zeros: seq<real> := [0.0, 0.0, 0.0, 0.0, 0.0]

  /** Sum of a sequence, accumulated from the front as the C loops do. */
  function Sum(s: seq<real>): real
  {
    if s == [] then 0.0 else Sum(s[..|s| - 1]) + s[|s| - 1]
  }

  lemma {:induction false} SumCons(x: real, t: seq<real>)
    ensures Sum([x] + t) == x + Sum(t)
  {
    if t == [] {
      assert ([x] + t)[..0] == [];
    } else {
      assert ([x] + t)[..|t|] == [x] + t[..|t| - 1];
      SumCons(x, t[..|t| - 1]);
    }
  }

  lemma SumSnoc(s: seq<real>, v: real)
    ensures Sum(s + [v]) == Sum(s) + v
  {
    assert (s + [v])[..|s|] == s;
  }

  /** Overwriting one element changes the sum by exactly the difference. */
  lemma {:induction false} SumUpdate(s: seq<real>, i: nat, v: real)
    requires i < |s|
    ensures Sum(s[i := v]) == Sum(s) - s[i] + v
  {
    var n := |s| - 1;
    if i == n {
      assert s[i := v] == s[..n] + [v];
      SumSnoc(s[..n], v);
    } else {
      assert s[i := v][..n] == s[..n][i := v];
      SumUpdate(s[..n], i, v);
    }
  }

  lemma SumFive(a: real, b: real, c: real, d: real, e: real)
    ensures Sum([a, b, c, d, e]) == a + b + c + d + e
  {
    assert [a] == [] + [a];
    SumSnoc([], a);
    assert [a, b] == [a] + [b];
    SumSnoc([a], b);
    assert [a, b, c] == [a, b] + [c];
    SumSnoc([a, b], c);
    assert [a, b, c, d] == [a, b, c] + [d];
    SumSnoc([a, b, c], d);
    assert [a, b, c, d, e] == [a, b, c, d] + [e];
    SumSnoc([a, b, c, d], e);
  }

  /** A debounce window: the five stored samples and the next slot to write. */
  datatype Buffer = Buffer(slots: seq<real>, next: int)
  {
    predicate Valid()
    {
      |slots| == Capacity && 0 <= next < Capacity
    }

    /** Store one sample at the write index and advance the index (see PushOverwritesOne). */
    function Push(v: real): (b: Buffer)
      requires Valid()
      ensures b.Valid()
    {
      Buffer(slots[next := v], (next + 1) % Capacity)
    }

    /** Sum of all five slots divided by five, whether or not they were written. */
    function Average(): real
      requires Valid()
    {
      Sum(slots) / Capacity as real
    }
  }

  /**
   * A push overwrites exactly the slot at the write index, leaves the other
   * four slots as they were, and advances the index modulo the capacity.
   */
  lemma PushOverwritesOne(b: Buffer, v: real)
    requires b.Valid()
    ensures b.Push(v).next == (b.next + 1) % Capacity
    ensures b.Push(v).slots[b.next] == v
    ensures forall j :: 0 <= j < Capacity && j != b.next ==> b.Push(v).slots[j] == b.slots[j]
  {
  }

  /** The window as static initialisation leaves it. */
  const Empty: Buffer := Buffer(Zeros, 0)

  /** A push moves the average by a fifth of the difference between the new and the evicted sample. */
  lemma PushAverage(b: Buffer, v: real)
    requires b.Valid()
    ensures b.Push(v).Average() == b.Average() + (v - b.slots[b.next]) / Capacity as real
  {
    SumUpdate(b.slots, b.next, v);
  }

  /** Five pushes of the same value fill every slot with it, whatever the window held. */
  lemma PushSameFive(b: Buffer, v: real)
    requires b.Valid()
    ensures b.Push(v).Push(v).Push(v).Push(v).Push(v).slots == [v, v, v, v, v]
    ensures b.Push(v).Push(v).Push(v).Push(v).Push(v).Average() == v
  {
    var b1 := b.Push(v);
    var b2 := b1.Push(v);
    var b3 := b2.Push(v);
    var b4 := b3.Push(v);
    var b5 := b4.Push(v);
    // The five pushes write the five distinct slots next, next + 1, ..., next + 4 (mod 5).
    forall j | 0 <= j < Capacity
      ensures b5.slots[j] == v
    {
      if j != b4.next && j != b3.next && j != b2.next && j != b1.next {
        assert j == b.next;
      }
    }
    assert b5.slots == [v, v, v, v, v];
    SumFive(v, v, v, v, v);
  }

  /**
   * The window after pushing `samples` in order onto the all-zero window whose
   * write index is `start` (`Empty` when `start` is 0).
   */
  function AfterPushes(start: nat, samples: seq<real>): (b: Buffer)
    requires start < Capacity
    ensures b.Valid()
    ensures b.next == (start + |samples|) % Capacity
  {
    if samples == [] then Buffer(Zeros, start)
    else AfterPushes(start, samples[..|samples| - 1]).Push(samples[|samples| - 1])
  }

  /** Pushing one more sample onto a history is one more `Push` of the window. */
  lemma AfterPushesSnoc(start: nat, samples: seq<real>, v: real)
    requires start < Capacity
    ensures AfterPushes(start, samples + [v]) == AfterPushes(start, samples).Push(v)
  {
    assert (samples + [v])[..|samples|] == samples;
  }

  /** The last five samples, or all of them when fewer than five were pushed. */
  function Recent(samples: seq<real>): (r: seq<real>)
    ensures |r| <= Capacity
  {
    if |samples| <= Capacity then samples else samples[|samples| - Capacity..]
  }

  /** The sample pushed `age` pushes ago (1 is the latest), or 0 when there were fewer pushes. */
  function Back(samples: seq<real>, age: nat): real
    requires 0 < age
  {
    if |samples| >= age then samples[|samples| - age] else 0.0
  }

  /**
   * Slot (start + n + d) mod 5 of the window after n pushes holds the sample
   * pushed 5 - d pushes ago: the slots, read from the write index on, are the
   * last five samples oldest first.
   */
  lemma {:induction false} SlotAge(start: nat, samples: seq<real>, d: nat)
    requires start < Capacity && d < Capacity
    ensures AfterPushes(start, samples).slots[(start + |samples| + d) % Capacity] == Back(samples, Capacity - d)
  {
    if samples != [] {
      var n := start + |samples| - 1;
      var p, v := samples[..|samples| - 1], samples[|samples| - 1];
      if d == Capacity - 1 {
        assert (start + |samples| + d) % Capacity == n % Capacity;
      } else {
        assert (start + |samples| + d) % Capacity == (n + (d + 1)) % Capacity != n % Capacity;
        SlotAge(start, p, d + 1);
      }
    }
  }

  /** The sample a further push evicts: the one pushed five pushes ago, or 0 before the window is full. */
  function Evictee(samples: seq<real>): real
  {
    Back(samples, Capacity)
  }

  /** A push changes the sum of the window by the new sample minus the evicted one. */
  lemma SlotsSumStep(start: nat, p: seq<real>, v: real)
    requires start < Capacity
    ensures Sum(AfterPushes(start, p + [v]).slots) == Sum(AfterPushes(start, p).slots) - Evictee(p) + v
  {
    var w := AfterPushes(start, p);
    assert (p + [v])[..|p|] == p;
    assert AfterPushes(start, p + [v]) == w.Push(v);
    SlotAge(start, p, 0);
    assert w.slots[w.next] == Evictee(p);
    SumUpdate(w.slots, w.next, v);
  }

  /** Appending a sample changes the sum of the last five by the same amount. */
  lemma RecentSumStep(p: seq<real>, v: real)
    ensures Sum(Recent(p + [v])) == Sum(Recent(p)) - Evictee(p) + v
  {
    var n := |p|;
    if n < Capacity {
      SumSnoc(p, v);
    } else {
      var mid := p[n - Capacity + 1..];
      assert Recent(p) == [p[n - Capacity]] + mid;
      assert Recent(p + [v]) == mid + [v];
      SumCons(p[n - Capacity], mid);
      SumSnoc(mid, v);
    }
  }

  /**
   * After any sequence of pushes from an all-zero window, whatever its write
   * index, the average is the sum of the last five samples divided by five;
   * slots not yet written count as 0.
   */
  lemma {:induction false} AverageOfRecent(start: nat, samples: seq<real>)
    requires start < Capacity
    ensures AfterPushes(start, samples).Average() == Sum(Recent(samples)) / Capacity as real
  {
    if samples == [] {
      SumFive(0.0, 0.0, 0.0, 0.0, 0.0);
    } else {
      var n := |samples| - 1;
      var p, v := samples[..n], samples[n];
      assert samples == p + [v];
      AverageOfRecent(start, p);
      SlotsSumStep(start, p, v);
      RecentSumStep(p, v);
    }
  }

  /** Pushing 1, 2, 3, 4, 5 averages to 3; a further 6 evicts the 1 and averages to 4. */
  lemma WarmUpScenario()
    ensures AfterPushes(0, [1.0, 2.0, 3.0, 4.0, 5.0]).Average() == 3.0
    ensures AfterPushes(0, [1.0, 2.0, 3.0, 4.0, 5.0, 6.0]).Average() == 4.0
  {
    AverageOfRecent(0, [1.0, 2.0, 3.0, 4.0, 5.0]);
    AverageOfRecent(0, [1.0, 2.0, 3.0, 4.0, 5.0, 6.0]);
    assert Recent([1.0, 2.0, 3.0, 4.0, 5.0, 6.0]) == [2.0, 3.0, 4.0, 5.0, 6.0];
    SumFive(1.0, 2.0, 3.0, 4.0, 5.0);
    SumFive(2.0, 3.0, 4.0, 5.0, 6.0);
  }
}
