/** What repeated normal-mode reads of one sensor do to its smoothed value:
    the value stays inside the range of what it has seen, and under a steady
    sample its distance to that sample halves on every read. */
module Smoothing {
  import opened LineFollower

  /** The smoothed value after feeding `raws`, oldest first, into a filter
      that held `prev`. */
  function Smooth(prev: real, raws: seq<int>): real
    decreases |raws|
  {
    if |raws| == 0 then prev else Smooth(FilterStep(prev, raws[0]), raws[1..])
  }

  /** The state after polling `readLeftSensor()` once per sample of `raws`. */
  function PollLeft(s: State, raws: seq<int>): State
    decreases |raws|
  {
    if |raws| == 0 then s else PollLeft(ReadLeftSensor(s, raws[0]).state, raws[1..])
  }

  /** `n` equal samples `c`. */
  function Repeat(c: int, n: nat): (r: seq<int>)
    ensures |r| == n
    ensures forall i :: 0 <= i < n ==> r[i] == c
  {
    if n == 0 then [] else [c] + Repeat(c, n - 1)
  }

  function Pow2(n: nat): real
  {
    if n == 0 then 1.0 else 2.0 * Pow2(n - 1)
  }

  /** Polling the left sensor runs its filter over the samples and touches
      nothing else: not the right filter, the pins or the baselines. */
  lemma {:induction false} PollLeftSmooths(s: State, raws: seq<int>)
    ensures PollLeft(s, raws) == s.(leftValue := Smooth(s.leftValue, raws))
    decreases |raws|
  {
    if |raws| > 0 {
      var s' := ReadLeftSensor(s, raws[0]).state;
      assert s' == s.(leftValue := FilterStep(s.leftValue, raws[0]));
      PollLeftSmooths(s', raws[1..]);
    }
  }

  /** The smoothed value never leaves an interval that holds the starting
      value and every sample. */
  lemma {:induction false} SmoothStaysInHull(prev: real, raws: seq<int>, lo: real, hi: real)
    requires lo <= prev <= hi
    requires forall i :: 0 <= i < |raws| ==> lo <= raws[i] as real <= hi
    ensures lo <= Smooth(prev, raws) <= hi
    decreases |raws|
  {
    if |raws| > 0 {
      var next := FilterStep(prev, raws[0]);
      assert lo <= next <= hi;
      SmoothStaysInHull(next, raws[1..], lo, hi);
    }
  }

  /** A larger starting value never gives a smaller smoothed value. */
  lemma {:induction false} SmoothMonotone(prev: real, prev': real, raws: seq<int>)
    requires prev <= prev'
    ensures Smooth(prev, raws) <= Smooth(prev', raws)
    decreases |raws|
  {
    if |raws| > 0 {
      SmoothMonotone(FilterStep(prev, raws[0]), FilterStep(prev', raws[0]), raws[1..]);
    }
  }

  /** Under a steady sample `c`, after `n` reads the distance to `c` is the
      starting distance divided by 2^n. */
  lemma {:induction false} SmoothConverges(prev: real, c: int, n: nat)
    ensures (Smooth(prev, Repeat(c, n)) - c as real) * Pow2(n) == prev - c as real
    decreases n
  {
    if n > 0 {
      var next := FilterStep(prev, c);
      var rs := Repeat(c, n);
      assert rs[0] == c && rs[1..] == Repeat(c, n - 1);
      SmoothConverges(next, c, n - 1);
      var d := Smooth(next, Repeat(c, n - 1)) - c as real;
      assert d * Pow2(n - 1) == next - c as real;
      assert next - c as real == (prev - c as real) / 2.0;
      calc {
        d * Pow2(n);
        d * (2.0 * Pow2(n - 1));
        2.0 * (d * Pow2(n - 1));
        prev - c as real;
      }
    }
  }

  /** The example of the filter: from 100, a sample of 200 gives 150. */
  lemma SmoothExample()
    ensures Smooth(100.0, [200]) == 150.0
  {
  }
}
