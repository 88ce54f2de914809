/**
 * The coarse sampler: times from the start of the search up to, but not
 * including, its end, a fixed step apart (numpy's `arange` over TT day counts).
 * A time is a single real count of days.
 */
module Sampler {

  /** The sampling step in days; it must stay below one hour-angle cycle. */
  const Step: real := 0.8

  /** How many samples `arange(start, end, Step)` yields: the ceiling of
      (end - start) / Step, or none when the interval is empty. */
  function SampleCount(start: real, end: real): (n: nat)
    ensures n > 0 ==> start + ((n - 1) as real) * Step < end
    ensures start + (n as real) * Step >= end
  {
    if end <= start then 0
    else
      var f := ((start - end) / Step).Floor;
      assert f as real <= (start - end) / Step < f as real + 1.0;
      -f
  }

  /** The sample times. */
  function Samples(start: real, end: real): (s: seq<real>)
    ensures |s| == 0 <==> end <= start
    ensures |s| > 0 ==> s[0] == start
    ensures forall k :: 0 <= k < |s| - 1 ==> s[k + 1] == s[k] + Step
    ensures forall k :: 0 <= k < |s| ==> s[k] < end
    ensures start + (|s| as real) * Step >= end
  {
    var n := SampleCount(start, end);
    seq(n, k requires 0 <= k < n => start + (k as real) * Step)
  }

  /** Sample k sits k steps after the start. */
  lemma SamplesOnGrid(start: real, end: real, k: nat)
    requires k < |Samples(start, end)|
    ensures Samples(start, end)[k] == start + (k as real) * Step
  {
  }

  /** Every point of the grid start + k * Step that falls before `end` is a
      sample, at position k: the sampler misses nothing. */
  lemma SamplesComplete(start: real, end: real, k: nat)
    requires start + (k as real) * Step < end
    ensures k < |Samples(start, end)| && Samples(start, end)[k] == start + (k as real) * Step
  {
  }

  /** Samples increase strictly, so any two of them are ordered by position. */
  lemma SamplesIncreasing(start: real, end: real, i: nat, j: nat)
    requires i < j < |Samples(start, end)|
    ensures Samples(start, end)[i] < Samples(start, end)[j]
  {
    SamplesOnGrid(start, end, i);
    SamplesOnGrid(start, end, j);
    assert (i as real) * Step < (j as real) * Step;
  }
}
