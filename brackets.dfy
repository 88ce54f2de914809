/**
 * Phase wrap, bracket detection and linear interpolation of the first guess.
 *
 * Each sample carries the phase distance from its hour angle to the next
 * ideal rising, reduced modulo a full turn. While the body approaches a
 * rising that distance grows; it drops back when the rising is passed.
 * A bracket is a pair of consecutive samples across such a drop.
 */
module Bracketing {
  import opened Geometry

  /** `x % Tau` with numpy's floor-modulo convention: a representative in [0, Tau)
      that differs from x by a whole number of turns. */
  function Wrap(x: real): (r: real)
    ensures 0.0 <= r < Tau
    ensures ((x - r) / Tau).Floor as real == (x - r) / Tau
  {
    var k := (x / Tau).Floor;
    assert k as real <= x / Tau < k as real + 1.0;
    assert (x - (x - Tau * k as real)) / Tau == k as real;
    x - Tau * k as real
  }

  /** The representative is unique: any r in [0, Tau) a whole number of turns
      away from x is Wrap(x). */
  lemma WrapUnique(x: real, k: int, r: real)
    requires 0.0 <= r < Tau
    requires x == r + (k as real) * Tau
    ensures Wrap(x) == r
  {
    var w := Wrap(x);
    var m := ((x - w) / Tau).Floor;
    assert x - w == (m as real) * Tau;
    assert r - w == ((m - k) as real) * Tau;
  }

  /** Turning by whole turns does not change the wrapped phase. */
  lemma WrapTurns(x: real, k: int)
    ensures Wrap(x + (k as real) * Tau) == Wrap(x)
  {
    var w := Wrap(x);
    var m := ((x - w) / Tau).Floor;
    assert x - w == (m as real) * Tau;
    WrapUnique(x + (k as real) * Tau, m + k, w);
  }

  /** The wrapped phase is zero exactly when x is a whole number of turns. */
  lemma WrapZeroIff(x: real)
    ensures Wrap(x) == 0.0 <==> (x / Tau).Floor as real == x / Tau
  {
    if (x / Tau).Floor as real == x / Tau {
      var k := (x / Tau).Floor;
      assert x == 0.0 + (k as real) * Tau;
      WrapUnique(x, k, 0.0);
    }
  }

  /** The in-place `%= Tau` of a whole array of phases. */
  function WrapAll(xs: seq<real>): (r: seq<real>)
    ensures |r| == |xs| && Wrapped(r)
    ensures forall k :: 0 <= k < |xs| ==> r[k] == Wrap(xs[k])
  {
    seq(|xs|, k requires 0 <= k < |xs| => Wrap(xs[k]))
  }

  /** Whether the wrapped phase drops between sample i and sample i + 1
      (`diff(d) < 0` at i). */
  predicate DropsAt(d: seq<real>, i: int)
  {
    0 <= i && i + 1 < |d| && d[i + 1] < d[i]
  }

  /** The indices from k onwards at which the wrapped phase drops, in order. */
  function BracketsFrom(d: seq<real>, k: nat): (idx: seq<nat>)
    requires k <= |d|
    ensures forall j :: 0 <= j < |idx| ==> k <= idx[j] && DropsAt(d, idx[j])
    ensures forall i :: k <= i && DropsAt(d, i) ==> i in idx
    ensures forall j, j' :: 0 <= j < j' < |idx| ==> idx[j] < idx[j']
    decreases |d| - k
  {
    if k + 1 >= |d| then []
    else if d[k + 1] < d[k] then [k] + BracketsFrom(d, k + 1)
    else BracketsFrom(d, k + 1)
  }

  /** The bracket indices (`nonzero(diff(d) < 0)`): exactly the positions i
      with d[i+1] < d[i], listed once each and in increasing order. */
  function Brackets(d: seq<real>): (idx: seq<nat>)
    ensures forall j :: 0 <= j < |idx| ==> DropsAt(d, idx[j])
    ensures forall i :: DropsAt(d, i) ==> i in idx
    ensures forall j, j' :: 0 <= j < j' < |idx| ==> idx[j] < idx[j']
  {
    BracketsFrom(d, 0)
  }

  /** A phase that never drops from sample k to the last sample yields no
      bracket from k on (no bracket at all when k = 0). */
  lemma {:induction false} NoDropNoBracket(d: seq<real>, k: nat)
    requires k <= |d|
    requires forall i :: k <= i < |d| - 1 ==> d[i] <= d[i + 1]
    ensures BracketsFrom(d, k) == []
    decreases |d| - k
  {
    if k + 1 < |d| {
      NoDropNoBracket(d, k + 1);
    }
  }

  /** A run of samples from k to m whose phase keeps growing and then drops
      after m (`diff(d) < 0` first at m) yields exactly one bracket, at m: the
      earlier samples of the run, which all precede the same rising, are
      dropped and only the last is kept. */
  lemma RunKeepsLast(d: seq<real>, k: nat, m: nat)
    requires k <= m && m + 1 < |d|
    requires forall i :: k <= i < m ==> d[i] <= d[i + 1]
    requires d[m + 1] < d[m]
    ensures m in Brackets(d)
    ensures forall j :: 0 <= j < |Brackets(d)| && k <= Brackets(d)[j] <= m ==> Brackets(d)[j] == m
  {
  }

  /** The first guess for a bracket: the weighted mean (b * t0 + a * t1) / (a + b)
      with a = Tau - d0 and b = d1, which never divides by zero. The guess
      lies in (t0, t1] and is where the phase, rising in a straight line from
      d0 at t0 to d1 + Tau at t1, reaches one full turn. */
  function Interpolate(t0: real, t1: real, d0: real, d1: real): (r: real)
    requires 0.0 <= d0 < Tau && 0.0 <= d1
    ensures t0 < t1 ==> t0 < r <= t1
    ensures d0 * (t1 - r) + (d1 + Tau) * (r - t0) == Tau * (t1 - t0)
  {
    var a, b := Tau - d0, d1;
    assert a + b > 0.0;
    var r := (b * t0 + a * t1) / (a + b);
    assert r * (a + b) == b * t0 + a * t1;
    assert (r - t0) * (a + b) == a * (t1 - t0);
    assert (t1 - r) * (a + b) == b * (t1 - t0);
    assert t0 < t1 ==> b * (t1 - t0) >= 0.0;
    assert t0 < t1 ==> a * (t1 - t0) > 0.0;
    r
  }

  /** Whether every wrapped phase lies in [0, Tau). */
  predicate Wrapped(d: seq<real>)
  {
    forall k :: 0 <= k < |d| ==> 0.0 <= d[k] < Tau
  }

  /** One first guess per bracket, each inside its bracket and each the point
      where the phase, rising linearly across the bracket, completes a turn. */
  function FirstEstimates(tt: seq<real>, d: seq<real>, idx: seq<nat>): (est: seq<real>)
    requires |tt| == |d| && Wrapped(d)
    requires forall j :: 0 <= j < |idx| ==> idx[j] + 1 < |d|
    ensures |est| == |idx|
    ensures forall j :: 0 <= j < |idx| && tt[idx[j]] < tt[idx[j] + 1] ==>
      tt[idx[j]] < est[j] <= tt[idx[j] + 1]
    ensures forall j :: 0 <= j < |idx| ==>
      d[idx[j]] * (tt[idx[j] + 1] - est[j]) + (d[idx[j] + 1] + Tau) * (est[j] - tt[idx[j]]) ==
      Tau * (tt[idx[j] + 1] - tt[idx[j]])
  {
    seq(|idx|, j requires 0 <= j < |idx| =>
      Interpolate(tt[idx[j]], tt[idx[j] + 1], d[idx[j]], d[idx[j] + 1]))
  }

  /** Over strictly increasing sample times, the first guesses of increasing
      brackets increase strictly: each event is reported once, in time order. */
  lemma FirstEstimatesIncreasing(tt: seq<real>, d: seq<real>, idx: seq<nat>, j: int, j': int)
    requires |tt| == |d| && Wrapped(d)
    requires forall j :: 0 <= j < |idx| ==> idx[j] + 1 < |d|
    requires forall j, j' :: 0 <= j < j' < |idx| ==> idx[j] < idx[j']
    requires forall i, i' :: 0 <= i < i' < |tt| ==> tt[i] < tt[i']
    requires 0 <= j < j' < |idx|
    ensures FirstEstimates(tt, d, idx)[j] < FirstEstimates(tt, d, idx)[j']
  {
    var est := FirstEstimates(tt, d, idx);
    var i, i' := idx[j], idx[j'];
    assert tt[i] < tt[i + 1] && tt[i'] < tt[i' + 1];
    assert est[j] <= tt[i + 1];
    if i + 1 < i' {
      assert tt[i + 1] < tt[i'];
    }
  }
}
