/**
 * The approximate rise/set search (`find_sunrise`): sample the interval
 * coarsely, find the samples that bracket a rising, interpolate a first
 * guess inside each bracket, then correct every guess twice by the gap
 * between the observed and the desired hour angle.
 *
 * The position pipeline (observer, target, apparent place, hour angle and
 * declination) is the function `observe` of a `Sky`, from a time in TT days
 * to the hour angle and declination in radians at that time.
 */
module Sunrise {
  import opened Geometry
  import opened Sampler
  import opened Bracketing

  /** Hour angle and declination of the target, in radians. */
  datatype HaDec = HaDec(ha: real, dec: real)

  /** The observer's latitude, the trigonometry, and the position lookup. */
  datatype Sky = Sky(trig: Trig, latitude: real, observe: real -> HaDec)

  /** The hour angle advances one full turn per day (the refiner's assumption). */
  const HaPerDay: real := Tau

  /** The horizon formula's denominator cos(lat) * cos(dec) is never zero:
      the observer is off the poles and the target never on a celestial pole. */
  ghost predicate OffPole(sky: Sky)
  {
    forall t :: Denominator(sky.trig, sky.latitude, sky.observe(t).dec) != 0.0
  }

  /** The horizon formula is defined at every time the target is looked up. */
  lemma OffPoleAt(sky: Sky, t: real)
    requires OffPole(sky)
    ensures Denominator(sky.trig, sky.latitude, sky.observe(t).dec) != 0.0
  {
  }

  /** The hour angle at which the target, with its declination at time t,
      would cross the horizon h on its way up. */
  function DesiredHourAngle(sky: Sky, h: real, t: real): (ha: real)
    requires OffPole(sky)
    ensures ha + SettingHourAngle(sky.trig, sky.latitude, sky.observe(t).dec, h) == 0.0
    ensures ArccosInvertsCos(sky.trig) ==> -Tau / 2.0 <= ha <= 0.0
  {
    RisingHourAngle(sky.trig, sky.latitude, sky.observe(t).dec, h)
  }

  /** At each sample, the phase from the target's ideal rising hour angle to
      its hour angle, before wrapping. */
  function Gaps(sky: Sky, h: real, tt: seq<real>): (g: seq<real>)
    requires OffPole(sky)
    ensures |g| == |tt|
    ensures forall k :: 0 <= k < |tt| ==>
      g[k] + DesiredHourAngle(sky, h, tt[k]) == sky.observe(tt[k]).ha
  {
    seq(|tt|, k requires 0 <= k < |tt| => sky.observe(tt[k]).ha - DesiredHourAngle(sky, h, tt[k]))
  }

  /** At each sample, the wrapped phase: how far, within one turn, the target
      has come since its last ideal rising. */
  function Differences(sky: Sky, h: real, tt: seq<real>): (d: seq<real>)
    requires OffPole(sky)
    ensures |d| == |tt| && Wrapped(d)
    ensures forall k :: 0 <= k < |tt| ==> d[k] == Wrap(Gaps(sky, h, tt)[k])
  {
    WrapAll(Gaps(sky, h, tt))
  }

  /** The first guesses: one interpolated time per bracket of the coarse samples. */
  function CoarseEstimates(sky: Sky, h: real, start: real, end: real): (est: seq<real>)
    requires OffPole(sky)
    ensures var tt := Samples(start, end);
      var d := Differences(sky, h, tt);
      var idx := Brackets(d);
      |est| == |idx| &&
      (forall j :: 0 <= j < |idx| ==> tt[idx[j]] < est[j] <= tt[idx[j] + 1]) &&
      forall j :: 0 <= j < |idx| ==>
        est[j] == Interpolate(tt[idx[j]], tt[idx[j] + 1], d[idx[j]], d[idx[j] + 1])
  {
    var tt := Samples(start, end);
    var d := Differences(sky, h, tt);
    var idx := Brackets(d);
    forall j | 0 <= j < |idx|
      ensures tt[idx[j]] < tt[idx[j] + 1]
    {
      SamplesIncreasing(start, end, idx[j], idx[j] + 1);
    }
    FirstEstimates(tt, d, idx)
  }

  /** Each first guess lies strictly after the first sample of its bracket and no
      later than the second, and the guesses increase strictly. */
  lemma CoarseEstimatesOrdered(sky: Sky, h: real, start: real, end: real)
    requires OffPole(sky)
    ensures var tt := Samples(start, end);
      var idx := Brackets(Differences(sky, h, tt));
      var est := CoarseEstimates(sky, h, start, end);
      |est| == |idx| &&
      (forall j :: 0 <= j < |idx| ==> tt[idx[j]] < est[j] <= tt[idx[j] + 1]) &&
      (forall j, j' :: 0 <= j < j' < |est| ==> est[j] < est[j'])
  {
    var tt := Samples(start, end);
    var d := Differences(sky, h, tt);
    var idx := Brackets(d);
    forall i, i' | 0 <= i < i' < |tt|
      ensures tt[i] < tt[i']
    {
      SamplesIncreasing(start, end, i, i');
    }
    forall j, j' | 0 <= j < j' < |idx|
      ensures FirstEstimates(tt, d, idx)[j] < FirstEstimates(tt, d, idx)[j']
    {
      FirstEstimatesIncreasing(tt, d, idx, j, j');
    }
  }

  /** The desired hour angle at every estimate. */
  function Desired(sky: Sky, h: real, ts: seq<real>): (r: seq<real>)
    requires OffPole(sky)
    ensures |r| == |ts|
    ensures forall k :: 0 <= k < |ts| ==> r[k] == DesiredHourAngle(sky, h, ts[k])
    ensures ArccosInvertsCos(sky.trig) ==> forall k :: 0 <= k < |ts| ==> -Tau / 2.0 <= r[k] <= 0.0
  {
    seq(|ts|, k requires 0 <= k < |ts| => DesiredHourAngle(sky, h, ts[k]))
  }

  /** One refinement pass: move every estimate by the hour-angle gap, converted
      to days at one turn per day. */
  function Pass(sky: Sky, h: real, ts: seq<real>): (r: seq<real>)
    requires OffPole(sky)
    ensures |r| == |ts|
    ensures forall k :: 0 <= k < |ts| ==>
      HaPerDay * (r[k] - ts[k]) == DesiredHourAngle(sky, h, ts[k]) - sky.observe(ts[k]).ha
  {
    var desired := Desired(sky, h, ts);
    seq(|ts|, k requires 0 <= k < |ts| => ts[k] + (desired[k] - sky.observe(ts[k]).ha) / HaPerDay)
  }

  /** The estimates after `passes` refinement passes. */
  function Refined(sky: Sky, h: real, ts: seq<real>, passes: nat): (r: seq<real>)
    requires OffPole(sky)
    ensures |r| == |ts|
    ensures Pass(sky, h, ts) == ts ==> r == ts
  {
    if passes == 0 then ts else Pass(sky, h, Refined(sky, h, ts, passes - 1))
  }

  /** The validity flag of each estimate: its desired hour angle is not zero. */
  function Flags(sky: Sky, h: real, ts: seq<real>): (r: seq<bool>)
    requires OffPole(sky)
    ensures |r| == |ts|
    ensures ArccosInvertsCos(sky.trig) ==> forall k :: 0 <= k < |ts| ==>
      Denominator(sky.trig, sky.latitude, sky.observe(ts[k]).dec) != 0.0 &&
      (!r[k] <==> HorizonRatio(sky.trig, sky.latitude, sky.observe(ts[k]).dec, h) >= 1.0)
  {
    var r := seq(|ts|, k requires 0 <= k < |ts| => Desired(sky, h, ts)[k] != 0.0);
    assert ArccosInvertsCos(sky.trig) ==> forall k :: 0 <= k < |ts| ==>
      Denominator(sky.trig, sky.latitude, sky.observe(ts[k]).dec) != 0.0 &&
      (!r[k] <==> HorizonRatio(sky.trig, sky.latitude, sky.observe(ts[k]).dec, h) >= 1.0) by {
      if ArccosInvertsCos(sky.trig) {
        forall k | 0 <= k < |ts|
          ensures Denominator(sky.trig, sky.latitude, sky.observe(ts[k]).dec) != 0.0 &&
            (!r[k] <==> HorizonRatio(sky.trig, sky.latitude, sky.observe(ts[k]).dec, h) >= 1.0)
        {
          OffPoleAt(sky, ts[k]);
          var want := Desired(sky, h, ts);
          assert want[k] == DesiredHourAngle(sky, h, ts[k]);
          assert r[k] == (want[k] != 0.0);
          FlagFalseIff(sky, h, ts[k]);
        }
      }
    }
    r
  }

  /** A pass leaves the estimates where they are exactly when each already has
      the hour angle it should have. */
  lemma PassFixedIff(sky: Sky, h: real, ts: seq<real>)
    requires OffPole(sky)
    ensures Pass(sky, h, ts) == ts <==>
      forall k :: 0 <= k < |ts| ==> sky.observe(ts[k]).ha == DesiredHourAngle(sky, h, ts[k])
  {
    var r := Pass(sky, h, ts);
    if r == ts {
      forall k | 0 <= k < |ts|
        ensures sky.observe(ts[k]).ha == DesiredHourAngle(sky, h, ts[k])
      {
        assert r[k] == ts[k];
      }
    }
  }

  /** Where the hour angle runs at exactly one turn per day and the declination
      stands still, one pass lands on the desired hour angle. */
  lemma PassExactWhenLinear(sky: Sky, h: real, t: real)
    requires OffPole(sky)
    requires forall u :: (sky.observe(u) ==
      HaDec(sky.observe(t).ha + HaPerDay * (u - t), sky.observe(t).dec))
    ensures var c := Pass(sky, h, [t])[0];
      sky.observe(c).ha == DesiredHourAngle(sky, h, c)
  {
    var c := Pass(sky, h, [t])[0];
    var gap := DesiredHourAngle(sky, h, t) - sky.observe(t).ha;
    assert c == t + gap / HaPerDay;
    assert sky.observe(c).dec == sky.observe(t).dec;
    assert HaPerDay * (c - t) == gap;
  }

  /** The flag of an estimate t is false exactly when the target never climbs
      to the horizon h at the declination seen at t: the ratio saturated at
      (or sat on) 1, so the clipped arccos returned 0. */
  lemma FlagFalseIff(sky: Sky, h: real, t: real)
    requires OffPole(sky) && ArccosInvertsCos(sky.trig)
    ensures DesiredHourAngle(sky, h, t) == 0.0 <==>
      HorizonRatio(sky.trig, sky.latitude, sky.observe(t).dec, h) >= 1.0
  {
    SettingHourAngleZeroIff(sky.trig, sky.latitude, sky.observe(t).dec, h);
  }

  /** The coarse scan: sample the interval, look up the target, wrap the phase
      differences in place, find the brackets and interpolate a first guess in each. */
  method CoarseScan(sky: Sky, h: real, start: real, end: real) returns (first: seq<real>)
    requires OffPole(sky)
    ensures first == CoarseEstimates(sky, h, start, end)
    ensures |first| == |Brackets(Differences(sky, h, Samples(start, end)))|
  {
    var tt := Samples(start, end);
    var n := |tt|;
    var observed := seq(n, k requires 0 <= k < n => sky.observe(tt[k]));
    var settingHa := seq(n, k requires 0 <= k < n =>
      OffPoleAt(sky, tt[k]);
      SettingHourAngle(sky.trig, sky.latitude, observed[k].dec, h));
    var risingRadians := seq(n, k requires 0 <= k < n => - settingHa[k]);

    var difference := new real[n];
    forall k | 0 <= k < n {
      difference[k] := observed[k].ha - risingRadians[k];
    }
    ghost var raw := difference[..];
    forall k | 0 <= k < n {
      difference[k] := Wrap(difference[k]);
    }
    var d := difference[..];
    ghost var gaps := Gaps(sky, h, tt);
    forall k | 0 <= k < n
      ensures raw[k] == gaps[k]
    {
      assert observed[k] == sky.observe(tt[k]);
    }
    assert raw == gaps;
    assert d == WrapAll(raw);

    var idx := Brackets(d);
    first := FirstEstimates(tt, d, idx);
  }

  /** The fixed two-pass refinement. Each pass looks the target up at every
      estimate and moves it by the hour-angle gap at one turn per day; the flags
      say whether the desired hour angle of the second pass, taken at the
      estimates before that pass moved them, is nonzero. */
  method Refine(sky: Sky, h: real, first: seq<real>) returns (times: seq<real>, aboveHorizon: seq<bool>)
    requires OffPole(sky)
    ensures times == Refined(sky, h, first, 2)
    ensures aboveHorizon == Flags(sky, h, Refined(sky, h, first, 1))
  {
    times := first;
    var desired: seq<real> := [];
    for pass := 0 to 2
      invariant times == Refined(sky, h, first, pass)
      invariant pass > 0 ==> desired == Desired(sky, h, Refined(sky, h, first, pass - 1))
    {
      var now := seq(|times|, k requires 0 <= k < |times| => sky.observe(times[k]));
      desired := seq(|times|, k requires 0 <= k < |times| =>
        OffPoleAt(sky, times[k]);
        - SettingHourAngle(sky.trig, sky.latitude, now[k].dec, h));
      var timebump := seq(|times|, k requires 0 <= k < |times| => (desired[k] - now[k].ha) / HaPerDay);
      var moved := seq(|times|, k requires 0 <= k < |times| => times[k] + timebump[k]);
      ghost var want := Desired(sky, h, times);
      forall k | 0 <= k < |times|
        ensures desired[k] == want[k]
      {
        assert now[k] == sky.observe(times[k]);
      }
      assert desired == want;
      ghost var passed := Pass(sky, h, times);
      forall k | 0 <= k < |times|
        ensures moved[k] == passed[k]
      {
        assert now[k] == sky.observe(times[k]);
      }
      times := moved;
    }
    aboveHorizon := seq(|desired|, k requires 0 <= k < |desired| => desired[k] != 0.0);
  }

  /** The search: convert the horizon to radians, scan coarsely, refine twice.
      One event per bracket, each with its flag. */
  method FindSunrise(sky: Sky, horizonDegrees: real, start: real, end: real)
    returns (times: seq<real>, aboveHorizon: seq<bool>)
    requires OffPole(sky)
    ensures var h := HorizonRadians(horizonDegrees);
      var first := CoarseEstimates(sky, h, start, end);
      times == Refined(sky, h, first, 2) &&
      aboveHorizon == Flags(sky, h, Refined(sky, h, first, 1))
    ensures |times| == |aboveHorizon| ==
      |Brackets(Differences(sky, HorizonRadians(horizonDegrees), Samples(start, end)))|
  {
    var h := HorizonRadians(horizonDegrees);
    var first := CoarseScan(sky, h, start, end);
    times, aboveHorizon := Refine(sky, h, first);
  }
}
