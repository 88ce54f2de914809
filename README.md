# Approximate rise/set search, modelled in Dafny

This project models `find_sunrise` and `_sunrise_hour_angle_radians` in
`design/sunrise.py`. They are a fast, approximate way to find the times at
which a target (the Sun, a planet) rises above a chosen altitude, as seen by
an observer.

The search works in five steps:

1. **Horizon-crossing formula.** Solve the altitude equation
   sin alt = sin lat · sin dec + cos lat · cos dec · cos HA for cos HA.
   Clip the ratio into [-1, 1] and take arccos. The result is the setting
   hour angle. The rising hour angle is its negation.
2. **Coarse sampler.** Take times from the start of the interval up to, but
   not including, its end, 0.8 day apart (numpy's `arange`).
3. **Wrapped phase and bracket detection.** At every sample, take the hour
   angle minus the ideal rising hour angle and reduce it modulo τ into
   [0, τ). The search takes a rising to lie between two consecutive samples
   where this wrapped phase drops.
4. **Linear interpolation.** Inside each bracket, the first guess is the
   weighted mean (b·t[i] + a·t[i+1]) / (a + b), with a = τ − d[i] and
   b = d[i+1].
5. **Two-pass refinement.** Twice, look the target up at every guess and
   move the guess by (desired hour angle − hour angle) / τ days, since the
   hour angle turns once per day. Each event is flagged by whether the
   desired hour angle of the last pass is nonzero.

Modules, one per component:

- `Geometry` (geometry.dfy): τ, the abstract trigonometry, the horizon ratio, the clip, the setting and rising hour angles.
- `Sampler` (sampler.dfy): the sample times.
- `Bracketing` (brackets.dfy): the wrap modulo τ, the bracket indices, the interpolation.
- `Sunrise` (sunrise.dfy): the position lookup, the coarse scan and the refinement as methods, and `FindSunrise`.

Times are single real counts of TT days. Angles are reals in radians.
sin, cos and arccos are functions held in a `Trig` value. The position
pipeline (observer, target, apparent place, hour angle and declination) is a
function `observe` from a time to an hour angle and a declination, held in a
`Sky` value. Lemmas that need arccos to behave like arccos take that as a
hypothesis (`ArccosInvertsCos`).

Two facts about the search that the model keeps as the code has them:

- `find_sunrise` does not reject an empty or reversed interval; `arange`
  then yields no samples and the model returns no events. What the position
  pipeline does with an empty time array is outside the model.
- The flag is `desired_ha != 0` for the second pass's `desired_ha`, which is
  taken at the estimates before that pass moves them.

## Model

| member | source | states |
|---|---|---|
| `Geometry.HorizonRadians` | design/sunrise.py:41 | the horizon in radians is the same fraction of τ as the degrees are of 360 |
| `Geometry.Numerator` | design/sunrise.py:27 | the numerator is what remains of sin alt once sin lat·sin dec is taken away |
| `Geometry.Denominator` | design/sunrise.py:28 | the denominator is zero exactly when cos lat or cos dec is zero (observer on a pole or body on a celestial pole) |
| `Geometry.HorizonRatio` | design/sunrise.py:6-10 | the ratio is the cos HA that solves sin lat·sin dec + cos lat·cos dec·cos HA = sin alt |
| `Geometry.ClipUnit` | design/sunrise.py:29 | the clipped ratio lies in [-1, 1], is the input when the input is already in [-1, 1], and saturates at 1 above and at -1 below |
| `Geometry.ClipUnitNearest` | design/sunrise.py:29 | the clipped value is the point of [-1, 1] nearest to the raw ratio |
| `Geometry.SettingHourAngle` | design/sunrise.py:16-30 | `_sunrise_hour_angle_radians`: where arccos behaves like arccos, the hour angle in [0, τ/2] whose cosine is the clipped ratio |
| `Geometry.HourAnglesInRange` | design/sunrise.py:16-30 | for every input off the poles, the setting hour angle lies in [0, τ/2] and the rising one in [−τ/2, 0], because the clip keeps the ratio inside arccos's domain |
| `Geometry.RisingHourAngle` | design/sunrise.py:54-55 | the rising hour angle is the exact negation of the setting hour angle |
| `Geometry.SettingHourAngleSolves` | design/sunrise.py:16-30 | when the raw ratio is in [-1, 1], the setting hour angle lies in [0, τ/2] and satisfies the altitude equation at the horizon altitude |
| `Geometry.SettingHourAngleZeroIff` | design/sunrise.py:27-30 | the setting hour angle is 0 exactly when the raw ratio is at least 1, i.e. the body never climbs to the horizon altitude |
| `Sampler.SampleCount` | design/sunrise.py:45 | arange's count: the last counted point is before the end and the next one would not be |
| `Sampler.Samples` | design/sunrise.py:43-45 | the samples start at the start time, step by exactly 0.8 day, all lie before the end time, stop only when the next would reach the end, and are empty exactly when end ≤ start |
| `Sampler.SamplesOnGrid` | design/sunrise.py:45 | sample k is the start time plus k steps |
| `Sampler.SamplesComplete` | design/sunrise.py:45 | every grid point start + k·0.8 before the end is sample k: none is missed |
| `Sampler.SamplesIncreasing` | design/sunrise.py:45 | sample times increase strictly with their position |
| `Bracketing.Wrap` | design/sunrise.py:59-60 | the wrapped difference lies in [0, τ) and differs from the raw difference by a whole number of turns |
| `Bracketing.WrapUnique` | design/sunrise.py:60 | any r in [0, τ) a whole number of turns from x is the wrapped value of x |
| `Bracketing.WrapTurns` | design/sunrise.py:60 | adding whole turns does not change the wrapped value |
| `Bracketing.WrapZeroIff` | design/sunrise.py:60 | the wrapped value is 0 exactly when the raw value is a whole number of turns |
| `Bracketing.WrapAll` | design/sunrise.py:60 | the in-place `%=` wraps every element and keeps the length |
| `Bracketing.BracketsFrom` | design/sunrise.py:62-65 | from index k on: exactly the indices i with d[i+1] < d[i], each i+1 a valid index, in strictly increasing order |
| `Bracketing.Brackets` | design/sunrise.py:65 | the bracket set is exactly { i : 0 ≤ i < n−1, d[i+1] < d[i] }, listed once each in increasing order |
| `Bracketing.NoDropNoBracket` | design/sunrise.py:62-65 | a wrapped phase with no drop from sample k to the last sample yields no bracket from k on |
| `Bracketing.RunKeepsLast` | design/sunrise.py:62-65 | a run of samples k..m whose phase keeps growing and then drops after m gives the bracket m and no other bracket in k..m: only the last sample of the run is kept, so its rising is reported once |
| `Bracketing.Interpolate` | design/sunrise.py:69-72 | with a = τ − d[i] > 0 and b = d[i+1] ≥ 0 the division is defined; the guess lies in (t[i], t[i+1]] and is where the phase, rising linearly from d[i] to d[i+1] + τ, reaches τ |
| `Bracketing.FirstEstimates` | design/sunrise.py:69-73 | one guess per bracket, each inside its bracket and each where the phase, rising linearly from d[i] at t[i] to d[i+1] + τ at t[i+1], reaches τ |
| `Bracketing.FirstEstimatesIncreasing` | design/sunrise.py:69-73 | over increasing sample times, guesses for increasing brackets increase strictly |
| `Sunrise.DesiredHourAngle` | design/sunrise.py:80 | the desired (rising) hour angle at a time is the negated setting hour angle for the declination at that time, and lies in [−τ/2, 0] where arccos behaves like arccos |
| `Sunrise.Gaps` | design/sunrise.py:59 | one raw difference per sample: added to the desired hour angle at that sample it gives the observed hour angle |
| `Sunrise.Differences` | design/sunrise.py:57-60 | one wrapped phase per sample, each in [0, τ) and the wrap of that sample's raw gap, so a whole number of turns away from it |
| `Sunrise.CoarseEstimates` | design/sunrise.py:43-73 | the first guesses: one per bracket of the sampled, wrapped differences, each in (t[i], t[i+1]] of its bracket and equal to the interpolation of that bracket's times and phases |
| `Sunrise.CoarseEstimatesOrdered` | design/sunrise.py:43-73 | there is one first guess per bracket, each in (t[i], t[i+1]] of its bracket, and the guesses increase strictly |
| `Sunrise.Desired` | design/sunrise.py:79-80 | one desired hour angle per estimate, at that estimate's declination, each in [−τ/2, 0] where arccos behaves like arccos |
| `Sunrise.Pass` | design/sunrise.py:79-83 | one pass keeps the number of estimates and moves each by a time that, at τ per day, covers exactly the gap from the observed to the desired hour angle |
| `Sunrise.Refined` | design/sunrise.py:77-83 | repeated passes keep the number of estimates, and estimates that a pass leaves fixed stay fixed for any number of passes |
| `Sunrise.Flags` | design/sunrise.py:85 | one flag per estimate; where arccos behaves like arccos, a flag is false exactly when the raw ratio at that estimate's declination is at least 1 |
| `Sunrise.PassFixedIff` | design/sunrise.py:77-83 | a refinement pass leaves the estimates unchanged exactly when each already has its desired hour angle |
| `Sunrise.PassExactWhenLinear` | design/sunrise.py:75-83 | if the hour angle turns exactly τ per day and the declination is fixed, one pass lands on the desired hour angle |
| `Sunrise.FlagFalseIff` | design/sunrise.py:80-85 | an event's flag is false exactly when the raw ratio at its declination is at least 1 |
| `Sunrise.CoarseScan` | design/sunrise.py:43-73 | samples, looks up, wraps the difference array in place, detects brackets and interpolates: the result is the specified first guesses, one per bracket |
| `Sunrise.Refine` | design/sunrise.py:75-86 | exactly two passes, each moving every estimate by (desired − ha)/τ days; the flags are `desired != 0` for the second pass's desired hour angles |
| `Sunrise.FindSunrise` | design/sunrise.py:38-86 | the returned times are the first guesses refined twice, with one time and one flag per bracket |

## Left out

- The position pipeline `observer.at(t).observe(target).apparent().hadec()` (lines 49 and 79) is a foreign ephemeris computation. It is the parameter `observe`; the distance it also returns is unused.
- sin, cos and arccos are abstract parameters. The model claims nothing about their values, except in lemmas that take `ArccosInvertsCos` as a hypothesis.
- Floating point is not modelled: rounding, the float that `%` can return equal to τ, and NaN or infinity. τ is the library's constant as an exact real.
- At a pole the denominator cos lat · cos dec is zero. numpy's division then gives ±inf, which the clip saturates to ±1 (hour angle 0 or half a turn), or NaN when the numerator is zero too, which propagates. Every member that evaluates the formula requires a nonzero denominator, so the model says nothing about either case. In the search, `OffPole` asks this at every time, not only at the sample and estimate times the search looks up; a target that reaches a celestial pole at some other time is excluded too.
- `fastify` (lines 35-36, called at 48 and 78) swaps in the cheaper IAU2000B nutation before the apparent-place computation. Its effect on the hour angle and declination is inside the abstract `observe`.
- The two-part time `ts.tt_jd(t.whole, t.tt_fraction + timebump)` (line 83) is one real day count.
- `main` (lines 90-175) loads ephemerides, times the run, compares with the almanac and prints or plots. It is I/O and an empirical harness.
- Accuracy is not modelled: nothing says the refined times agree with the true crossings or that two passes suffice, since that depends on the real ephemeris.
