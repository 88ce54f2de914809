/**
 * Horizon-crossing geometry of the approximate rise/set search.
 *
 * A body at declination `dec`, seen from latitude `lat`, stands at altitude
 * `alt` when  sin alt = sin lat * sin dec + cos lat * cos dec * cos HA.
 * Solving for cos HA gives the ratio below; the search clips it into [-1, 1]
 * and takes arccos, so that a body that never reaches `alt` still yields an
 * hour angle (0 or half a turn) instead of an error.
 *
 * sin, cos and arccos are abstract: they are fields of `Trig`, and the model
 * claims nothing about their values except where a lemma asks for it.
 */
module Geometry {

  /** One full turn in radians, the float constant `tau` of the library, as a real. */
  const Tau: real := 6.283185307179586476925287

  /** The trigonometric functions the formula uses, left uninterpreted. */
  datatype Trig = Trig(sin: real -> real, cos: real -> real, arccos: real -> real)

  /** What the lemmas about the hour angle need to know of `arccos`: on [-1, 1]
      it lands in [0, Tau/2], inverts `cos`, and is zero only at 1. */
  ghost predicate ArccosInvertsCos(trig: Trig)
  {
    forall x :: -1.0 <= x <= 1.0 ==>
      0.0 <= trig.arccos(x) <= Tau / 2.0 &&
      trig.cos(trig.arccos(x)) == x &&
      (trig.arccos(x) == 0.0 <==> x == 1.0)
  }

  /** The horizon, given in degrees, as radians. */
  function HorizonRadians(degrees: real): (h: real)
    ensures h / Tau == degrees / 360.0
  {
    degrees / 360.0 * Tau
  }

  /** The part of sin alt that the hour-angle term of the altitude equation
      must supply once the term independent of the hour angle is taken away. */
  function Numerator(trig: Trig, lat: real, dec: real, alt: real): (n: real)
    ensures trig.sin(lat) * trig.sin(dec) + n == trig.sin(alt)
  {
    trig.sin(alt) - trig.sin(lat) * trig.sin(dec)
  }

  /** The coefficient of cos HA in the altitude equation; it vanishes exactly
      when the observer stands on a pole or the body sits on a celestial pole
      (cos lat or cos dec zero). */
  function Denominator(trig: Trig, lat: real, dec: real): (d: real)
    ensures d == 0.0 <==> trig.cos(lat) == 0.0 || trig.cos(dec) == 0.0
  {
    trig.cos(lat) * trig.cos(dec)
  }

  /** The cosine of the hour angle at which the body stands at altitude `alt`,
      before clipping: it solves the altitude equation for cos HA. */
  function HorizonRatio(trig: Trig, lat: real, dec: real, alt: real): (c: real)
    requires Denominator(trig, lat, dec) != 0.0
    ensures trig.sin(lat) * trig.sin(dec) + trig.cos(lat) * trig.cos(dec) * c == trig.sin(alt)
  {
    var n, d := Numerator(trig, lat, dec, alt), Denominator(trig, lat, dec);
    assert d * (n / d) == n;
    n / d
  }

  /** numpy's clip to [-1, 1]: the domain of arccos. */
  function ClipUnit(x: real): (r: real)
    ensures -1.0 <= r <= 1.0
    ensures -1.0 <= x <= 1.0 ==> r == x
    ensures x > 1.0 ==> r == 1.0
    ensures x < -1.0 ==> r == -1.0
  {
    if x < -1.0 then -1.0 else if x > 1.0 then 1.0 else x
  }

  /** Clipping picks the point of [-1, 1] nearest to its input. */
  lemma ClipUnitNearest(x: real, y: real)
    requires -1.0 <= y <= 1.0
    ensures Abs(ClipUnit(x) - x) <= Abs(y - x)
  {
  }

  function Abs(x: real): (r: real)
  {
    if x < 0.0 then -x else x
  }

  /** The positive hour angle at which the body sets below altitude `alt`:
      where arccos behaves like arccos, the angle in [0, Tau/2] whose cosine
      is the clipped ratio. */
  function SettingHourAngle(trig: Trig, lat: real, dec: real, alt: real): (ha: real)
    requires Denominator(trig, lat, dec) != 0.0
    ensures ArccosInvertsCos(trig) ==>
      0.0 <= ha <= Tau / 2.0 && trig.cos(ha) == ClipUnit(HorizonRatio(trig, lat, dec, alt))
  {
    trig.arccos(ClipUnit(HorizonRatio(trig, lat, dec, alt)))
  }

  /** By symmetry about the meridian, the body rises at the negated setting hour angle. */
  function RisingHourAngle(trig: Trig, lat: real, dec: real, alt: real): (ha: real)
    requires Denominator(trig, lat, dec) != 0.0
    ensures ha + SettingHourAngle(trig, lat, dec, alt) == 0.0
  {
    - SettingHourAngle(trig, lat, dec, alt)
  }

  /** Whatever the ratio, the clip keeps it inside the domain of arccos: the
      setting hour angle is positive and at most half a turn, and the rising
      hour angle lies in [-Tau/2, 0]. */
  lemma HourAnglesInRange(trig: Trig, lat: real, dec: real, alt: real)
    requires Denominator(trig, lat, dec) != 0.0
    requires ArccosInvertsCos(trig)
    ensures 0.0 <= SettingHourAngle(trig, lat, dec, alt) <= Tau / 2.0
    ensures -Tau / 2.0 <= RisingHourAngle(trig, lat, dec, alt) <= 0.0
  {
  }

  /** Whenever the body does reach altitude `alt`, the setting hour angle solves
      the altitude equation, and it lies in [0, Tau/2]. */
  lemma SettingHourAngleSolves(trig: Trig, lat: real, dec: real, alt: real)
    requires Denominator(trig, lat, dec) != 0.0
    requires ArccosInvertsCos(trig)
    requires -1.0 <= HorizonRatio(trig, lat, dec, alt) <= 1.0
    ensures var ha := SettingHourAngle(trig, lat, dec, alt);
      0.0 <= ha <= Tau / 2.0 &&
      trig.sin(lat) * trig.sin(dec) + trig.cos(lat) * trig.cos(dec) * trig.cos(ha) == trig.sin(alt)
  {
    var c := HorizonRatio(trig, lat, dec, alt);
    assert ClipUnit(c) == c;
    assert trig.cos(trig.arccos(c)) == c;
  }

  /** The setting hour angle is zero exactly when the clipped ratio saturated at
      (or sat exactly on) the upper bound 1, i.e. the body never climbs above `alt`. */
  lemma SettingHourAngleZeroIff(trig: Trig, lat: real, dec: real, alt: real)
    requires Denominator(trig, lat, dec) != 0.0
    requires ArccosInvertsCos(trig)
    ensures SettingHourAngle(trig, lat, dec, alt) == 0.0 <==> HorizonRatio(trig, lat, dec, alt) >= 1.0
  {
    var c := ClipUnit(HorizonRatio(trig, lat, dec, alt));
    assert trig.arccos(c) == 0.0 <==> c == 1.0;
  }
}
