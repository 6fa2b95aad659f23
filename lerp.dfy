/** Interpolation helpers used by the flight animation (src/lib/lerp.ts). The
    haversine distance and the atan2 part of the bearing are not part of this model;
    only the final normalisation of a bearing is. */
module Lerp {
  import opened Types
  import opened JsMath

  /** Linear interpolation between two values. */
  function Lerp(start: real, end: real, t: real): (r: real)
    ensures t == 0.0 ==> r == start
    ensures t == 1.0 ==> r == end
    ensures 0.0 <= t <= 1.0 ==> Min(start, end) <= r <= Max(start, end)
  {
    var step := (end - start) * t;
    ScaledWithin(end - start, t, step);
    start + step
  }

  /** A fraction t in [0, 1] of a signed distance d lies between 0 and d. */
  lemma ScaledWithin(d: real, t: real, p: real)
    requires p == d * t
    ensures 0.0 <= t <= 1.0 && d >= 0.0 ==> 0.0 <= p <= d
    ensures 0.0 <= t <= 1.0 && d < 0.0 ==> d <= p <= 0.0
  {
    if 0.0 <= t <= 1.0 {
      if d >= 0.0 {
        assert d * t <= d * 1.0;
      } else {
        assert d * 1.0 <= d * t;
      }
    }
  }

  /** Interpolates longitude and latitude independently with the same fraction. */
  function LerpCoord(start: Position, end: Position, t: real): (r: Position)
    ensures t == 0.0 ==> r == start
    ensures t == 1.0 ==> r == end
    ensures r.lon == Lerp(start.lon, end.lon, t) && r.lat == Lerp(start.lat, end.lat, t)
  {
    Position(Lerp(start.lon, end.lon, t), Lerp(start.lat, end.lat, t))
  }

  /** Smooth-step easing: 3t² − 2t³. */
  function Smoothstep(t: real): (r: real)
    ensures t == 0.0 ==> r == 0.0
    ensures t == 1.0 ==> r == 1.0
    ensures 0.0 <= t <= 1.0 ==> 0.0 <= r <= 1.0
  {
    SmoothstepBounds(t);
    t * t * (3.0 - 2.0 * t)
  }

  lemma SmoothstepBounds(t: real)
    ensures 0.0 <= t <= 1.0 ==> 0.0 <= t * t * (3.0 - 2.0 * t) <= 1.0
  {
    if 0.0 <= t <= 1.0 {
      var sq := t * t;
      assert 0.0 <= sq <= 1.0 by {
        assert t * t <= t * 1.0;
      }
      assert 1.0 <= 3.0 - 2.0 * t <= 3.0;
      assert 0.0 <= sq * (3.0 - 2.0 * t);
      // 1 − 3t² + 2t³ factors as (1 − t)²(1 + 2t), which is non-negative on [0, 1]
      var u := 1.0 - t;
      assert 0.0 <= u * u;
      assert 0.0 <= (u * u) * (1.0 + 2.0 * t);
      assert (u * u) * (1.0 + 2.0 * t) == 1.0 - sq * (3.0 - 2.0 * t);
    }
  }

  /** `Math.min(Math.max(value, min), max)`. */
  function Clamp(value: real, min: real, max: real): (r: real)
    ensures min <= max ==> min <= r <= max
    ensures min <= value <= max ==> r == value
    ensures value < min <= max ==> r == min
    ensures min <= max < value ==> r == max
  {
    Min(Max(value, min), max)
  }

  /** The last step of `calculateBearing`: `(bearing + 360) % 360`, where the raw
      bearing comes from atan2 in degrees and so lies in [−180, 180]. */
  function NormalizeBearing(raw: real): (r: real)
    ensures -180.0 <= raw <= 180.0 ==> 0.0 <= r < 360.0
    ensures -180.0 <= raw <= 180.0 ==> r == if raw < 0.0 then raw + 360.0 else raw
  {
    var x := raw + 360.0;
    assert -180.0 <= raw <= 180.0 ==> Trunc(x / 360.0) == if raw < 0.0 then 0 else 1;
    Rem(x, 360.0)
  }
}
