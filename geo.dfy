/** src/utils/geo.ts, `etaMinutes`: a travel time in whole minutes from a
    distance in metres and an average speed in km/h, rounded the way
    JavaScript's `Math.round` rounds and never below one minute. */
module Geo {

  /** The default average speed, in km/h. */
  const DefaultSpeedKmh: real := 15.0

  /** km/h as metres per minute. */
  function MetresPerMinute(speedKmh: real): real {
    speedKmh * 1000.0 / 60.0
  }

  /** `Math.round`: the nearest integer, halves rounded up. */
  function JsRound(x: real): int {
    (x + 0.5).Floor
  }

  /** `JsRound(x)` is the one integer within half a unit of `x`, ties going up. */
  lemma JsRoundNearest(x: real, n: int)
    ensures JsRound(x) == n <==> n as real - 0.5 <= x < n as real + 0.5
  {
  }

  /** `etaMinutes`; a zero speed, for which the source divides by zero, is excluded. */
  function EtaMinutes(distanceMetres: real, speedKmh: real): (minutes: int)
    requires speedKmh != 0.0
    ensures minutes >= 1
  {
    var rounded := JsRound(distanceMetres / MetresPerMinute(speedKmh));
    if rounded > 1 then rounded else 1
  }

  /** At the default speed a minute covers 250 metres. */
  lemma DefaultPace()
    ensures MetresPerMinute(DefaultSpeedKmh) == 250.0
  {
  }

  /** When the rounded time is at least one minute it is the result, and
      otherwise the result is one minute; in particular no distance gives 1
      minute. */
  lemma EtaIsRoundedTime(distanceMetres: real, speedKmh: real)
    requires speedKmh != 0.0
    ensures var rounded := JsRound(distanceMetres / MetresPerMinute(speedKmh));
            && (rounded >= 1 ==> EtaMinutes(distanceMetres, speedKmh) == rounded)
            && (rounded < 1 ==> EtaMinutes(distanceMetres, speedKmh) == 1)
    ensures EtaMinutes(0.0, speedKmh) == 1
  {
  }

  /** For a fixed positive speed, a longer distance never gives a shorter time. */
  lemma EtaMonotone(d1: real, d2: real, speedKmh: real)
    requires speedKmh > 0.0 && d1 <= d2
    ensures EtaMinutes(d1, speedKmh) <= EtaMinutes(d2, speedKmh)
  {
    var m := MetresPerMinute(speedKmh);
    assert d1 / m <= d2 / m by {
      assert d2 / m - d1 / m == (d2 - d1) / m;
    }
    FloorMonotone(d1 / m + 0.5, d2 / m + 0.5);
  }

  lemma FloorMonotone(x: real, y: real)
    requires x <= y
    ensures x.Floor <= y.Floor
  {
    assert x.Floor as real <= x;
  }
}
