/** The page's small arithmetic helpers (main.js:88-96, main.js:136-138). */
module Geo {
  import opened Transit

  /** calculateWalkTimeByDistance: seconds to walk `distance` km at the
      configured speed, i.e. the time at which the walker has covered it. */
  function WalkTime(cfg: Config, distance: real): (t: real)
    requires cfg.walkingSpeedKmh > 0.0
    ensures t * cfg.walkingSpeedKmh == distance * 3600.0
    ensures distance >= 0.0 ==> t >= 0.0
  {
    var walkingSpeedInKmPerSecond := cfg.walkingSpeedKmh / 3600.0;
    distance / walkingSpeedInKmPerSecond
  }

  /** Walking further never takes less time. */
  lemma WalkTimeMonotonic(cfg: Config, d1: real, d2: real)
    requires cfg.walkingSpeedKmh > 0.0
    requires d1 <= d2
    ensures WalkTime(cfg, d1) <= WalkTime(cfg, d2)
  {
    var t1, t2 := WalkTime(cfg, d1), WalkTime(cfg, d2);
    var v := cfg.walkingSpeedKmh;
    assert (t2 - t1) * v == (d2 - d1) * 3600.0;
    assert t2 - t1 == (d2 - d1) * 3600.0 / v;
  }

  /** calculateIntensityByDistance: 1 at the point itself, falling linearly
      to 0 at `maxDistance` and beyond. */
  function IntensityByDistance(distance: real, maxDistance: real): (r: real)
    requires distance >= maxDistance || maxDistance != 0.0
    ensures distance >= maxDistance ==> r == 0.0
    ensures maxDistance > 0.0 && 0.0 <= distance ==> 0.0 <= r <= 1.0
    ensures maxDistance > 0.0 ==> (r > 0.0 <==> distance < maxDistance)
    ensures distance < maxDistance ==> r * maxDistance == maxDistance - distance
  {
    if distance >= maxDistance then 0.0 else 1.0 - (distance / maxDistance)
  }

  /** calculateIntensityByTravelTime: 1 at time 0, falling linearly to 0 at
      `intensityByTravelTimeMaxTime` minutes, 0 afterwards. */
  function IntensityByTravelTime(cfg: Config, travelTime: real): (r: real)
    requires cfg.intensityByTravelTimeMaxTime != 0.0
    ensures r >= 0.0
    ensures cfg.intensityByTravelTimeMaxTime > 0.0 && travelTime >= 0.0 ==> r <= 1.0
    ensures cfg.intensityByTravelTimeMaxTime > 0.0 ==>
              (r > 0.0 <==> travelTime < 60.0 * cfg.intensityByTravelTimeMaxTime)
  {
    var m := cfg.intensityByTravelTimeMaxTime;
    var x := 1.0 - (travelTime / 60.0) / m;
    assert m > 0.0 ==> (x > 0.0 <==> travelTime < 60.0 * m) by {
      if m > 0.0 {
        assert (travelTime / 60.0) / m * (60.0 * m) == travelTime;
      }
    }
    if 0.0 >= x then 0.0 else x
  }
}
