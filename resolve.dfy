/** getMinTimeAt (main.js:281-302): the travel time shown for an arbitrary
    point of the map, from the nearest journey-time points plus the walk
    from each. */
module Resolve {
  import opened Transit
  import opened Geo

  /** The time to reach (lat, lng) through point `p`: `p`'s time plus the
      walk from `p`. */
  function ThroughTime(cfg: Config, dist: Distance, lat: real, lng: real, p: HeatPoint): real
    requires cfg.walkingSpeedKmh > 0.0
  {
    p.time + WalkTime(cfg, dist(lat, lng, p.lat, p.lng))
  }

  /** Lines 292-294: a point counts when (lat, lng) is within walking distance of
      it, or when the time through it still has a visible intensity. */
  predicate Accepted(cfg: Config, dist: Distance, lat: real, lng: real, p: HeatPoint)
    requires cfg.walkingSpeedKmh > 0.0 && cfg.intensityByTravelTimeMaxTime != 0.0
  {
    dist(lat, lng, p.lat, p.lng) <= cfg.walkableDistance || IntensityByTravelTime(cfg, ThroughTime(cfg, dist, lat, lng, p)) > 0.0
  }

  /** The `i`-th neighbour the tree returned names a point of `points` that
      counts (line 289 skips an index without a point). */
  predicate Candidate(cfg: Config, dist: Distance, points: seq<HeatPoint>, nearest: seq<int>, lat: real, lng: real, i: int)
    requires cfg.walkingSpeedKmh > 0.0 && cfg.intensityByTravelTimeMaxTime != 0.0
  {
    0 <= i < |nearest| && 0 <= nearest[i] < |points| && Accepted(cfg, dist, lat, lng, points[nearest[i]])
  }

  /** `tree` is the nearest-point index: `None` before any origin was
      chosen, otherwise the indices into `points` of the up to ten points
      nearest to (lat, lng) that the k-d tree returns. The result is the
      least time through a counting neighbour, or `None` when there is none. */
  method GetMinTimeAt(cfg: Config, dist: Distance, points: seq<HeatPoint>, tree: Option<seq<int>>, lat: real, lng: real)
    returns (time: Option<real>)
    requires cfg.walkingSpeedKmh > 0.0 && cfg.intensityByTravelTimeMaxTime != 0.0
    ensures tree.None? ==> time.None?
    ensures tree.Some? ==>
              (time.None? <==> forall i :: 0 <= i < |tree.value| ==> !Candidate(cfg, dist, points, tree.value, lat, lng, i))
    ensures time.Some? ==> tree.Some? && (exists i :: Candidate(cfg, dist, points, tree.value, lat, lng, i)
                                            && time.value == ThroughTime(cfg, dist, lat, lng, points[tree.value[i]]))
    ensures time.Some? ==> forall i :: Candidate(cfg, dist, points, tree.value, lat, lng, i) ==>
              time.value <= ThroughTime(cfg, dist, lat, lng, points[tree.value[i]])
  {
    if tree.None? {
      return None;
    }
    var nearest := tree.value;
    time := None;
    var j := 0;
    while j < |nearest|
      invariant 0 <= j <= |nearest|
      invariant time.None? <==> forall i :: 0 <= i < j ==> !Candidate(cfg, dist, points, nearest, lat, lng, i)
      invariant time.Some? ==> (exists i :: 0 <= i < j && Candidate(cfg, dist, points, nearest, lat, lng, i)
                                             && time.value == ThroughTime(cfg, dist, lat, lng, points[nearest[i]]))
      invariant time.Some? ==> forall i :: 0 <= i < j && Candidate(cfg, dist, points, nearest, lat, lng, i) ==>
                  time.value <= ThroughTime(cfg, dist, lat, lng, points[nearest[i]])
    {
      var index := nearest[j];
      if 0 <= index < |points| {
        var data := points[index];
        var distance := dist(lat, lng, data.lat, data.lng);
        var walkable := distance <= cfg.walkableDistance;
        var calculatedTime := data.time + WalkTime(cfg, distance);
        assert calculatedTime == ThroughTime(cfg, dist, lat, lng, points[nearest[j]]);
        assert Candidate(cfg, dist, points, nearest, lat, lng, j) <==> walkable || IntensityByTravelTime(cfg, calculatedTime) > 0.0;
        if walkable || IntensityByTravelTime(cfg, calculatedTime) > 0.0 {
          if time.None? || calculatedTime < time.value {
            time := Some(calculatedTime);
          }
        }
      }
      j := j + 1;
    }
  }

  /** Through a counting point the time is below the intensity horizon or
      the point is within walking distance. */
  lemma AcceptedMeans(cfg: Config, dist: Distance, lat: real, lng: real, p: HeatPoint)
    requires cfg.walkingSpeedKmh > 0.0 && cfg.intensityByTravelTimeMaxTime > 0.0
    ensures Accepted(cfg, dist, lat, lng, p) <==>
              dist(lat, lng, p.lat, p.lng) <= cfg.walkableDistance
              || ThroughTime(cfg, dist, lat, lng, p) < 60.0 * cfg.intensityByTravelTimeMaxTime
  {
  }
}
