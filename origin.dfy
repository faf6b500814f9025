/** Choosing an origin (main.js:111-133 and main.js:245-279): the stops
    within walking distance of the dropped pin seed the first frontier with
    their walking times, and the heat map's points follow them. */
module Origin {
  import opened Dicts
  import opened Transit
  import opened Geo
  import opened Propagation

  /** One element of `stopsWithinRadius`. */
  datatype StopWithin = StopWithin(id: StopId, name: map<string, string>, location: Location, distance: real)

  /** Line 117: one of the stop's operators is an enabled mode. */
  predicate ServesMode(cfg: Config, stop: Stop) {
    exists i :: 0 <= i < |stop.co| && stop.co[i] in cfg.modes
  }

  /** The `i`-th stop of `stopList` when it is served by an enabled mode and
      within `radiusKm` of the target. */
  function WithinAt(stopList: Dict<StopId, Stop>, cfg: Config, dist: Distance, targetLat: real, targetLng: real,
                    radiusKm: real, i: nat): seq<StopWithin>
    requires Valid(stopList) && i < |stopList.keys|
  {
    var stopId := stopList.keys[i];
    var stop := stopList.entries[stopId];
    var distance := dist(targetLat, targetLng, stop.location.lat, stop.location.lng);
    if ServesMode(cfg, stop) && distance <= radiusKm then [StopWithin(stopId, stop.name, stop.location, distance)] else []
  }

  /** `stopsWithinRadius` after the first `i` stops. */
  function WithinUpTo(stopList: Dict<StopId, Stop>, cfg: Config, dist: Distance, targetLat: real, targetLng: real,
                      radiusKm: real, i: nat): seq<StopWithin>
    requires Valid(stopList) && i <= |stopList.keys|
  {
    if i == 0 then []
    else WithinUpTo(stopList, cfg, dist, targetLat, targetLng, radiusKm, i - 1)
         + WithinAt(stopList, cfg, dist, targetLat, targetLng, radiusKm, i - 1)
  }

  /** findStopsWithinRadius, over `stopList` in key order. */
  method FindStopsWithinRadius(stopList: Dict<StopId, Stop>, cfg: Config, dist: Distance,
                               targetLat: real, targetLng: real, radiusKm: real)
    returns (stopsWithinRadius: seq<StopWithin>)
    requires Valid(stopList)
    ensures stopsWithinRadius == WithinUpTo(stopList, cfg, dist, targetLat, targetLng, radiusKm, |stopList.keys|)
  {
    stopsWithinRadius := [];
    var i := 0;
    while i < |stopList.keys|
      invariant 0 <= i <= |stopList.keys|
      invariant stopsWithinRadius == WithinUpTo(stopList, cfg, dist, targetLat, targetLng, radiusKm, i)
    {
      var stopId := stopList.keys[i];
      var stop := stopList.entries[stopId];
      if ServesMode(cfg, stop) {
        var distance := dist(targetLat, targetLng, stop.location.lat, stop.location.lng);
        if distance <= radiusKm {
          stopsWithinRadius := stopsWithinRadius + [StopWithin(stopId, stop.name, stop.location, distance)];
        }
      }
      i := i + 1;
    }
  }

  /** Every stop found is an enabled stop within the radius, carrying its own
      name, location and distance. */
  lemma {:induction false} WithinUpToSound(stopList: Dict<StopId, Stop>, cfg: Config, dist: Distance,
                                           targetLat: real, targetLng: real, radiusKm: real, i: nat, w: StopWithin)
    requires Valid(stopList) && i <= |stopList.keys|
    requires w in WithinUpTo(stopList, cfg, dist, targetLat, targetLng, radiusKm, i)
    ensures w.id in stopList.keys[..i]
    ensures w.name == stopList.entries[w.id].name && w.location == stopList.entries[w.id].location
    ensures w.distance == dist(targetLat, targetLng, w.location.lat, w.location.lng) && w.distance <= radiusKm
    ensures ServesMode(cfg, stopList.entries[w.id])
  {
    var prev := WithinUpTo(stopList, cfg, dist, targetLat, targetLng, radiusKm, i - 1);
    assert WithinUpTo(stopList, cfg, dist, targetLat, targetLng, radiusKm, i)
        == prev + WithinAt(stopList, cfg, dist, targetLat, targetLng, radiusKm, i - 1);
    assert stopList.keys[..i] == stopList.keys[..i - 1] + [stopList.keys[i - 1]];
    if w in prev {
      WithinUpToSound(stopList, cfg, dist, targetLat, targetLng, radiusKm, i - 1, w);
    }
  }

  /** Every enabled stop within the radius is found. */
  lemma {:induction false} WithinUpToComplete(stopList: Dict<StopId, Stop>, cfg: Config, dist: Distance,
                                              targetLat: real, targetLng: real, radiusKm: real, i: nat, k: nat)
    requires Valid(stopList) && k < i <= |stopList.keys|
    requires ServesMode(cfg, stopList.entries[stopList.keys[k]])
    requires dist(targetLat, targetLng, stopList.entries[stopList.keys[k]].location.lat,
                  stopList.entries[stopList.keys[k]].location.lng) <= radiusKm
    ensures exists w :: w in WithinUpTo(stopList, cfg, dist, targetLat, targetLng, radiusKm, i) && w.id == stopList.keys[k]
  {
    var prev := WithinUpTo(stopList, cfg, dist, targetLat, targetLng, radiusKm, i - 1);
    var here := WithinAt(stopList, cfg, dist, targetLat, targetLng, radiusKm, i - 1);
    assert WithinUpTo(stopList, cfg, dist, targetLat, targetLng, radiusKm, i) == prev + here;
    if k < i - 1 {
      WithinUpToComplete(stopList, cfg, dist, targetLat, targetLng, radiusKm, i - 1, k);
    } else {
      assert here[0] in prev + here;
    }
  }

  /** No stop is found twice. */
  lemma {:induction false} WithinUpToDistinct(stopList: Dict<StopId, Stop>, cfg: Config, dist: Distance,
                                              targetLat: real, targetLng: real, radiusKm: real, i: nat)
    requires Valid(stopList) && i <= |stopList.keys|
    ensures forall a, b :: 0 <= a < b < |WithinUpTo(stopList, cfg, dist, targetLat, targetLng, radiusKm, i)| ==>
              WithinUpTo(stopList, cfg, dist, targetLat, targetLng, radiusKm, i)[a].id
              != WithinUpTo(stopList, cfg, dist, targetLat, targetLng, radiusKm, i)[b].id
  {
    if i > 0 {
      WithinUpToDistinct(stopList, cfg, dist, targetLat, targetLng, radiusKm, i - 1);
      var prev := WithinUpTo(stopList, cfg, dist, targetLat, targetLng, radiusKm, i - 1);
      var here := WithinAt(stopList, cfg, dist, targetLat, targetLng, radiusKm, i - 1);
      assert WithinUpTo(stopList, cfg, dist, targetLat, targetLng, radiusKm, i) == prev + here;
      forall w | w in prev
        ensures w.id != stopList.keys[i - 1]
      {
        WithinUpToSound(stopList, cfg, dist, targetLat, targetLng, radiusKm, i - 1, w);
        var k :| 0 <= k < i - 1 && stopList.keys[..i - 1][k] == w.id;
      }
    }
  }

  /** The journey-time points of the origin itself and of the stops within
      walking distance (lines 254-262, before the heat map's points). */
  function SeedPoints(cfg: Config, lat: real, lng: real, stops: seq<StopWithin>): (points: seq<HeatPoint>)
    requires cfg.walkingSpeedKmh > 0.0
    ensures |points| == |stops| + 1 && points[0] == HeatPoint(lat, lng, 0.0)
    ensures forall i :: 0 <= i < |stops| ==>
              points[i + 1] == HeatPoint(stops[i].location.lat, stops[i].location.lng, WalkTime(cfg, stops[i].distance))
  {
    if stops == [] then [HeatPoint(lat, lng, 0.0)]
    else
      var w := stops[|stops| - 1];
      SeedPoints(cfg, lat, lng, stops[..|stops| - 1]) + [HeatPoint(w.location.lat, w.location.lng, WalkTime(cfg, w.distance))]
  }

  /** `startStops` after the first `i` stops within walking distance. */
  function SeedFrontier(cfg: Config, stops: seq<StopWithin>, i: nat): Frontier
    requires cfg.walkingSpeedKmh > 0.0 && i <= |stops|
  {
    if i == 0 then map[]
    else SeedFrontier(cfg, stops, i - 1)[stops[i - 1].id := TimeState(WalkTime(cfg, stops[i - 1].distance), 0)]
  }

  /** The first frontier holds exactly the stops found, each with no
      interchange and the time of its last occurrence's walk (its only one,
      for the distinct ids `FindStopsWithinRadius` returns). */
  lemma {:induction false} SeedFrontierExactly(cfg: Config, stops: seq<StopWithin>, i: nat, s: StopId)
    requires cfg.walkingSpeedKmh > 0.0 && i <= |stops|
    ensures s in SeedFrontier(cfg, stops, i) <==> exists k :: 0 <= k < i && stops[k].id == s
    ensures s in SeedFrontier(cfg, stops, i) ==>
              exists k :: 0 <= k < i && stops[k].id == s
                && (forall kk :: k < kk < i ==> stops[kk].id != s)
                && SeedFrontier(cfg, stops, i)[s] == TimeState(WalkTime(cfg, stops[k].distance), 0)
  {
    if i > 0 {
      SeedFrontierExactly(cfg, stops, i - 1, s);
      var prev, w := SeedFrontier(cfg, stops, i - 1), stops[i - 1];
      assert SeedFrontier(cfg, stops, i) == prev[w.id := TimeState(WalkTime(cfg, w.distance), 0)];
      if w.id != s {
        if k :| 0 <= k < i && stops[k].id == s {
          assert k < i - 1;
        }
        if s in prev {
          var k :| 0 <= k < i - 1 && stops[k].id == s && (forall kk :: k < kk < i - 1 ==> stops[kk].id != s)
            && prev[s] == TimeState(WalkTime(cfg, stops[k].distance), 0);
          assert forall kk :: k < kk < i ==> stops[kk].id != s;
        }
      }
    }
  }

  /** Walking times are never negative, so neither is the first frontier. */
  lemma {:induction false} SeedFrontierNonNegative(cfg: Config, stops: seq<StopWithin>, i: nat)
    requires cfg.walkingSpeedKmh > 0.0 && i <= |stops|
    requires forall k :: 0 <= k < |stops| ==> stops[k].distance >= 0.0
    ensures NonNegativeFrontier(SeedFrontier(cfg, stops, i))
  {
    if i > 0 {
      SeedFrontierNonNegative(cfg, stops, i - 1);
    }
  }

  /** Lines 253-262. */
  method SeedOrigin(cfg: Config, lat: real, lng: real, stops: seq<StopWithin>)
    returns (journeyTimesData: seq<HeatPoint>, startStops: Frontier)
    requires cfg.walkingSpeedKmh > 0.0
    ensures journeyTimesData == SeedPoints(cfg, lat, lng, stops)
    ensures startStops == SeedFrontier(cfg, stops, |stops|)
  {
    journeyTimesData := [HeatPoint(lat, lng, 0.0)];
    startStops := map[];
    var i := 0;
    while i < |stops|
      invariant 0 <= i <= |stops|
      invariant journeyTimesData == SeedPoints(cfg, lat, lng, stops[..i])
      invariant startStops == SeedFrontier(cfg, stops, i)
    {
      var stop := stops[i];
      var walkTime := WalkTime(cfg, stop.distance);
      assert stops[..i + 1][..i] == stops[..i];
      journeyTimesData := journeyTimesData + [HeatPoint(stop.location.lat, stop.location.lng, walkTime)];
      startStops := startStops[stop.id := TimeState(walkTime, 0)];
      i := i + 1;
    }
    assert stops[..|stops|] == stops;
  }

  /** `order` lists every stop of `heat` once. */
  predicate IsOrder(order: seq<StopId>, heat: HeatMap) {
    && Distinct(order) && |order| == |heat.Keys|
    && (forall s :: s in heat ==> s in order)
    && (forall i :: 0 <= i < |order| ==> order[i] in heat)
  }

  /** `points[n..]` are the points of `heat` taken in the order `order`. */
  predicate ListedInOrder(points: seq<HeatPoint>, n: nat, heat: HeatMap, order: seq<StopId>) {
    && IsOrder(order, heat)
    && |points| == n + |order|
    && forall i :: 0 <= i < |order| ==> points[n + i] == heat[order[i]]
  }

  /** `points[n..]` lists the points of `heat`, each stop's once, in some order. */
  ghost predicate Enumerates(points: seq<HeatPoint>, n: nat, heat: HeatMap) {
    exists order :: ListedInOrder(points, n, heat, order)
  }

  /** Appending a heat map's values in an order of its keys enumerates it. */
  lemma OrderEnumerates(points: seq<HeatPoint>, n: nat, heat: HeatMap, order: seq<StopId>)
    requires IsOrder(order, heat)
    requires |points| == n + |order| && forall i :: 0 <= i < |order| ==> points[n + i] == heat[order[i]]
    ensures Enumerates(points, n, heat)
  {
    assert ListedInOrder(points, n, heat, order);
  }

  /** An enumeration has one point per stop, holds every stop's point, and
      holds nothing else. */
  lemma EnumeratesCovers(points: seq<HeatPoint>, n: nat, heat: HeatMap)
    requires Enumerates(points, n, heat)
    ensures |points| == n + |heat.Keys|
    ensures forall s :: s in heat ==> heat[s] in points[n..]
    ensures forall i :: n <= i < |points| ==> exists s :: s in heat && heat[s] == points[i]
  {
    var order :| ListedInOrder(points, n, heat, order);
    forall s | s in heat
      ensures heat[s] in points[n..]
    {
      var i :| 0 <= i < |order| && order[i] == s;
      assert points[n..][i] == heat[s];
    }
    forall i | n <= i < |points|
      ensures exists s :: s in heat && heat[s] == points[i]
    {
      assert heat[order[i - n]] == points[i];
    }
  }

  /** The stops of a heat map in the unspecified order that `Object.values`
      lists them in: every stop once. */
  method EnumerateStops(heat: HeatMap) returns (order: seq<StopId>)
    ensures IsOrder(order, heat)
  {
    order := [];
    var pending := heat.Keys;
    while pending != {}
      invariant pending <= heat.Keys
      invariant Distinct(order)
      invariant forall i :: 0 <= i < |order| ==> order[i] in heat && order[i] !in pending
      invariant forall s :: s in heat && s !in pending ==> s in order
      invariant |order| == |heat.Keys - pending|
      decreases pending
    {
      var stopId :| stopId in pending;
      assert heat.Keys - (pending - {stopId}) == (heat.Keys - pending) + {stopId};
      order := order + [stopId];
      pending := pending - {stopId};
    }
  }

  /** Lines 263-266: the points of `heat` appended in the order `order`. */
  method AppendValues(points0: seq<HeatPoint>, heat: HeatMap, order: seq<StopId>) returns (points: seq<HeatPoint>)
    requires IsOrder(order, heat)
    ensures |points| == |points0| + |order| && points[..|points0|] == points0
    ensures forall i :: 0 <= i < |order| ==> points[|points0| + i] == heat[order[i]]
    ensures Enumerates(points, |points0|, heat)
  {
    points := points0;
    var i := 0;
    while i < |order|
      invariant 0 <= i <= |order|
      invariant |points| == |points0| + i && points[..|points0|] == points0
      invariant forall k :: 0 <= k < i ==> points[|points0| + k] == heat[order[k]]
    {
      points := points + [heat[order[i]]];
      i := i + 1;
    }
    OrderEnumerates(points, |points0|, heat, order);
  }

  /** updateOrigin, without the map drawing: nothing happens without data or
      at latitude or longitude 0 (both falsy); otherwise the points are those
      of the origin, of the stops within walking distance and of the heat
      map their frontier leads to. */
  method UpdateOrigin(ds: Option<Dataset>, cfg: Config, dist: Distance, lat: real, lng: real)
    returns (journeyTimesData: Option<seq<HeatPoint>>)
    requires cfg.walkingSpeedKmh > 0.0
    requires ds.Some? ==> WellFormed(ds.value)
    ensures journeyTimesData.None? <==> ds.None? || lat == 0.0 || lng == 0.0
    ensures journeyTimesData.Some? ==>
              var stops := WithinUpTo(ds.value.stopList, cfg, dist, lat, lng, cfg.walkableDistance, |ds.value.stopList.keys|);
              var heat := Propagate(ds.value, cfg, SeedFrontier(cfg, stops, |stops|), {}).0;
              && Enumerates(journeyTimesData.value, |stops| + 1, heat)
              && journeyTimesData.value[..|stops| + 1] == SeedPoints(cfg, lat, lng, stops)
  {
    if ds.None? || lat == 0.0 || lng == 0.0 {
      return None;
    }
    var data := ds.value;
    var stops := FindStopsWithinRadius(data.stopList, cfg, dist, lat, lng, cfg.walkableDistance);
    var seed, startStops := SeedOrigin(cfg, lat, lng, stops);
    var heat, seenRoutes := GenerateHeatmapData(data, cfg, startStops, {});
    assert heat == Propagate(data, cfg, startStops, {}).0;
    var order := EnumerateStops(heat);
    var points := AppendValues(seed, heat, order);
    journeyTimesData := Some(points);
  }
}
