/** The `nearby` lists (data_merging.py:69-77): for every stop of the
    normalised table, the other stops of the table within 0.3 km of it, in
    the table's key order. */
module Nearby {
  import opened Dicts
  import opened Transit
  import opened Sections

  /** Line 76. */
  const NearbyRadiusKm: real := 0.3

  predicate Near(dist: Distance, a: Location, b: Location) {
    dist(a.lat, a.lng, b.lat, b.lng) <= NearbyRadiusKm
  }

  /** The list line 77 builds for `s` after the first `j` stops of the table. */
  function NearbyUpTo(stops: Dict<StopId, Stop>, dist: Distance, s: StopId, j: nat): seq<StopId>
    requires Valid(stops) && s in stops.entries && j <= |stops.keys|
  {
    if j == 0 then []
    else
      var other := stops.keys[j - 1];
      NearbyUpTo(stops, dist, s, j - 1)
        + (if other != s && Near(dist, stops.entries[s].location, stops.entries[other].location) then [other] else [])
  }

  function NearbyOf(stops: Dict<StopId, Stop>, dist: Distance, s: StopId): seq<StopId>
    requires Valid(stops) && s in stops.entries
  {
    NearbyUpTo(stops, dist, s, |stops.keys|)
  }

  /** The table with every stop's `nearby` list replaced. */
  function WithNearby(stops: Dict<StopId, Stop>, dist: Distance): (d: Dict<StopId, Stop>)
    requires Valid(stops)
    ensures Valid(d) && d.keys == stops.keys && d.entries.Keys == stops.entries.Keys
    ensures forall s :: s in d.entries ==> d.entries[s] == stops.entries[s].(nearby := d.entries[s].nearby)
  {
    Dict(stops.keys, map s | s in stops.entries :: stops.entries[s].(nearby := NearbyOf(stops, dist, s)))
  }

  lemma {:induction false} NearbyUpToExactly(stops: Dict<StopId, Stop>, dist: Distance, s: StopId, j: nat, n: StopId)
    requires Valid(stops) && s in stops.entries && j <= |stops.keys|
    ensures n in NearbyUpTo(stops, dist, s, j) <==>
              Among(stops.keys, j, n) && n != s && n in stops.entries && Near(dist, stops.entries[s].location, stops.entries[n].location)
  {
    if j > 0 {
      NearbyUpToExactly(stops, dist, s, j - 1, n);
      AmongLast(stops.keys, j, n);
    }
  }

  /** `nearby` lists exactly the other stops of the table within the radius. */
  lemma NearbyExactly(stops: Dict<StopId, Stop>, dist: Distance, s: StopId, n: StopId)
    requires Valid(stops) && s in stops.entries
    ensures n in NearbyOf(stops, dist, s) <==>
              n in stops.entries && n != s && Near(dist, stops.entries[s].location, stops.entries[n].location)
  {
    NearbyUpToExactly(stops, dist, s, |stops.keys|, n);
    AmongAll(stops.keys, n);
  }

  lemma {:induction false} NearbyUpToDistinct(stops: Dict<StopId, Stop>, dist: Distance, s: StopId, j: nat)
    requires Valid(stops) && s in stops.entries && j <= |stops.keys|
    ensures Distinct(NearbyUpTo(stops, dist, s, j))
  {
    if j > 0 {
      var prev := NearbyUpTo(stops, dist, s, j - 1);
      var other := stops.keys[j - 1];
      NearbyUpToDistinct(stops, dist, s, j - 1);
      NearbyUpToExactly(stops, dist, s, j - 1, other);
      assert other !in prev;
      assert forall i :: 0 <= i < |prev| ==> (prev + [other])[i] == prev[i];
    }
  }

  /** No stop is listed twice. */
  lemma NearbyDistinct(stops: Dict<StopId, Stop>, dist: Distance, s: StopId)
    requires Valid(stops) && s in stops.entries
    ensures Distinct(NearbyOf(stops, dist, s))
  {
    NearbyUpToDistinct(stops, dist, s, |stops.keys|);
  }

  /** With a symmetric distance, `n` is near `s` exactly when `s` is near `n`. */
  lemma NearbySymmetric(stops: Dict<StopId, Stop>, dist: Distance, s: StopId, n: StopId)
    requires Valid(stops) && s in stops.entries && n in stops.entries
    requires forall a, b, c, d :: dist(a, b, c, d) == dist(c, d, a, b)
    ensures n in NearbyOf(stops, dist, s) <==> s in NearbyOf(stops, dist, n)
  {
    NearbyExactly(stops, dist, s, n);
    NearbyExactly(stops, dist, n, s);
    var p, q := stops.entries[s].location, stops.entries[n].location;
    assert dist(p.lat, p.lng, q.lat, q.lng) == dist(q.lat, q.lng, p.lat, p.lng);
  }

  /** Lines 73-77 for one stop. The other stops' locations are read from the
      table as it was before the loop at line 69: that loop changes only
      `nearby` lists, so the locations it reads are these. */
  method NearbyList(stops: Dict<StopId, Stop>, dist: Distance, stopId: StopId) returns (nearby: seq<StopId>)
    requires Valid(stops) && stopId in stops.entries
    ensures nearby == NearbyOf(stops, dist, stopId)
  {
    nearby := [];
    var location := stops.entries[stopId].location;
    var j := 0;
    while j < |stops.keys|
      invariant 0 <= j <= |stops.keys|
      invariant nearby == NearbyUpTo(stops, dist, stopId, j)
    {
      var otherStopId := stops.keys[j];
      if stopId != otherStopId {
        var other := stops.entries[otherStopId].location;
        var distance := dist(location.lat, location.lng, other.lat, other.lng);
        if distance <= NearbyRadiusKm {
          nearby := nearby + [otherStopId];
        }
      }
      j := j + 1;
    }
  }

  /** Lines 69-77: every stop of the table gets its `nearby` list. */
  method AddNearby(stops: Dict<StopId, Stop>, dist: Distance) returns (result: Dict<StopId, Stop>)
    requires Valid(stops)
    ensures result == WithNearby(stops, dist)
  {
    result := stops;
    var i := 0;
    while i < |stops.keys|
      invariant 0 <= i <= |stops.keys|
      invariant result.keys == stops.keys && result.entries.Keys == stops.entries.Keys
      invariant forall s :: s in result.entries ==>
                  result.entries[s] == stops.entries[s].(nearby := if Among(stops.keys, i, s) then NearbyOf(stops, dist, s) else stops.entries[s].nearby)
    {
      var stopId := stops.keys[i];
      var nearby := NearbyList(stops, dist, stopId);
      forall s | s in stops.entries
        ensures Among(stops.keys, i + 1, s) <==> Among(stops.keys, i, s) || s == stopId
      {
        AmongLast(stops.keys, i + 1, s);
      }
      result := Dict(result.keys, result.entries[stopId := result.entries[stopId].(nearby := nearby)]);
      i := i + 1;
    }
    AllUpdated(stops, dist, result);
  }

  lemma AllUpdated(stops: Dict<StopId, Stop>, dist: Distance, result: Dict<StopId, Stop>)
    requires Valid(stops)
    requires result.keys == stops.keys && result.entries.Keys == stops.entries.Keys
    requires forall s :: s in result.entries ==>
               result.entries[s] == stops.entries[s].(nearby := if Among(stops.keys, |stops.keys|, s) then NearbyOf(stops, dist, s) else stops.entries[s].nearby)
    ensures result == WithNearby(stops, dist)
  {
    forall s | s in stops.entries
      ensures result.entries[s] == WithNearby(stops, dist).entries[s]
    {
      AmongAll(stops.keys, s);
    }
  }
}
