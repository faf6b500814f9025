/** The normalisation loop (data_merging.py:44-67): keep the routes with
    stops, collect the stops they visit and the journey times of their legs. */
module Normaliser {
  import opened Dicts
  import opened Transit
  import opened Seqs
  import opened Sections
  import opened JourneyCache
  import opened StopTable
  import opened LegTable

  /** Every stop any route lists is in the published `stopList`; otherwise
      line 54 raises `KeyError`. */
  predicate RawListed(routeList: Dict<RouteId, RawRoute>, stopList: Dict<StopId, Stop>) {
    forall key, op, s ::
      (key in routeList.entries && op in routeList.entries[key].stops.entries && s in routeList.entries[key].stops.entries[op])
      ==> s in stopList.entries
  }

  /** Every stop `r` lists is in `stopList`. */
  predicate RouteListed(r: RawRoute, stopList: Dict<StopId, Stop>) {
    forall op, s :: op in r.stops.entries && s in r.stops.entries[op] ==> s in stopList.entries
  }

  /** The sections walked after route `i` are those before it and its own. */
  lemma ChunksStep(routeList: Dict<RouteId, RawRoute>, stopList: Dict<StopId, Stop>, i: nat)
    requires RawValid(routeList) && RawListed(routeList, stopList) && i < |routeList.keys|
    ensures Flatten(Chunks(routeList, i + 1)) == Flatten(Chunks(routeList, i)) + SectionsOf(routeList.entries[routeList.keys[i]])
    ensures RouteListed(routeList.entries[routeList.keys[i]], stopList)
  {
    var r := routeList.entries[routeList.keys[i]];
    FlattenAppend(Chunks(routeList, i), SectionsOf(r));
    assert Chunks(routeList, i + 1) == Chunks(routeList, i) + [SectionsOf(r)];
  }

  /** Walking one more section extends the tables by that section. */
  lemma AppendSection(stopList: Dict<StopId, Stop>, remote: Remote, round: real -> real, secs: seq<Section>, sec: Section)
    requires Listed(stopList, secs) && SectionListed(stopList, sec)
    ensures Listed(stopList, secs + [sec])
    ensures AllStops(stopList, secs + [sec]) == SectionStops(stopList, AllStops(stopList, secs), sec, |sec.stops|)
    ensures AllLegs(remote, round, secs + [sec]) == SectionLegs(remote, round, AllLegs(remote, round, secs), sec.stops, Legs(sec.stops))
  {
    var all := secs + [sec];
    assert all[..|all| - 1] == secs;
    forall k | 0 <= k < |all| ensures SectionListed(stopList, all[k]) {
      if k < |secs| {
        assert all[k] == secs[k];
      }
    }
  }

  /** Lines 52-57 for one operator's sequence. */
  method VisitStops(stopList: Dict<StopId, Stop>, table0: Dict<StopId, Stop>, sec: Section) returns (table: Dict<StopId, Stop>)
    requires SectionListed(stopList, sec)
    ensures table == SectionStops(stopList, table0, sec, |sec.stops|)
  {
    table := table0;
    var i := 0;
    while i < |sec.stops|
      invariant 0 <= i <= |sec.stops|
      invariant table == SectionStops(stopList, table0, sec, i)
    {
      var stop := sec.stops[i];
      if stop !in table.entries {
        table := Dict(table.keys + [stop], table.entries[stop := stopList.entries[stop].(co := [sec.co])]);
      } else if sec.co !in table.entries[stop].co {
        table := Dict(table.keys, table.entries[stop := table.entries[stop].(co := table.entries[stop].co + [sec.co])]);
      }
      i := i + 1;
    }
  }

  /** Lines 59-67 for the leg from `stops[index]` to `stops[index + 1]`. */
  method RecordLeg(remote: Remote, round: real -> real, cache: JourneyTimeCache, jt0: JourneyTimes, stops: seq<StopId>, index: nat)
    returns (jt: JourneyTimes)
    requires index + 1 < |stops| && cache.Consistent(remote)
    modifies cache
    ensures cache.Consistent(remote) && Keeps(old(cache.buckets), cache.buckets)
    ensures cache.buckets == Cached(old(cache.buckets), remote, stops[index])
    ensures jt == AddLeg(remote, round, jt0, stops, index)
  {
    var stop, nextStop := stops[index], stops[index + 1];
    jt := jt0;
    if stop !in jt {
      jt := jt[stop := map[]];
    }
    var journeyTime := jt[stop];
    var journeyTimeList := cache.Fetch(stop, remote);
    if nextStop in journeyTimeList {
      var time := round(journeyTimeList[nextStop]);
      if nextStop !in journeyTime || journeyTime[nextStop] > time {
        jt := jt[stop := journeyTime[nextStop := time]];
      }
    }
  }

  /** Lines 58-67 for one operator's sequence. */
  method RecordLegs(remote: Remote, round: real -> real, cache: JourneyTimeCache, jt0: JourneyTimes, stops: seq<StopId>)
    returns (jt: JourneyTimes)
    requires cache.Consistent(remote)
    modifies cache
    ensures cache.Consistent(remote) && Keeps(old(cache.buckets), cache.buckets)
    ensures jt == SectionLegs(remote, round, jt0, stops, Legs(stops))
  {
    jt := jt0;
    ghost var initial := cache.buckets;
    var index := 0;
    while index < Legs(stops)
      invariant 0 <= index <= Legs(stops)
      invariant cache.Consistent(remote) && Keeps(initial, cache.buckets)
      invariant jt == SectionLegs(remote, round, jt0, stops, index)
    {
      ghost var prev, before := jt, cache.buckets;
      jt := RecordLeg(remote, round, cache, jt, stops, index);
      KeepsTransitive(initial, before, cache.buckets);
      assert jt == SectionLegs(remote, round, jt0, stops, index + 1) by {
        assert SectionLegs(remote, round, jt0, stops, index + 1) == AddLeg(remote, round, prev, stops, index);
      }
      index := index + 1;
    }
  }

  /** Lines 52-67 for one operator's sequence `sec`, after the sections `walked`. */
  method WalkSection(stopList: Dict<StopId, Stop>, remote: Remote, round: real -> real, cache: JourneyTimeCache,
                     ghost walked: seq<Section>, sec: Section, stops0: Dict<StopId, Stop>, jt0: JourneyTimes)
    returns (stops: Dict<StopId, Stop>, journeyTimes: JourneyTimes)
    requires Listed(stopList, walked) && SectionListed(stopList, sec) && cache.Consistent(remote)
    requires stops0 == AllStops(stopList, walked) && jt0 == AllLegs(remote, round, walked)
    modifies cache
    ensures cache.Consistent(remote) && Keeps(old(cache.buckets), cache.buckets)
    ensures Listed(stopList, walked + [sec])
    ensures stops == AllStops(stopList, walked + [sec]) && journeyTimes == AllLegs(remote, round, walked + [sec])
  {
    AppendSection(stopList, remote, round, walked, sec);
    stops := VisitStops(stopList, stops0, sec);
    journeyTimes := RecordLegs(remote, round, cache, jt0, sec.stops);
  }

  /** Lines 51-67 for one kept route, after the sections `walked`. */
  method WalkRoute(stopList: Dict<StopId, Stop>, remote: Remote, round: real -> real, cache: JourneyTimeCache,
                   routeData: RawRoute, ghost walked: seq<Section>, stops0: Dict<StopId, Stop>, jt0: JourneyTimes)
    returns (stops: Dict<StopId, Stop>, journeyTimes: JourneyTimes)
    requires Valid(routeData.stops) && Listed(stopList, walked) && cache.Consistent(remote)
    requires RouteListed(routeData, stopList)
    requires stops0 == AllStops(stopList, walked) && jt0 == AllLegs(remote, round, walked)
    modifies cache
    ensures cache.Consistent(remote) && Keeps(old(cache.buckets), cache.buckets)
    ensures Listed(stopList, walked + RouteSections(routeData, |routeData.stops.keys|))
    ensures stops == AllStops(stopList, walked + RouteSections(routeData, |routeData.stops.keys|))
    ensures journeyTimes == AllLegs(remote, round, walked + RouteSections(routeData, |routeData.stops.keys|))
  {
    stops, journeyTimes := stops0, jt0;
    ghost var secs := walked;
    assert walked + RouteSections(routeData, 0) == secs;
    var j := 0;
    while j < |routeData.stops.keys|
      invariant 0 <= j <= |routeData.stops.keys|
      invariant cache.Consistent(remote) && Keeps(old(cache.buckets), cache.buckets)
      invariant secs == walked + RouteSections(routeData, j) && Listed(stopList, secs)
      invariant stops == AllStops(stopList, secs)
      invariant journeyTimes == AllLegs(remote, round, secs)
    {
      var co := routeData.stops.keys[j];
      var sec := Section(co, routeData.stops.entries[co]);
      assert SectionListed(stopList, sec) by {
        assert forall s :: s in sec.stops ==> s in routeData.stops.entries[co];
      }
      ghost var before := cache.buckets;
      stops, journeyTimes := WalkSection(stopList, remote, round, cache, secs, sec, stops, journeyTimes);
      KeepsTransitive(old(cache.buckets), before, cache.buckets);
      assert walked + RouteSections(routeData, j + 1) == secs + [sec] by {
        assert RouteSections(routeData, j + 1) == RouteSections(routeData, j) + [sec];
      }
      secs := secs + [sec];
      j := j + 1;
    }
  }

  /** The four tables after the first `i` routes of `routeList`. */
  predicate NormalisedUpTo(routeList: Dict<RouteId, RawRoute>, stopList: Dict<StopId, Stop>, remote: Remote, round: real -> real,
                           i: nat, routes: Dict<RouteId, Route>, stops: Dict<StopId, Stop>, journeyTimes: JourneyTimes)
    requires RawValid(routeList) && i <= |routeList.keys|
  {
    var walked := Flatten(Chunks(routeList, i));
    && Listed(stopList, walked)
    && routes == KeptRoutes(routeList, i)
    && stops == AllStops(stopList, walked)
    && journeyTimes == AllLegs(remote, round, walked)
  }

  /** Lines 45-67 for the `i`-th route of `routeList`. */
  method AddRoute(routeList: Dict<RouteId, RawRoute>, stopList: Dict<StopId, Stop>, remote: Remote, round: real -> real,
                  cache: JourneyTimeCache, i: nat, routes0: Dict<RouteId, Route>, stops0: Dict<StopId, Stop>, jt0: JourneyTimes)
    returns (routes: Dict<RouteId, Route>, stops: Dict<StopId, Stop>, journeyTimes: JourneyTimes)
    requires RawValid(routeList) && RawListed(routeList, stopList) && cache.Consistent(remote) && i < |routeList.keys|
    requires NormalisedUpTo(routeList, stopList, remote, round, i, routes0, stops0, jt0)
    modifies cache
    ensures cache.Consistent(remote) && Keeps(old(cache.buckets), cache.buckets)
    ensures NormalisedUpTo(routeList, stopList, remote, round, i + 1, routes, stops, journeyTimes)
  {
    var routeKey := routeList.keys[i];
    var routeData := routeList.entries[routeKey];
    ghost var walked := Flatten(Chunks(routeList, i));
    ChunksStep(routeList, stopList, i);
    routes, stops, journeyTimes := routes0, stops0, jt0;
    if Kept(routeData) {
      routes := Put(routes, routeKey, Normalised(routeData));
      stops, journeyTimes := WalkRoute(stopList, remote, round, cache, routeData, walked, stops, journeyTimes);
    } else {
      assert walked + SectionsOf(routeData) == walked;
    }
  }

  /** Lines 44-67. `round` is the rounding to two decimals of line 65. */
  method Normalise(routeList: Dict<RouteId, RawRoute>, stopList: Dict<StopId, Stop>, remote: Remote, round: real -> real,
                   cache: JourneyTimeCache)
    returns (routes: Dict<RouteId, Route>, stops: Dict<StopId, Stop>, journeyTimes: JourneyTimes)
    requires RawValid(routeList) && RawListed(routeList, stopList) && cache.Consistent(remote)
    modifies cache
    ensures cache.Consistent(remote) && Keeps(old(cache.buckets), cache.buckets)
    ensures Listed(stopList, KeptSections(routeList))
    ensures routes == KeptRoutes(routeList, |routeList.keys|)
    ensures stops == AllStops(stopList, KeptSections(routeList))
    ensures journeyTimes == AllLegs(remote, round, KeptSections(routeList))
  {
    routes, stops, journeyTimes := Empty(), Empty(), map[];
    ghost var initial := cache.buckets;
    assert Flatten(Chunks(routeList, 0)) == [];
    var i := 0;
    while i < |routeList.keys|
      invariant 0 <= i <= |routeList.keys|
      invariant NormalisedUpTo(routeList, stopList, remote, round, i, routes, stops, journeyTimes)
      invariant cache.Consistent(remote)
      invariant Keeps(initial, cache.buckets)
    {
      ghost var before := cache.buckets;
      routes, stops, journeyTimes := AddRoute(routeList, stopList, remote, round, cache, i, routes, stops, journeyTimes);
      KeepsTransitive(initial, before, cache.buckets);
      i := i + 1;
    }
  }
}
