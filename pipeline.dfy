/** The whole of data_merging.py:36-84: the published dataset it writes out,
    and the proof that the heat-map page can read it without a failed lookup. */
module Pipeline {
  import opened Dicts
  import opened Transit
  import opened Sections
  import opened JourneyCache
  import opened StopTable
  import opened LegTable
  import opened Nearby
  import opened Normaliser

  /** A stop of a walked section is in the published `stopList`. */
  lemma KeptSectionsListed(routeList: Dict<RouteId, RawRoute>, stopList: Dict<StopId, Stop>)
    requires RawValid(routeList) && RawListed(routeList, stopList)
    ensures Listed(stopList, KeptSections(routeList))
  {
    var secs := KeptSections(routeList);
    forall k | 0 <= k < |secs| ensures SectionListed(stopList, secs[k]) {
      var key := SectionSource(routeList, k);
    }
  }

  /** The `result` of lines 80-84, for a server `remote`, the rounding `round`
      of line 65 and the distance `dist` of line 75. */
  function Published(routeList: Dict<RouteId, RawRoute>, stopList: Dict<StopId, Stop>, remote: Remote, round: real -> real,
                     dist: Distance): Dataset
    requires RawValid(routeList) && RawListed(routeList, stopList)
  {
    var secs := KeptSections(routeList);
    KeptSectionsListed(routeList, stopList);
    AllStopsOk(stopList, secs);
    Dataset(WithNearby(AllStops(stopList, secs), dist), KeptRoutes(routeList, |routeList.keys|), AllLegs(remote, round, secs))
  }

  /** Operator `o`'s sequence of some kept route visits `s`. */
  ghost predicate Served(routeList: Dict<RouteId, RawRoute>, s: StopId, o: Operator) {
    exists key :: key in routeList.entries && Kept(routeList.entries[key])
      && o in routeList.entries[key].stops.entries && s in routeList.entries[key].stops.entries[o]
  }

  /** Some operator sequence of some kept route goes from `a` straight to `b`. */
  ghost predicate RouteLeg(routeList: Dict<RouteId, RawRoute>, a: StopId, b: StopId) {
    exists key, o :: key in routeList.entries && Kept(routeList.entries[key]) && o in routeList.entries[key].stops.entries
      && LegAt(routeList.entries[key].stops.entries[o], Legs(routeList.entries[key].stops.entries[o]), a, b)
  }

  lemma ServesServed(routeList: Dict<RouteId, RawRoute>, s: StopId, o: Operator)
    requires RawValid(routeList)
    ensures Serves(KeptSections(routeList), s, o) <==> Served(routeList, s, o)
  {
    var secs := KeptSections(routeList);
    if Serves(secs, s, o) {
      var k :| 0 <= k < |secs| && secs[k].co == o && s in secs[k].stops;
      var key := SectionSource(routeList, k);
    }
    if Served(routeList, s, o) {
      var key :| key in routeList.entries && Kept(routeList.entries[key])
        && o in routeList.entries[key].stops.entries && s in routeList.entries[key].stops.entries[o];
      var k := SectionOfRoute(routeList, key, o);
    }
  }

  /** The published stops are exactly those a kept route visits, each with
      its published name and location, and `co` lists exactly the operators
      whose sequences visit it, none twice. */
  lemma PublishedStop(routeList: Dict<RouteId, RawRoute>, stopList: Dict<StopId, Stop>, remote: Remote, round: real -> real,
                      dist: Distance, s: StopId, o: Operator)
    requires RawValid(routeList) && RawListed(routeList, stopList)
    ensures var ds := Published(routeList, stopList, remote, round, dist);
            s in ds.stopList.entries <==> exists op :: Served(routeList, s, op)
    ensures var ds := Published(routeList, stopList, remote, round, dist);
            s in ds.stopList.entries ==>
              && s in stopList.entries
              && ds.stopList.entries[s].name == stopList.entries[s].name
              && ds.stopList.entries[s].location == stopList.entries[s].location
              && Distinct(ds.stopList.entries[s].co)
              && (o in ds.stopList.entries[s].co <==> Served(routeList, s, o))
  {
    var ds := Published(routeList, stopList, remote, round, dist);
    var secs := KeptSections(routeList);
    KeptSectionsListed(routeList, stopList);
    AllStopsOk(stopList, secs);
    AllStopsKeys(stopList, secs, s);
    if Visits(secs, s) {
      var k :| 0 <= k < |secs| && s in secs[k].stops;
      assert Serves(secs, s, secs[k].co);
      ServesServed(routeList, s, secs[k].co);
    }
    if op :| Served(routeList, s, op) {
      ServesServed(routeList, s, op);
    }
    if s in ds.stopList.entries {
      AllStopsCo(stopList, secs, s, o);
      ServesServed(routeList, s, o);
    }
  }

  lemma HasLegRouteLeg(routeList: Dict<RouteId, RawRoute>, a: StopId, b: StopId)
    requires RawValid(routeList)
    ensures HasLeg(KeptSections(routeList), a, b) <==> RouteLeg(routeList, a, b)
  {
    var secs := KeptSections(routeList);
    if HasLeg(secs, a, b) {
      var k :| 0 <= k < |secs| && LegAt(secs[k].stops, Legs(secs[k].stops), a, b);
      var key := SectionSource(routeList, k);
      assert RouteLeg(routeList, a, b);
    }
    if RouteLeg(routeList, a, b) {
      var key, o :| key in routeList.entries && Kept(routeList.entries[key]) && o in routeList.entries[key].stops.entries
        && LegAt(routeList.entries[key].stops.entries[o], Legs(routeList.entries[key].stops.entries[o]), a, b);
      var k := SectionOfRoute(routeList, key, o);
      assert HasLeg(secs, a, b);
    }
  }

  /** A walked leg from `a` is a departure from `a`. */
  lemma HasLegDeparts(secs: seq<Section>, a: StopId, b: StopId)
    requires HasLeg(secs, a, b)
    ensures Departs(secs, a)
  {
    var k :| 0 <= k < |secs| && LegAt(secs[k].stops, Legs(secs[k].stops), a, b);
    var stops := secs[k].stops;
    var i :| 0 <= i < Legs(stops) && i + 1 < |stops| && stops[i] == a && stops[i + 1] == b;
    assert Among(stops, Legs(stops), a);
  }

  /** A leg is published exactly when a kept route has it and the server
      publishes a time for it, and its time is that time rounded. */
  lemma PublishedLeg(routeList: Dict<RouteId, RawRoute>, stopList: Dict<StopId, Stop>, remote: Remote, round: real -> real,
                     dist: Distance, a: StopId, b: StopId)
    requires RawValid(routeList) && RawListed(routeList, stopList)
    ensures var jt := Published(routeList, stopList, remote, round, dist).journeyTimes;
            a in jt && b in jt[a] <==> RouteLeg(routeList, a, b) && b in JourneyList(remote, a)
    ensures var jt := Published(routeList, stopList, remote, round, dist).journeyTimes;
            a in jt && b in jt[a] ==> jt[a][b] == round(JourneyList(remote, a)[b])
  {
    var secs := KeptSections(routeList);
    var jt := AllLegs(remote, round, secs);
    assert Published(routeList, stopList, remote, round, dist).journeyTimes == jt;
    AllLegsRoundedAt(remote, round, secs, a, b);
    HasLegRouteLeg(routeList, a, b);
    AllLegsKeys(remote, round, secs, a);
    if HasLeg(secs, a, b) {
      HasLegDeparts(secs, a, b);
    }
    if a in jt {
      AllLegsInner(remote, round, secs, a, b);
    }
  }

  /** Every stop of an operator sequence of a published route is published,
      and so is the journey-time entry of every stop but the last. */
  lemma RouteFits(routeList: Dict<RouteId, RawRoute>, stopList: Dict<StopId, Stop>, remote: Remote, round: real -> real,
                  dist: Distance, r: RouteId, op: Operator)
    requires RawValid(routeList) && RawListed(routeList, stopList)
    requires var ds := Published(routeList, stopList, remote, round, dist);
             r in ds.routeList.entries && op in ds.routeList.entries[r].stops.entries
    ensures var ds := Published(routeList, stopList, remote, round, dist);
            && LegsDefined(ds.journeyTimes, ds.routeList.entries[r].stops.entries[op])
            && forall s :: s in ds.routeList.entries[r].stops.entries[op] ==> s in ds.stopList.entries
  {
    var ds := Published(routeList, stopList, remote, round, dist);
    var secs := KeptSections(routeList);
    KeptSectionsListed(routeList, stopList);
    KeptRoutesExactly(routeList, r);
    var stops := routeList.entries[r].stops.entries[op];
    assert ds.routeList.entries[r].stops.entries[op] == stops;
    var k := SectionOfRoute(routeList, r, op);
    assert secs[k].stops == stops;
    forall idx | 0 <= idx < |stops| - 1 ensures stops[idx] in ds.journeyTimes {
      assert Among(stops, Legs(stops), stops[idx]);
      assert Departs(secs, stops[idx]);
      AllLegsKeys(remote, round, secs, stops[idx]);
    }
    forall s | s in stops ensures s in ds.stopList.entries {
      assert Visits(secs, s);
      AllStopsKeys(stopList, secs, s);
    }
  }

  /** Every `nearby` stop of a published stop is published. */
  lemma NearbyFits(routeList: Dict<RouteId, RawRoute>, stopList: Dict<StopId, Stop>, remote: Remote, round: real -> real,
                   dist: Distance, s: StopId, n: StopId)
    requires RawValid(routeList) && RawListed(routeList, stopList)
    requires var ds := Published(routeList, stopList, remote, round, dist);
             s in ds.stopList.entries && n in ds.stopList.entries[s].nearby
    ensures n in Published(routeList, stopList, remote, round, dist).stopList.entries
  {
    var secs := KeptSections(routeList);
    KeptSectionsListed(routeList, stopList);
    AllStopsOk(stopList, secs);
    NearbyExactly(AllStops(stopList, secs), dist, s, n);
  }

  /** The written dataset satisfies everything the page's propagation
      relies on. */
  lemma PublishedWellFormed(routeList: Dict<RouteId, RawRoute>, stopList: Dict<StopId, Stop>, remote: Remote, round: real -> real,
                            dist: Distance)
    requires RawValid(routeList) && RawListed(routeList, stopList)
    ensures WellFormed(Published(routeList, stopList, remote, round, dist))
  {
    var ds := Published(routeList, stopList, remote, round, dist);
    KeptRoutesExactly(routeList, "");
    forall r, op | r in ds.routeList.entries && op in ds.routeList.entries[r].stops.entries
      ensures && LegsDefined(ds.journeyTimes, ds.routeList.entries[r].stops.entries[op])
              && forall s :: s in ds.routeList.entries[r].stops.entries[op] ==> s in ds.stopList.entries
    {
      RouteFits(routeList, stopList, remote, round, dist, r, op);
    }
    forall s, n | s in ds.stopList.entries && n in ds.stopList.entries[s].nearby ensures n in ds.stopList.entries {
      NearbyFits(routeList, stopList, remote, round, dist, s, n);
    }
  }

  /** Lines 36-84 after the route and stop lists have been downloaded: the
      normalisation loop with a fresh cache, then the nearby loop. */
  method DataMerging(routeList: Dict<RouteId, RawRoute>, stopList: Dict<StopId, Stop>, remote: Remote, round: real -> real,
                     dist: Distance) returns (result: Dataset)
    requires RawValid(routeList) && RawListed(routeList, stopList)
    ensures result == Published(routeList, stopList, remote, round, dist)
    ensures WellFormed(result)
  {
    var cache := new JourneyTimeCache();
    var routes, stops, journeyTimes := Normalise(routeList, stopList, remote, round, cache);
    AllStopsOk(stopList, KeptSections(routeList));
    stops := AddNearby(stops, dist);
    result := Dataset(stops, routes, journeyTimes);
    PublishedWellFormed(routeList, stopList, remote, round, dist);
  }
}
