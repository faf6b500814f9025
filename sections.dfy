/** The routes the normaliser keeps (data_merging.py:44-50) and the
    operator sequences it walks, in the order it walks them (line 51). */
module Sections {
  import opened Dicts
  import opened Transit
  import opened Seqs

  /** One entry of the published `routeList` as the normaliser reads it:
      `extra` stands for the fields it drops (bound, service type, fares …). */
  datatype RawRoute = RawRoute(route: string, co: seq<Operator>, stops: Dict<Operator, seq<StopId>>, extra: map<string, string>)

  /** A parsed JSON object lists each key once. */
  predicate RawValid(routeList: Dict<RouteId, RawRoute>) {
    && Valid(routeList)
    && forall key :: key in routeList.entries ==> Valid(routeList.entries[key].stops)
  }

  /** Line 45: the route has at least one operator and some operator's
      sequence is not empty. */
  predicate Kept(r: RawRoute) {
    && |r.stops.keys| > 0
    && exists j :: 0 <= j < |r.stops.keys| && r.stops.keys[j] in r.stops.entries && |r.stops.entries[r.stops.keys[j]]| > 0
  }

  lemma KeptMeans(r: RawRoute)
    requires Valid(r.stops)
    ensures Kept(r) <==> exists op :: op in r.stops.entries && r.stops.entries[op] != []
  {
    if op :| op in r.stops.entries && r.stops.entries[op] != [] {
      var j :| 0 <= j < |r.stops.keys| && r.stops.keys[j] == op;
      assert |r.stops.entries[r.stops.keys[j]]| > 0;
    }
  }

  /** `s` is one of the first `m` elements of `stops`. */
  ghost predicate Among(stops: seq<string>, m: nat, s: string) {
    exists i :: 0 <= i < m && i < |stops| && stops[i] == s
  }

  lemma AmongLast(stops: seq<string>, m: nat, s: string)
    requires 0 < m <= |stops|
    ensures Among(stops, m, s) <==> Among(stops, m - 1, s) || stops[m - 1] == s
  {
    if Among(stops, m, s) && !Among(stops, m - 1, s) {
      var i :| 0 <= i < m && i < |stops| && stops[i] == s;
      assert i == m - 1;
    }
    if Among(stops, m - 1, s) {
      var i :| 0 <= i < m - 1 && i < |stops| && stops[i] == s;
      assert Among(stops, m, s);
    }
  }

  lemma AmongAll(stops: seq<string>, s: string)
    ensures Among(stops, |stops|, s) <==> s in stops
  {
    if s in stops {
      var i :| 0 <= i < |stops| && stops[i] == s;
    }
  }

  /** Lines 46-50: the route as it is written out. */
  function Normalised(r: RawRoute): Route {
    Route(r.route, r.co, r.stops)
  }

  /** `normalized_route_list` after the first `i` routes. */
  function KeptRoutes(routeList: Dict<RouteId, RawRoute>, i: nat): Dict<RouteId, Route>
    requires Valid(routeList) && i <= |routeList.keys|
  {
    if i == 0 then Empty()
    else
      var key := routeList.keys[i - 1];
      var prev := KeptRoutes(routeList, i - 1);
      if Kept(routeList.entries[key]) then Put(prev, key, Normalised(routeList.entries[key])) else prev
  }

  lemma {:induction false} KeptRoutesUpTo(routeList: Dict<RouteId, RawRoute>, i: nat, key: RouteId)
    requires Valid(routeList) && i <= |routeList.keys|
    ensures Valid(KeptRoutes(routeList, i))
    ensures key in KeptRoutes(routeList, i).entries <==> Among(routeList.keys, i, key) && Kept(routeList.entries[key])
    ensures key in KeptRoutes(routeList, i).entries ==> KeptRoutes(routeList, i).entries[key] == Normalised(routeList.entries[key])
  {
    if i > 0 {
      KeptRoutesUpTo(routeList, i - 1, key);
      AmongLast(routeList.keys, i, key);
    }
  }

  /** The normalised route list is a valid dictionary holding exactly the
      kept routes, each unchanged apart from the dropped fields. */
  lemma KeptRoutesExactly(routeList: Dict<RouteId, RawRoute>, key: RouteId)
    requires Valid(routeList)
    ensures Valid(KeptRoutes(routeList, |routeList.keys|))
    ensures key in KeptRoutes(routeList, |routeList.keys|).entries <==> key in routeList.entries && Kept(routeList.entries[key])
    ensures key in KeptRoutes(routeList, |routeList.keys|).entries ==>
              KeptRoutes(routeList, |routeList.keys|).entries[key] == Normalised(routeList.entries[key])
  {
    KeptRoutesUpTo(routeList, |routeList.keys|, key);
    AmongAll(routeList.keys, key);
  }

  /** One `(co, stops)` pair of a kept route. */
  datatype Section = Section(co: Operator, stops: seq<StopId>)

  /** The first `j` operator sequences of `r`, in key order. */
  function RouteSections(r: RawRoute, j: nat): (secs: seq<Section>)
    requires Valid(r.stops) && j <= |r.stops.keys|
    ensures |secs| == j

  {
    if j == 0 then []
    else RouteSections(r, j - 1) + [Section(r.stops.keys[j - 1], r.stops.entries[r.stops.keys[j - 1]])]
  }

  /** Section `t` of a route is its `t`-th operator and that operator's sequence. */
  lemma {:induction false} RouteSectionsAt(r: RawRoute, j: nat, t: nat)
    requires Valid(r.stops) && t < j <= |r.stops.keys|
    ensures RouteSections(r, j)[t] == Section(r.stops.keys[t], r.stops.entries[r.stops.keys[t]])
  {
    if t < j - 1 {
      RouteSectionsAt(r, j - 1, t);
    }
  }

  /** The sections of a route, empty unless it is kept. */
  function SectionsOf(r: RawRoute): seq<Section>
    requires Valid(r.stops)
  {
    if Kept(r) then RouteSections(r, |r.stops.keys|) else []
  }

  /** The sections of each of the first `i` routes, in key order. */
  function Chunks(routeList: Dict<RouteId, RawRoute>, i: nat): (chunks: seq<seq<Section>>)
    requires RawValid(routeList) && i <= |routeList.keys|
    ensures |chunks| == i
    ensures forall t :: 0 <= t < i ==> chunks[t] == SectionsOf(routeList.entries[routeList.keys[t]])
  {
    if i == 0 then [] else Chunks(routeList, i - 1) + [SectionsOf(routeList.entries[routeList.keys[i - 1]])]
  }

  /** The sections the loop at lines 51-67 walks, in the order it walks them. */
  function KeptSections(routeList: Dict<RouteId, RawRoute>): seq<Section>
    requires RawValid(routeList)
  {
    Flatten(Chunks(routeList, |routeList.keys|))
  }

  /** Every operator sequence of a kept route is walked. */
  lemma SectionOfRoute(routeList: Dict<RouteId, RawRoute>, key: RouteId, op: Operator) returns (k: nat)
    requires RawValid(routeList) && key in routeList.entries && Kept(routeList.entries[key])
    requires op in routeList.entries[key].stops.entries
    ensures k < |KeptSections(routeList)|
    ensures KeptSections(routeList)[k] == Section(op, routeList.entries[key].stops.entries[op])
  {
    var r := routeList.entries[key];
    var chunks := Chunks(routeList, |routeList.keys|);
    var i :| 0 <= i < |routeList.keys| && routeList.keys[i] == key;
    var j :| 0 <= j < |r.stops.keys| && r.stops.keys[j] == op;
    assert chunks[i] == RouteSections(r, |r.stops.keys|);
    RouteSectionsAt(r, |r.stops.keys|, j);
    k := FlattenIncludes(chunks, i, j);
  }

  /** Every walked section is an operator sequence of a kept route. */
  lemma SectionSource(routeList: Dict<RouteId, RawRoute>, k: nat) returns (key: RouteId)
    requires RawValid(routeList) && k < |KeptSections(routeList)|
    ensures key in routeList.entries && Kept(routeList.entries[key])
    ensures KeptSections(routeList)[k].co in routeList.entries[key].stops.entries
    ensures KeptSections(routeList)[k].stops == routeList.entries[key].stops.entries[KeptSections(routeList)[k].co]
  {
    var chunks := Chunks(routeList, |routeList.keys|);
    var c, j := FlattenSource(chunks, k);
    key := routeList.keys[c];
    var r := routeList.entries[key];
    assert chunks[c] == SectionsOf(r);
    assert Kept(r);
    RouteSectionsAt(r, |r.stops.keys|, j);
  }
}
