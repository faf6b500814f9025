/** mergeHeatmapData (main.js:234-243): the union of two heat maps keeping,
    for a stop in both, the point with the lower travel time. */
module Merge {
  import opened Transit

  function Min(a: real, b: real): real {
    if a <= b then a else b
  }

  /** The merged map: a stop of `m2` replaces the one of `m1` only when
      it is new or strictly faster. */
  function Merged(m1: HeatMap, m2: HeatMap): (m: HeatMap)
    ensures m.Keys == m1.Keys + m2.Keys
    ensures forall s :: s in m1 && s !in m2 ==> m[s] == m1[s]
    ensures forall s :: s in m2 && s !in m1 ==> m[s] == m2[s]
    ensures forall s :: s in m1 && s in m2 ==> m[s].time == Min(m1[s].time, m2[s].time)
    ensures forall s :: s in m1 && s in m2 ==> m[s] == (if m2[s].time < m1[s].time then m2[s] else m1[s])
  {
    map s | s in m1.Keys + m2.Keys ::
      if s in m2 && (s !in m1 || m1[s].time > m2[s].time) then m2[s] else m1[s]
  }

  /** Lines 234-243, visiting the stops of `map2` in any order: each stop
      of `map2` occurs once, so only `map1`'s point is ever compared. */
  method MergeHeatmapData(map1: HeatMap, map2: HeatMap) returns (m: HeatMap)
    ensures m == Merged(map1, map2)
  {
    m := map1;
    var pending := map2.Keys;
    while pending != {}
      invariant pending <= map2.Keys
      invariant m.Keys == map1.Keys + (map2.Keys - pending)
      invariant forall s :: s in m ==> m[s] == (if s in map2.Keys - pending then Merged(map1, map2)[s] else map1[s])
      decreases pending
    {
      var stopId :| stopId in pending;
      var data := map2[stopId];
      if stopId !in m || m[stopId].time > data.time {
        m := m[stopId := data];
      }
      pending := pending - {stopId};
    }
  }

  /** Merging is associative, so the order in which the recursion nests the
      rounds' heat maps does not matter for equal-time ties either. */
  lemma MergedAssociative(a: HeatMap, b: HeatMap, c: HeatMap)
    ensures Merged(Merged(a, b), c) == Merged(a, Merged(b, c))
  {
  }

  /** The merged times do not depend on the order of the arguments; only
      the choice between two points with equal times does. */
  lemma MergedTimesCommute(m1: HeatMap, m2: HeatMap)
    ensures Merged(m1, m2).Keys == Merged(m2, m1).Keys
    ensures forall s :: s in Merged(m1, m2) ==> Merged(m1, m2)[s].time == Merged(m2, m1)[s].time
  {
  }

  /** The empty heat map is an identity, and merging a map with itself
      changes nothing. */
  lemma MergedIdentity(m: HeatMap)
    ensures Merged(m, map[]) == m && Merged(map[], m) == m
    ensures Merged(m, m) == m
  {
  }
}
