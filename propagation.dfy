/** generateHeatmapDataWithTravelDistance (main.js:140-232): rounds of route
    selection, accumulation and interchange, each round's heat map merged
    with the rest's, until a round boards nothing. */
module Propagation {
  import opened Dicts
  import opened Transit
  import opened Selection
  import opened Accumulate
  import opened Interchange
  import opened Merge

  /** A boarded sequence is a suffix of an operator sequence of `ds`, so on
      a well-formed dataset it can be ridden and its stops looked up. */
  lemma SequenceFits(ds: Dataset, cfg: Config, startStops: Frontier, seen: set<RouteId>, q: StopSequence)
    requires WellFormed(ds) && q in Sequences(ds, cfg, startStops, seen)
    ensures Fits(ds.journeyTimes, startStops, q)
    ensures forall i :: 0 <= i < |q.stops| ==> q.stops[i] in ds.stopList.entries
  {
    var r, op := SequenceOrigin(ds, cfg, startStops, seen, q);
    var stopsByCo := ds.routeList.entries[r].stops.entries[op];
    var h := BoardingIndex(stopsByCo, startStops.Keys);
    assert q.stops == stopsByCo[h..];
    assert LegsDefined(ds.journeyTimes, stopsByCo);
    forall i | 0 <= i < |q.stops| - 1
      ensures q.stops[i] in ds.journeyTimes
    {
      assert q.stops[i] == stopsByCo[h + i];
    }
    forall i | 0 <= i < |q.stops|
      ensures q.stops[i] in ds.stopList.entries
    {
      assert q.stops[i] in stopsByCo;
    }
  }

  lemma SequencesFit(ds: Dataset, cfg: Config, startStops: Frontier, seen: set<RouteId>)
    requires WellFormed(ds)
    ensures AllFit(ds.journeyTimes, startStops, Sequences(ds, cfg, startStops, seen))
    ensures StopsKnown(ds, Sequences(ds, cfg, startStops, seen))
  {
    var seqs := Sequences(ds, cfg, startStops, seen);
    forall k | 0 <= k < |seqs|
      ensures Fits(ds.journeyTimes, startStops, seqs[k])
      ensures forall i :: 0 <= i < |seqs[k].stops| ==> seqs[k].stops[i] in ds.stopList.entries
    {
      SequenceFits(ds, cfg, startStops, seen, seqs[k]);
    }
  }

  lemma RemovingShrinks<T>(all: set<T>, seen: set<T>, added: set<T>, r: T)
    requires r in all && r !in seen && r in added
    ensures |all - (seen + added)| < |all - seen|
  {
    var smaller, rest := all - (seen + added), (all - seen) - {r};
    assert rest == smaller + (rest - smaller);
    assert smaller * (rest - smaller) == {};
    assert |rest| == |smaller| + |rest - smaller|;
    assert all - seen == rest + {r};
    assert |all - seen| == |rest| + 1;
  }

  /** A round that boards something adds at least one unseen route of
      `routeList` to `seenRoutes`, so the recursion ends. */
  lemma RoundProgress(ds: Dataset, cfg: Config, startStops: Frontier, seen: set<RouteId>)
    requires Valid(ds.routeList) && Sequences(ds, cfg, startStops, seen) != []
    ensures |ds.routeList.entries.Keys - (seen + NewlySeen(ds, cfg, startStops, seen))| < |ds.routeList.entries.Keys - seen|
  {
    NewlySeenRoutes(ds, cfg, startStops, seen);
    var added := NewlySeen(ds, cfg, startStops, seen);
    var r :| r in added;
    RemovingShrinks(ds.routeList.entries.Keys, seen, added, r);
  }

  /** The heat map and the final `seenRoutes` of the call with frontier
      `startStops` and routes `seen` already used. */
  function Propagate(ds: Dataset, cfg: Config, startStops: Frontier, seen: set<RouteId>): (HeatMap, set<RouteId>)
    requires WellFormed(ds)
    decreases |ds.routeList.entries.Keys - seen|
  {
    var seqs := Sequences(ds, cfg, startStops, seen);
    var seen1 := seen + NewlySeen(ds, cfg, startStops, seen);
    if seqs == [] then (map[], seen1)
    else
      SequencesFit(ds, cfg, startStops, seen);
      RoundProgress(ds, cfg, startStops, seen);
      var reached := Accumulated(ds, startStops, seqs);
      AccumulateInStopList(ds, startStops, seqs, |seqs|);
      var rest := Propagate(ds, cfg, NextFrontier(ds, cfg, reached, seqs), seen1);
      (Merged(HeatOf(ds.stopList, reached), rest.0), rest.1)
  }

  /** Lines 140-232. The guard at line 224 compares `nextStartStops.length`,
      which an object does not have, with 0; it is always false, so the call
      always recurses, and the recursion stops at the next round's check at
      line 171 instead. */
  method GenerateHeatmapData(ds: Dataset, cfg: Config, startStops: Frontier, seen: set<RouteId>)
    returns (heatmap: HeatMap, seenRoutes: set<RouteId>)
    requires WellFormed(ds)
    ensures (heatmap, seenRoutes) == Propagate(ds, cfg, startStops, seen)
    decreases |ds.routeList.entries.Keys - seen|
  {
    var stopSequenceList;
    stopSequenceList, seenRoutes := SelectRoutes(ds, cfg, startStops, seen);
    if |stopSequenceList| <= 0 {
      return map[], seenRoutes;
    }
    SequencesFit(ds, cfg, startStops, seen);
    RoundProgress(ds, cfg, startStops, seen);
    var heatmapData, stopIdData := AccumulateTimes(ds, startStops, stopSequenceList);
    var nextStartStops := NextStartStops(ds, cfg, stopIdData, stopSequenceList);
    var rest;
    rest, seenRoutes := GenerateHeatmapData(ds, cfg, nextStartStops, seenRoutes);
    heatmap := MergeHeatmapData(heatmapData, rest);
  }

  /** `seenRoutes` only grows, and only by routes of `routeList`. */
  lemma {:induction false} PropagateSeen(ds: Dataset, cfg: Config, startStops: Frontier, seen: set<RouteId>)
    requires WellFormed(ds)
    ensures seen <= Propagate(ds, cfg, startStops, seen).1 <= seen + ds.routeList.entries.Keys
    decreases |ds.routeList.entries.Keys - seen|
  {
    var seqs := Sequences(ds, cfg, startStops, seen);
    var seen1 := seen + NewlySeen(ds, cfg, startStops, seen);
    NewlySeenRoutes(ds, cfg, startStops, seen);
    if seqs != [] {
      SequencesFit(ds, cfg, startStops, seen);
      RoundProgress(ds, cfg, startStops, seen);
      var reached := Accumulated(ds, startStops, seqs);
      PropagateSeen(ds, cfg, NextFrontier(ds, cfg, reached, seqs), seen1);
    }
  }

  /** Every point of the heat map is a stop of `stopList`, drawn at that
      stop's location. */
  lemma {:induction false} PropagateAtStops(ds: Dataset, cfg: Config, startStops: Frontier, seen: set<RouteId>)
    requires WellFormed(ds)
    ensures forall s :: s in Propagate(ds, cfg, startStops, seen).0 ==>
              && s in ds.stopList.entries
              && Propagate(ds, cfg, startStops, seen).0[s].lat == ds.stopList.entries[s].location.lat
              && Propagate(ds, cfg, startStops, seen).0[s].lng == ds.stopList.entries[s].location.lng
    decreases |ds.routeList.entries.Keys - seen|
  {
    var seqs := Sequences(ds, cfg, startStops, seen);
    if seqs != [] {
      SequencesFit(ds, cfg, startStops, seen);
      RoundProgress(ds, cfg, startStops, seen);
      var reached := Accumulated(ds, startStops, seqs);
      AccumulateInStopList(ds, startStops, seqs, |seqs|);
      PropagateAtStops(ds, cfg, NextFrontier(ds, cfg, reached, seqs), seen + NewlySeen(ds, cfg, startStops, seen));
    }
  }

  /** A stop recorded in the first round stays on the heat map, and its time
      there is never later than the first round's. */
  lemma FirstRoundKept(ds: Dataset, cfg: Config, startStops: Frontier, seen: set<RouteId>, s: StopId)
    requires WellFormed(ds)
    requires AllFit(ds.journeyTimes, startStops, Sequences(ds, cfg, startStops, seen))
    requires s in Accumulated(ds, startStops, Sequences(ds, cfg, startStops, seen))
    ensures s in Propagate(ds, cfg, startStops, seen).0
    ensures Propagate(ds, cfg, startStops, seen).0[s].time <= Accumulated(ds, startStops, Sequences(ds, cfg, startStops, seen))[s].travelTime
  {
  }

  /** Nothing is drawn when no unseen route can be boarded from the frontier. */
  lemma NothingBoardable(ds: Dataset, cfg: Config, startStops: Frontier, seen: set<RouteId>)
    requires WellFormed(ds)
    requires forall r :: r in ds.routeList.entries && r !in seen ==>
               RouteSequences(ds.routeList.entries[r], cfg.modes, startStops.Keys, |ds.routeList.entries[r].co|) == []
    ensures Propagate(ds, cfg, startStops, seen) == (map[], seen)
  {
    NewlySeenRoutes(ds, cfg, startStops, seen);
    var added := NewlySeen(ds, cfg, startStops, seen);
    assert forall r :: r !in added;
    assert added == {};
    assert seen + added == seen;
  }

  /** No frontier time is negative. */
  predicate NonNegativeFrontier(f: Frontier) {
    forall s :: s in f ==> f[s].travelTime >= 0.0
  }

  /** The settings charge no negative interchange time. */
  predicate NonNegativeInterchange(cfg: Config) {
    cfg.interchangeTimes >= 0.0 && cfg.interchangeTimeForTrains >= 0.0
  }

  lemma RoundNonNegative(ds: Dataset, cfg: Config, startStops: Frontier, seqs: seq<StopSequence>)
    requires NearbyFit(ds) && StopsKnown(ds, seqs) && AllFit(ds.journeyTimes, startStops, seqs)
    requires NonNegativeTimes(ds.journeyTimes) && NonNegativeFrontier(startStops) && NonNegativeInterchange(cfg)
    ensures NonNegativeFrontier(Accumulated(ds, startStops, seqs))
    ensures NonNegativeFrontier(NextFrontier(ds, cfg, Accumulated(ds, startStops, seqs), seqs))
  {
    var reached := Accumulated(ds, startStops, seqs);
    forall s | s in reached
      ensures reached[s].travelTime >= 0.0
    {
      RecordedNotBeforeBoarding(ds, startStops, seqs, s);
    }
    var next := NextFrontier(ds, cfg, reached, seqs);
    forall x | x in next
      ensures next[x].travelTime >= 0.0
    {
      var k, i := FrontierSource(ds, cfg, reached, seqs, |seqs|, x);
    }
  }

  /** With no negative journey time, frontier time or interchange time, no
      point of the heat map has a negative travel time. */
  lemma {:induction false} PropagateNonNegative(ds: Dataset, cfg: Config, startStops: Frontier, seen: set<RouteId>)
    requires WellFormed(ds)
    requires NonNegativeTimes(ds.journeyTimes) && NonNegativeFrontier(startStops) && NonNegativeInterchange(cfg)
    ensures forall s :: s in Propagate(ds, cfg, startStops, seen).0 ==> Propagate(ds, cfg, startStops, seen).0[s].time >= 0.0
    decreases |ds.routeList.entries.Keys - seen|
  {
    var seqs := Sequences(ds, cfg, startStops, seen);
    if seqs != [] {
      SequencesFit(ds, cfg, startStops, seen);
      RoundProgress(ds, cfg, startStops, seen);
      var reached := Accumulated(ds, startStops, seqs);
      AccumulateInStopList(ds, startStops, seqs, |seqs|);
      RoundNonNegative(ds, cfg, startStops, seqs);
      PropagateNonNegative(ds, cfg, NextFrontier(ds, cfg, reached, seqs), seen + NewlySeen(ds, cfg, startStops, seen));
    }
  }
}
