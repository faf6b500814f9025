/** Travel-time accumulation, the second phase of a propagation round
    (main.js:174-193): every boarded sequence is ridden from its boarding
    stop, adding one journey time per leg, and each later stop of the ride
    is recorded with the time of arrival. A later write to the same stop
    replaces an earlier one. */
module Accumulate {
  import opened Dicts
  import opened Transit

  /** A boarded sequence the ride loop can process without throwing: it has
      a boarding stop, the boarding stop is on the frontier, and the journey
      times of every stop but the last are present. */
  predicate Fits(jt: JourneyTimes, startStops: Frontier, q: StopSequence) {
    |q.stops| >= 1 && q.stops[0] in startStops && LegsDefined(jt, q.stops)
  }

  predicate AllFit(jt: JourneyTimes, startStops: Frontier, seqs: seq<StopSequence>) {
    forall k :: 0 <= k < |seqs| ==> Fits(jt, startStops, seqs[k])
  }

  /** Line 184: the time of the leg from `prev` to `stopId`, or
      `Number.MAX_SAFE_INTEGER` when the table has none. */
  function LegTime(jt: JourneyTimes, prev: StopId, stopId: StopId): real
    requires prev in jt
  {
    if stopId in jt[prev] then jt[prev][stopId] else MaxSafeInteger
  }

  /** `travelTime` when the ride reaches `stops[i]`, having left `stops[0]` at `t0`. */
  function ArrivalTime(jt: JourneyTimes, stops: seq<StopId>, t0: real, i: nat): real
    requires i < |stops| && LegsDefined(jt, stops)
  {
    if i == 0 then t0 else ArrivalTime(jt, stops, t0, i - 1) + LegTime(jt, stops[i - 1], stops[i])
  }

  /** No journey time in the table is negative. */
  predicate NonNegativeTimes(jt: JourneyTimes) {
    forall a, b :: a in jt && b in jt[a] ==> jt[a][b] >= 0.0
  }

  /** With no negative journey time, the ride never goes back in time. */
  lemma {:induction false} ArrivalTimeMonotonic(jt: JourneyTimes, stops: seq<StopId>, t0: real, i: nat, j: nat)
    requires j <= i < |stops| && LegsDefined(jt, stops) && NonNegativeTimes(jt)
    ensures ArrivalTime(jt, stops, t0, j) <= ArrivalTime(jt, stops, t0, i)
    decreases i
  {
    if j < i {
      ArrivalTimeMonotonic(jt, stops, t0, i - 1, j);
      assert LegTime(jt, stops[i - 1], stops[i]) >= 0.0;
    }
  }

  /** Lines 186-191 for one stop: a stop of `stopList` is recorded with the
      given arrival time and the ride's interchange count; any other stop is
      skipped. */
  function Record(stopList: Dict<StopId, Stop>, reached: Frontier, stopId: StopId, state: TimeState): Frontier {
    if stopId in stopList.entries then reached[stopId := state] else reached
  }

  /** `stopIdData` after the ride along `stops` has handled indices 1 .. i-1,
      starting from `acc`. */
  function RideUpTo(stopList: Dict<StopId, Stop>, jt: JourneyTimes, stops: seq<StopId>, start: TimeState,
                    acc: Frontier, i: nat): Frontier
    requires 1 <= i <= |stops| && LegsDefined(jt, stops)
  {
    if i == 1 then acc
    else
      Record(stopList, RideUpTo(stopList, jt, stops, start, acc, i - 1), stops[i - 1],
             TimeState(ArrivalTime(jt, stops, start.travelTime, i - 1), start.interchangeCount))
  }

  /** `stopIdData` after the first `k` boarded sequences. */
  function AccumulateUpTo(ds: Dataset, startStops: Frontier, seqs: seq<StopSequence>, k: nat): Frontier
    requires k <= |seqs| && AllFit(ds.journeyTimes, startStops, seqs)
  {
    if k == 0 then map[]
    else
      var q := seqs[k - 1];
      RideUpTo(ds.stopList, ds.journeyTimes, q.stops, startStops[q.stops[0]],
               AccumulateUpTo(ds, startStops, seqs, k - 1), |q.stops|)
  }

  /** `stopIdData` after line 193. */
  function Accumulated(ds: Dataset, startStops: Frontier, seqs: seq<StopSequence>): Frontier
    requires AllFit(ds.journeyTimes, startStops, seqs)
  {
    AccumulateUpTo(ds, startStops, seqs, |seqs|)
  }

  /** `heatmapData` as a function of `stopIdData`: each recorded stop at its
      own location with its recorded time. */
  function HeatOf(stopList: Dict<StopId, Stop>, reached: Frontier): HeatMap
    requires reached.Keys <= stopList.entries.Keys
  {
    map s | s in reached :: HeatPoint(stopList.entries[s].location.lat, stopList.entries[s].location.lng, reached[s].travelTime)
  }

  /** The largest position in 1 .. i-1 at which the ride passes `s`, or 0
      when it does not pass `s` there. */
  function LastAt(stops: seq<StopId>, s: StopId, i: nat): (j: nat)
    requires 1 <= i <= |stops|
    ensures j < i
    ensures j >= 1 ==> stops[j] == s
    ensures forall jj :: j < jj < i ==> stops[jj] != s
  {
    if i == 1 then 0 else if stops[i - 1] == s then i - 1 else LastAt(stops, s, i - 1)
  }

  /** The ride along `stops` writes `s`. */
  predicate Writes(stopList: Dict<StopId, Stop>, stops: seq<StopId>, s: StopId)
    requires |stops| >= 1
  {
    s in stopList.entries && LastAt(stops, s, |stops|) >= 1
  }

  /** The ride's effect on one stop: a stop of `stopList` passed at positions
      1 .. i-1 holds the time of its last passage, any other stop keeps what
      `acc` had. */
  lemma {:induction false} RideEffect(stopList: Dict<StopId, Stop>, jt: JourneyTimes, stops: seq<StopId>, start: TimeState,
                                      acc: Frontier, i: nat, s: StopId)
    requires 1 <= i <= |stops| && LegsDefined(jt, stops)
    ensures s in stopList.entries && LastAt(stops, s, i) >= 1 ==>
              s in RideUpTo(stopList, jt, stops, start, acc, i)
              && RideUpTo(stopList, jt, stops, start, acc, i)[s]
                 == TimeState(ArrivalTime(jt, stops, start.travelTime, LastAt(stops, s, i)), start.interchangeCount)
    ensures !(s in stopList.entries && LastAt(stops, s, i) >= 1) ==>
              (s in RideUpTo(stopList, jt, stops, start, acc, i) <==> s in acc)
              && (s in acc ==> RideUpTo(stopList, jt, stops, start, acc, i)[s] == acc[s])
  {
    if i > 1 {
      RideEffect(stopList, jt, stops, start, acc, i - 1, s);
    }
  }

  /** The position in `seqs[..k]` of the last sequence whose ride writes
      `s`, or -1. */
  function LastWriter(stopList: Dict<StopId, Stop>, seqs: seq<StopSequence>, s: StopId, k: nat): (w: int)
    requires k <= |seqs| && forall kk :: 0 <= kk < |seqs| ==> |seqs[kk].stops| >= 1
    ensures -1 <= w < k
    ensures w >= 0 ==> Writes(stopList, seqs[w].stops, s)
    ensures forall kk :: w < kk < k ==> !Writes(stopList, seqs[kk].stops, s)
  {
    if k == 0 then -1
    else if Writes(stopList, seqs[k - 1].stops, s) then k - 1
    else LastWriter(stopList, seqs, s, k - 1)
  }

  /** The time the ride along `q` records for `s`, when it writes `s`. */
  function RideTime(ds: Dataset, startStops: Frontier, q: StopSequence, s: StopId): TimeState
    requires Fits(ds.journeyTimes, startStops, q)
  {
    var start := startStops[q.stops[0]];
    TimeState(ArrivalTime(ds.journeyTimes, q.stops, start.travelTime, LastAt(q.stops, s, |q.stops|)),
              start.interchangeCount)
  }

  lemma {:induction false} AccumulateEffect(ds: Dataset, startStops: Frontier, seqs: seq<StopSequence>, k: nat, s: StopId)
    requires k <= |seqs| && AllFit(ds.journeyTimes, startStops, seqs)
    ensures LastWriter(ds.stopList, seqs, s, k) == -1 ==> s !in AccumulateUpTo(ds, startStops, seqs, k)
    ensures LastWriter(ds.stopList, seqs, s, k) >= 0 ==>
              s in AccumulateUpTo(ds, startStops, seqs, k)
              && AccumulateUpTo(ds, startStops, seqs, k)[s]
                 == RideTime(ds, startStops, seqs[LastWriter(ds.stopList, seqs, s, k)], s)
  {
    if k > 0 {
      var q := seqs[k - 1];
      assert Fits(ds.journeyTimes, startStops, q);
      AccumulateEffect(ds, startStops, seqs, k - 1, s);
      RideEffect(ds.stopList, ds.journeyTimes, q.stops, startStops[q.stops[0]],
                 AccumulateUpTo(ds, startStops, seqs, k - 1), |q.stops|, s);
    }
  }

  /** What lines 174-193 record: exactly the stops of `stopList` that some
      ride passes after its boarding stop, each with the time and interchange
      count of the LAST ride to pass it, at that ride's last passage. */
  lemma ReachedStops(ds: Dataset, startStops: Frontier, seqs: seq<StopSequence>, s: StopId)
    requires AllFit(ds.journeyTimes, startStops, seqs)
    ensures s in Accumulated(ds, startStops, seqs) <==> exists k :: 0 <= k < |seqs| && Writes(ds.stopList, seqs[k].stops, s)
    ensures s in Accumulated(ds, startStops, seqs) ==>
              var w := LastWriter(ds.stopList, seqs, s, |seqs|);
              && 0 <= w < |seqs|
              && (forall k :: w < k < |seqs| ==> !Writes(ds.stopList, seqs[k].stops, s))
              && Accumulated(ds, startStops, seqs)[s] == RideTime(ds, startStops, seqs[w], s)
  {
    AccumulateEffect(ds, startStops, seqs, |seqs|, s);
  }

  /** Only stops of `stopList` are recorded. */
  lemma {:induction false} AccumulateInStopList(ds: Dataset, startStops: Frontier, seqs: seq<StopSequence>, k: nat)
    requires k <= |seqs| && AllFit(ds.journeyTimes, startStops, seqs)
    ensures AccumulateUpTo(ds, startStops, seqs, k).Keys <= ds.stopList.entries.Keys
  {
    forall s | s in AccumulateUpTo(ds, startStops, seqs, k)
      ensures s in ds.stopList.entries
    {
      AccumulateEffect(ds, startStops, seqs, k, s);
    }
  }

  /** With times that are never negative, no recorded stop is reached before
      the frontier time of the stop its ride boarded at. */
  lemma RecordedNotBeforeBoarding(ds: Dataset, startStops: Frontier, seqs: seq<StopSequence>, s: StopId)
    requires AllFit(ds.journeyTimes, startStops, seqs) && NonNegativeTimes(ds.journeyTimes)
    requires s in Accumulated(ds, startStops, seqs)
    ensures exists k :: 0 <= k < |seqs| && Accumulated(ds, startStops, seqs)[s].travelTime >= startStops[seqs[k].stops[0]].travelTime
              && Accumulated(ds, startStops, seqs)[s].interchangeCount == startStops[seqs[k].stops[0]].interchangeCount
  {
    AccumulateEffect(ds, startStops, seqs, |seqs|, s);
    var w := LastWriter(ds.stopList, seqs, s, |seqs|);
    var q := seqs[w];
    assert Fits(ds.journeyTimes, startStops, q);
    ArrivalTimeMonotonic(ds.journeyTimes, q.stops, startStops[q.stops[0]].travelTime, LastAt(q.stops, s, |q.stops|), 0);
  }

  /** Recording a stop extends `heatmapData` with its location and time. */
  lemma HeatOfRecord(stopList: Dict<StopId, Stop>, reached: Frontier, stopId: StopId, state: TimeState)
    requires reached.Keys <= stopList.entries.Keys && stopId in stopList.entries
    ensures HeatOf(stopList, reached[stopId := state])
         == HeatOf(stopList, reached)[stopId := HeatPoint(stopList.entries[stopId].location.lat,
                                                           stopList.entries[stopId].location.lng, state.travelTime)]
  {
  }

  /** Lines 176-192 for one boarded sequence. */
  method Ride(ds: Dataset, startStops: Frontier, q: StopSequence, heatmapData0: HeatMap, stopIdData0: Frontier)
    returns (heatmapData: HeatMap, stopIdData: Frontier)
    requires Fits(ds.journeyTimes, startStops, q)
    requires stopIdData0.Keys <= ds.stopList.entries.Keys && heatmapData0 == HeatOf(ds.stopList, stopIdData0)
    ensures stopIdData == RideUpTo(ds.stopList, ds.journeyTimes, q.stops, startStops[q.stops[0]], stopIdData0, |q.stops|)
    ensures stopIdData.Keys <= ds.stopList.entries.Keys
    ensures heatmapData == HeatOf(ds.stopList, stopIdData)
  {
    var stopList, jt, stops := ds.stopList, ds.journeyTimes, q.stops;
    heatmapData, stopIdData := heatmapData0, stopIdData0;
    var start := startStops[stops[0]];
    var travelTime, interchangeCount := start.travelTime, start.interchangeCount;
    var index := 1;
    while index < |stops|
      invariant 1 <= index <= |stops|
      invariant travelTime == ArrivalTime(jt, stops, start.travelTime, index - 1)
      invariant stopIdData == RideUpTo(stopList, jt, stops, start, stopIdData0, index)
      invariant stopIdData.Keys <= stopList.entries.Keys
      invariant heatmapData == HeatOf(stopList, stopIdData)
    {
      var stopId := stops[index];
      var data := jt[stops[index - 1]];
      travelTime := travelTime + (if stopId in data then data[stopId] else MaxSafeInteger);
      if stopId in stopList.entries {
        var location := stopList.entries[stopId].location;
        HeatOfRecord(stopList, stopIdData, stopId, TimeState(travelTime, interchangeCount));
        heatmapData := heatmapData[stopId := HeatPoint(location.lat, location.lng, travelTime)];
        stopIdData := stopIdData[stopId := TimeState(travelTime, interchangeCount)];
      }
      index := index + 1;
    }
  }

  /** Lines 174-193: `heatmapData` and `stopIdData` of one round. */
  method AccumulateTimes(ds: Dataset, startStops: Frontier, stopSequenceList: seq<StopSequence>)
    returns (heatmapData: HeatMap, stopIdData: Frontier)
    requires AllFit(ds.journeyTimes, startStops, stopSequenceList)
    ensures stopIdData == Accumulated(ds, startStops, stopSequenceList)
    ensures stopIdData.Keys <= ds.stopList.entries.Keys
    ensures heatmapData == HeatOf(ds.stopList, stopIdData)
  {
    heatmapData, stopIdData := map[], map[];
    var k := 0;
    while k < |stopSequenceList|
      invariant 0 <= k <= |stopSequenceList|
      invariant stopIdData == AccumulateUpTo(ds, startStops, stopSequenceList, k)
      invariant stopIdData.Keys <= ds.stopList.entries.Keys
      invariant heatmapData == HeatOf(ds.stopList, stopIdData)
    {
      assert Fits(ds.journeyTimes, startStops, stopSequenceList[k]);
      heatmapData, stopIdData := Ride(ds, startStops, stopSequenceList[k], heatmapData, stopIdData);
      k := k + 1;
    }
  }
}
