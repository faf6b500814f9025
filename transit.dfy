/** The dataset shared by the normaliser (data_merging.py) and the heat-map
    page (main.js), and the page's configuration. */
module Transit {
  import opened Dicts

  datatype Option<T> = None | Some(value: T)

  type StopId = string
  type RouteId = string
  type Operator = string

  datatype Location = Location(lat: real, lng: real)

  /** One entry of `stopList`: the display names per language, the location,
      the operators serving the stop and the stops within interchange walk. */
  datatype Stop = Stop(name: map<string, string>, location: Location, co: seq<Operator>, nearby: seq<StopId>)

  /** One entry of `routeList`: the route name, its operators and, per
      operator, that operator's ordered stop sequence. */
  datatype Route = Route(route: string, co: seq<Operator>, stops: Dict<Operator, seq<StopId>>)

  /** `journeyTimes[a][b]`: seconds from stop `a` to the following stop `b`. */
  type JourneyTimes = map<StopId, map<StopId, real>>

  datatype Dataset = Dataset(stopList: Dict<StopId, Stop>, routeList: Dict<RouteId, Route>, journeyTimes: JourneyTimes)

  /** The `{travelTime, interchangeCount}` records of `startStops`,
      `stopIdData` and `nextStartStops`. */
  datatype TimeState = TimeState(travelTime: real, interchangeCount: int)

  /** A round's frontier, `startStops`: where riders stand and how they got there. */
  type Frontier = map<StopId, TimeState>

  /** One element of `stopSequenceList`: a boarded suffix of one operator's sequence. */
  datatype StopSequence = StopSequence(stops: seq<StopId>, co: Operator)

  /** One `[lat, lng, travelTime]` triple of `heatmapData` / `journeyTimesData`. */
  datatype HeatPoint = HeatPoint(lat: real, lng: real, time: real)

  type HeatMap = map<StopId, HeatPoint>

  /** Great-circle distance in kilometres between (lat1, lng1) and (lat2, lng2). */
  type Distance = (real, real, real, real) -> real

  /** The page's global settings (main.js:356-363), fixed for one query. */
  datatype Config = Config(
    modes: set<Operator>,
    maxInterchanges: int,
    intensityByTravelTimeMaxTime: real,
    walkingSpeedKmh: real,
    interchangeTimes: real,
    interchangeTimeForTrains: real,
    walkableDistance: real)

  /** `Number.MAX_SAFE_INTEGER`, the cost the page adds for a missing journey time. */
  const MaxSafeInteger: real := 9007199254740991.0

  /** A stop id as a key of the journey-time table: `journeyTimes[prev]` is
      looked up for every stop but the last of a sequence. */
  predicate LegsDefined(jt: JourneyTimes, stops: seq<StopId>) {
    forall k :: 0 <= k < |stops| - 1 ==> stops[k] in jt
  }

  /** Every stop of every operator's sequence of every route is in `stopList`,
      and its journey times are present unless it ends the sequence. */
  predicate RoutesFit(ds: Dataset) {
    forall r, op :: r in ds.routeList.entries && op in ds.routeList.entries[r].stops.entries ==>
      && LegsDefined(ds.journeyTimes, ds.routeList.entries[r].stops.entries[op])
      && forall s :: s in ds.routeList.entries[r].stops.entries[op] ==> s in ds.stopList.entries
  }

  /** Every `nearby` stop of a stop is itself in `stopList`. */
  predicate NearbyFit(ds: Dataset) {
    forall s, n :: s in ds.stopList.entries && n in ds.stopList.entries[s].nearby ==> n in ds.stopList.entries
  }

  /** What the propagation engine relies on without checking: without it the
      lookups at main.js:183-184 and main.js:203-204 throw. */
  predicate WellFormed(ds: Dataset) {
    && Valid(ds.stopList)
    && Valid(ds.routeList)
    && RoutesFit(ds)
    && NearbyFit(ds)
  }
}
