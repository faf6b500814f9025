/** fetch_stop_journey_time (data_merging.py:10-23): journey-time lists are
    published in one file per two-character prefix of the stop id, and each
    file is downloaded at most once, after which the cached copy answers. */
module JourneyCache {
  import opened Transit

  /** One published file: the journey-time list of each stop it covers. */
  type Bucket = map<StopId, map<StopId, real>>

  /** The server: the file of a bucket, or `None` when the request fails. */
  type Remote = string -> Option<Bucket>

  /** Line 13: the bucket of a stop id, its first two characters (the whole
      id when it is shorter). */
  function CacheIndex(stopId: StopId): (index: string)
    ensures index <= stopId
    ensures |index| == if |stopId| > 1 then 2 else |stopId|
  {
    if |stopId| > 1 then stopId[..2] else stopId
  }

  /** Stop ids with the same first two characters share a file. */
  lemma SameBucket(a: StopId, b: StopId)
    requires |a| >= 2 && |b| >= 2
    ensures CacheIndex(a) == CacheIndex(b) <==> a[0] == b[0] && a[1] == b[1]
  {
    if a[0] == b[0] && a[1] == b[1] {
      assert CacheIndex(a) == [a[0], a[1]] == CacheIndex(b);
    }
    if CacheIndex(a) == CacheIndex(b) {
      assert CacheIndex(a)[0] == a[0] && CacheIndex(a)[1] == a[1];
    }
  }

  /** What the lookup of `stopId` yields: its list in its bucket's file, or
      an empty list when the file lacks it or cannot be fetched. */
  function JourneyList(remote: Remote, stopId: StopId): map<StopId, real> {
    match remote(CacheIndex(stopId))
    case Some(bucket) => if stopId in bucket then bucket[stopId] else map[]
    case None => map[]
  }

  /** The cache after looking up `stopId`: its file is added when it was not
      cached and the request succeeds. */
  function Cached(buckets: map<string, Bucket>, remote: Remote, stopId: StopId): (r: map<string, Bucket>)
    ensures Keeps(buckets, r)
    ensures r.Keys <= buckets.Keys + {CacheIndex(stopId)}
    ensures CacheIndex(stopId) in r <==> CacheIndex(stopId) in buckets || remote(CacheIndex(stopId)).Some?
  {
    var index := CacheIndex(stopId);
    if index in buckets || remote(index).None? then buckets else buckets[index := remote(index).value]
  }

  /** Every file cached in `earlier` is still cached, unchanged, in `later`:
      no file is downloaded twice. */
  predicate Keeps(earlier: map<string, Bucket>, later: map<string, Bucket>) {
    forall index :: index in earlier ==> index in later && later[index] == earlier[index]
  }

  lemma KeepsTransitive(a: map<string, Bucket>, b: map<string, Bucket>, c: map<string, Bucket>)
    requires Keeps(a, b) && Keeps(b, c)
    ensures Keeps(a, c)
  {
  }

  /** `fetch_stop_journey_time_cache`. */
  class JourneyTimeCache {
    var buckets: map<string, Bucket>

    /** Every cached file is the one the server publishes. */
    ghost predicate Consistent(remote: Remote)
      reads this
    {
      forall index :: index in buckets ==> remote(index) == Some(buckets[index])
    }

    constructor ()
      ensures buckets == map[]
    {
      buckets := map[];
    }

    /** Lines 12-23: a cached file answers directly; otherwise the file is
        requested and, when that succeeds, cached; a failed request yields
        an empty list and caches nothing, so a later lookup asks again. */
    method Fetch(stopId: StopId, remote: Remote) returns (journeyTimeList: map<StopId, real>)
      requires Consistent(remote)
      modifies this
      ensures Consistent(remote)
      ensures journeyTimeList == JourneyList(remote, stopId)
      ensures buckets == Cached(old(buckets), remote, stopId)
      ensures Keeps(old(buckets), buckets)
    {
      var index := if |stopId| > 1 then stopId[..2] else stopId;
      if index in buckets {
        var data := buckets[index];
        return if stopId in data then data[stopId] else map[];
      }
      var response := remote(index);
      match response {
        case Some(data) =>
          buckets := buckets[index := data];
          journeyTimeList := if stopId in data then data[stopId] else map[];
        case None =>
          journeyTimeList := map[];
      }
    }
  }
}
