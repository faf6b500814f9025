/** Interchange, the third phase of a propagation round (main.js:195-222):
    from every stop of every boarded sequence the rider may walk to a nearby
    stop or change to another route at the same stop, paying an interchange
    time and, except onto rail, one interchange. The results that stay within
    the interchange budget form the next round's frontier. */
module Interchange {
  import opened Dicts
  import opened Transit

  /** Line 205: a stop served by the MTR or the Light Rail. */
  predicate RailStop(co: seq<Operator>) {
    "mtr" in co || "lightRail" in co
  }

  /** Line 215: a boarded sequence run by the MTR or the Light Rail. */
  predicate RailOperator(co: Operator) {
    co == "mtr" || co == "lightRail"
  }

  /** Lines 200-202: what `stopIdData` says about a stop, with the defaults
      for a stop this round did not record. */
  function Source(cfg: Config, reached: Frontier, s: StopId): (t: TimeState)
    ensures s in reached ==> t == reached[s]
    ensures s !in reached ==> t.interchangeCount >= cfg.maxInterchanges
  {
    if s in reached then reached[s] else TimeState(MaxSafeInteger, cfg.maxInterchanges)
  }

  /** Lines 205-207 and 215-217: one interchange from `from`, onto rail or not. */
  function Transfer(cfg: Config, from: TimeState, train: bool): (t: TimeState)
    ensures from.interchangeCount <= t.interchangeCount <= from.interchangeCount + 1
    ensures train ==> t.interchangeCount == from.interchangeCount
    ensures cfg.interchangeTimes >= 0.0 && cfg.interchangeTimeForTrains >= 0.0 ==> t.travelTime >= from.travelTime
  {
    var interchangeTime := if train then cfg.interchangeTimeForTrains else cfg.interchangeTimes;
    TimeState(from.travelTime + interchangeTime, from.interchangeCount + (if train then 0 else 1))
  }

  /** Lines 208-213 and 218-220: an interchange within the budget is written
      to the next frontier, replacing what was there. */
  function Offer(cfg: Config, next: Frontier, s: StopId, t: TimeState): Frontier {
    if t.interchangeCount < cfg.maxInterchanges then next[s := t] else next
  }

  /** Every entry of `f` is within the interchange budget. */
  predicate Bounded(cfg: Config, f: Frontier) {
    forall s :: s in f ==> f[s].interchangeCount < cfg.maxInterchanges
  }

  /** The stops of every boarded sequence are in `stopList` (lines 199 and
      204 look them up). */
  predicate StopsKnown(ds: Dataset, seqs: seq<StopSequence>) {
    forall k, i :: 0 <= k < |seqs| && 0 <= i < |seqs[k].stops| ==> seqs[k].stops[i] in ds.stopList.entries
  }

  /** Every stop of `stops` is in `stopList`. */
  predicate AllKnown(ds: Dataset, stops: seq<StopId>) {
    forall s :: s in stops ==> s in ds.stopList.entries
  }

  /** The loop at lines 203-214 after the first `j` nearby stops. */
  function NearbyUpTo(ds: Dataset, cfg: Config, from: TimeState, nearby: seq<StopId>, next: Frontier, j: nat): (r: Frontier)
    requires j <= |nearby| && AllKnown(ds, nearby)
    ensures next.Keys <= r.Keys
  {
    if j == 0 then next
    else
      var n := nearby[j - 1];
      Offer(cfg, NearbyUpTo(ds, cfg, from, nearby, next, j - 1), n, Transfer(cfg, from, RailStop(ds.stopList.entries[n].co)))
  }

  /** Lines 198-220 for one stop `s` of a sequence run by `co`: the nearby
      stops first, then the stop itself. */
  function StopTransfers(ds: Dataset, cfg: Config, reached: Frontier, s: StopId, co: Operator, next: Frontier): (r: Frontier)
    requires s in ds.stopList.entries && NearbyFit(ds)
    ensures next.Keys <= r.Keys
  {
    var from := Source(cfg, reached, s);
    var nearby := ds.stopList.entries[s].nearby;
    Offer(cfg, NearbyUpTo(ds, cfg, from, nearby, next, |nearby|), s, Transfer(cfg, from, RailOperator(co)))
  }

  /** The loop at lines 197-221 after the first `i` stops of `q`. */
  function SequenceUpTo(ds: Dataset, cfg: Config, reached: Frontier, q: StopSequence, next: Frontier, i: nat): (r: Frontier)
    requires i <= |q.stops| && NearbyFit(ds)
    requires AllKnown(ds, q.stops)
    ensures next.Keys <= r.Keys
  {
    if i == 0 then next
    else StopTransfers(ds, cfg, reached, q.stops[i - 1], q.co, SequenceUpTo(ds, cfg, reached, q, next, i - 1))
  }

  /** `nextStartStops` after the first `k` boarded sequences. */
  function FrontierUpTo(ds: Dataset, cfg: Config, reached: Frontier, seqs: seq<StopSequence>, k: nat): (r: Frontier)
    requires k <= |seqs| && NearbyFit(ds) && StopsKnown(ds, seqs)
  {
    if k == 0 then map[]
    else
      var q := seqs[k - 1];
      assert AllKnown(ds, q.stops);
      SequenceUpTo(ds, cfg, reached, q, FrontierUpTo(ds, cfg, reached, seqs, k - 1), |q.stops|)
  }

  /** `nextStartStops` after line 222. */
  function NextFrontier(ds: Dataset, cfg: Config, reached: Frontier, seqs: seq<StopSequence>): Frontier
    requires NearbyFit(ds) && StopsKnown(ds, seqs)
  {
    FrontierUpTo(ds, cfg, reached, seqs, |seqs|)
  }

  /** The interchange from the `i`-th stop `y` of `q` to `x` is within the
      budget: `x` is `y` itself (a change of route) or one of `y`'s nearby
      stops (a walk). */
  ghost predicate Offered(ds: Dataset, cfg: Config, reached: Frontier, q: StopSequence, i: nat, x: StopId)
    requires i < |q.stops| && q.stops[i] in ds.stopList.entries && NearbyFit(ds)
  {
    var y := q.stops[i];
    || (x == y && Transfer(cfg, Source(cfg, reached, y), RailOperator(q.co)).interchangeCount < cfg.maxInterchanges)
    || (x in ds.stopList.entries[y].nearby
        && Transfer(cfg, Source(cfg, reached, y), RailStop(ds.stopList.entries[x].co)).interchangeCount < cfg.maxInterchanges)
  }

  /** `t` is what the interchange from the `i`-th stop `y` of `q` to `x`
      writes: `y` was recorded this round, and `t` is one interchange from
      `y`'s record, onto the sequence's own operator for a change of route
      or onto `x`'s operators for a walk. */
  ghost predicate InstalledBy(ds: Dataset, cfg: Config, reached: Frontier, q: StopSequence, i: nat, x: StopId, t: TimeState)
    requires i < |q.stops| && q.stops[i] in ds.stopList.entries && NearbyFit(ds)
  {
    var y := q.stops[i];
    && y in reached
    && t.interchangeCount < cfg.maxInterchanges
    && (|| (x == y && t == Transfer(cfg, reached[y], RailOperator(q.co)))
        || (x in ds.stopList.entries[y].nearby && t == Transfer(cfg, reached[y], RailStop(ds.stopList.entries[x].co))))
  }

  /** A stop this round did not record is past the budget: it offers nothing. */
  lemma UnrecordedOffersNothing(cfg: Config, reached: Frontier, s: StopId, train: bool)
    requires s !in reached
    ensures Transfer(cfg, Source(cfg, reached, s), train).interchangeCount >= cfg.maxInterchanges
  {
  }

  /** The nearby loop's effect on one stop `x`. */
  lemma {:induction false} NearbyEffect(ds: Dataset, cfg: Config, from: TimeState, nearby: seq<StopId>, next: Frontier, j: nat, x: StopId)
    requires j <= |nearby| && AllKnown(ds, nearby)
    ensures x in nearby[..j] && Transfer(cfg, from, RailStop(ds.stopList.entries[x].co)).interchangeCount < cfg.maxInterchanges ==>
              x in NearbyUpTo(ds, cfg, from, nearby, next, j)
              && NearbyUpTo(ds, cfg, from, nearby, next, j)[x] == Transfer(cfg, from, RailStop(ds.stopList.entries[x].co))
    ensures !(x in nearby[..j] && Transfer(cfg, from, RailStop(ds.stopList.entries[x].co)).interchangeCount < cfg.maxInterchanges) ==>
              (x in NearbyUpTo(ds, cfg, from, nearby, next, j) <==> x in next)
              && (x in next ==> NearbyUpTo(ds, cfg, from, nearby, next, j)[x] == next[x])
  {
    if j > 0 {
      NearbyEffect(ds, cfg, from, nearby, next, j - 1, x);
      assert nearby[..j] == nearby[..j - 1] + [nearby[j - 1]];
    }
  }

  /** One stop's effect on `x`: what it offers `x`, or what `next` had. */
  lemma StopEffect(ds: Dataset, cfg: Config, reached: Frontier, q: StopSequence, i: nat, next: Frontier, x: StopId)
    requires i < |q.stops| && q.stops[i] in ds.stopList.entries && NearbyFit(ds)
    ensures Offered(ds, cfg, reached, q, i, x) ==> x in StopTransfers(ds, cfg, reached, q.stops[i], q.co, next)
    ensures x in StopTransfers(ds, cfg, reached, q.stops[i], q.co, next) ==>
              || (x in next && StopTransfers(ds, cfg, reached, q.stops[i], q.co, next)[x] == next[x])
              || InstalledBy(ds, cfg, reached, q, i, x, StopTransfers(ds, cfg, reached, q.stops[i], q.co, next)[x])
  {
    var y := q.stops[i];
    var nearby := ds.stopList.entries[y].nearby;
    assert nearby[..|nearby|] == nearby;
    NearbyEffect(ds, cfg, Source(cfg, reached, y), nearby, next, |nearby|, x);
  }

  lemma {:induction false} SequenceSource(ds: Dataset, cfg: Config, reached: Frontier, q: StopSequence, next: Frontier, i: nat, x: StopId)
    returns (fromNext: bool, ii: nat)
    requires i <= |q.stops| && NearbyFit(ds)
    requires AllKnown(ds, q.stops)
    requires x in SequenceUpTo(ds, cfg, reached, q, next, i)
    ensures fromNext ==> x in next && SequenceUpTo(ds, cfg, reached, q, next, i)[x] == next[x]
    ensures !fromNext ==> ii < i && InstalledBy(ds, cfg, reached, q, ii, x, SequenceUpTo(ds, cfg, reached, q, next, i)[x])
  {
    if i == 0 {
      fromNext, ii := true, 0;
    } else {
      var prev := SequenceUpTo(ds, cfg, reached, q, next, i - 1);
      StopEffect(ds, cfg, reached, q, i - 1, prev, x);
      if InstalledBy(ds, cfg, reached, q, i - 1, x, SequenceUpTo(ds, cfg, reached, q, next, i)[x]) {
        fromNext, ii := false, i - 1;
      } else {
        fromNext, ii := SequenceSource(ds, cfg, reached, q, next, i - 1, x);
      }
    }
  }

  lemma {:induction false} FrontierSource(ds: Dataset, cfg: Config, reached: Frontier, seqs: seq<StopSequence>, k: nat, x: StopId)
    returns (kk: nat, ii: nat)
    requires k <= |seqs| && NearbyFit(ds) && StopsKnown(ds, seqs)
    requires x in FrontierUpTo(ds, cfg, reached, seqs, k)
    ensures kk < k && ii < |seqs[kk].stops|
    ensures InstalledBy(ds, cfg, reached, seqs[kk], ii, x, FrontierUpTo(ds, cfg, reached, seqs, k)[x])
  {
    var q := seqs[k - 1];
    assert AllKnown(ds, q.stops);
    var prev := FrontierUpTo(ds, cfg, reached, seqs, k - 1);
    var fromNext, i := SequenceSource(ds, cfg, reached, q, prev, |q.stops|, x);
    if fromNext {
      kk, ii := FrontierSource(ds, cfg, reached, seqs, k - 1, x);
    } else {
      kk, ii := k - 1, i;
    }
  }

  lemma {:induction false} SequenceKeeps(ds: Dataset, cfg: Config, reached: Frontier, q: StopSequence, next: Frontier,
                                         i: nat, i2: nat, x: StopId)
    requires i <= i2 <= |q.stops| && NearbyFit(ds) && AllKnown(ds, q.stops)
    requires x in SequenceUpTo(ds, cfg, reached, q, next, i)
    ensures x in SequenceUpTo(ds, cfg, reached, q, next, i2)
    decreases i2
  {
    if i < i2 {
      SequenceKeeps(ds, cfg, reached, q, next, i, i2 - 1, x);
    }
  }

  lemma {:induction false} FrontierKeeps(ds: Dataset, cfg: Config, reached: Frontier, seqs: seq<StopSequence>,
                                         k: nat, k2: nat, x: StopId)
    requires k <= k2 <= |seqs| && NearbyFit(ds) && StopsKnown(ds, seqs)
    requires x in FrontierUpTo(ds, cfg, reached, seqs, k)
    ensures x in FrontierUpTo(ds, cfg, reached, seqs, k2)
    decreases k2
  {
    if k < k2 {
      FrontierKeeps(ds, cfg, reached, seqs, k, k2 - 1, x);
    }
  }

  lemma FrontierIncludes(ds: Dataset, cfg: Config, reached: Frontier, seqs: seq<StopSequence>, k: nat, i: nat, x: StopId)
    requires NearbyFit(ds) && StopsKnown(ds, seqs)
    requires k < |seqs| && i < |seqs[k].stops| && Offered(ds, cfg, reached, seqs[k], i, x)
    ensures x in NextFrontier(ds, cfg, reached, seqs)
  {
    var q := seqs[k];
    assert AllKnown(ds, q.stops);
    var prev := FrontierUpTo(ds, cfg, reached, seqs, k);
    StopEffect(ds, cfg, reached, q, i, SequenceUpTo(ds, cfg, reached, q, prev, i), x);
    SequenceKeeps(ds, cfg, reached, q, prev, i + 1, |q.stops|, x);
    FrontierKeeps(ds, cfg, reached, seqs, k + 1, |seqs|, x);
  }

  /** What lines 195-222 put on the next frontier: exactly the stops some
      interchange within the budget reaches, each with the record of such an
      interchange from a stop recorded this round. */
  lemma NextFrontierExactly(ds: Dataset, cfg: Config, reached: Frontier, seqs: seq<StopSequence>, x: StopId)
    requires NearbyFit(ds) && StopsKnown(ds, seqs)
    ensures x in NextFrontier(ds, cfg, reached, seqs) <==>
              exists k, i :: 0 <= k < |seqs| && 0 <= i < |seqs[k].stops| && Offered(ds, cfg, reached, seqs[k], i, x)
    ensures x in NextFrontier(ds, cfg, reached, seqs) ==>
              exists k, i :: 0 <= k < |seqs| && 0 <= i < |seqs[k].stops|
                && InstalledBy(ds, cfg, reached, seqs[k], i, x, NextFrontier(ds, cfg, reached, seqs)[x])
  {
    if x in NextFrontier(ds, cfg, reached, seqs) {
      var k, i := FrontierSource(ds, cfg, reached, seqs, |seqs|, x);
      assert Offered(ds, cfg, reached, seqs[k], i, x);
    }
    if exists k, i :: 0 <= k < |seqs| && 0 <= i < |seqs[k].stops| && Offered(ds, cfg, reached, seqs[k], i, x) {
      var k, i :| 0 <= k < |seqs| && 0 <= i < |seqs[k].stops| && Offered(ds, cfg, reached, seqs[k], i, x);
      FrontierIncludes(ds, cfg, reached, seqs, k, i, x);
    }
  }

  /** Every entry of the next frontier is within the interchange budget. */
  lemma NextFrontierBounded(ds: Dataset, cfg: Config, reached: Frontier, seqs: seq<StopSequence>)
    requires NearbyFit(ds) && StopsKnown(ds, seqs)
    ensures Bounded(cfg, NextFrontier(ds, cfg, reached, seqs))
  {
    forall x | x in NextFrontier(ds, cfg, reached, seqs)
      ensures NextFrontier(ds, cfg, reached, seqs)[x].interchangeCount < cfg.maxInterchanges
    {
      var k, i := FrontierSource(ds, cfg, reached, seqs, |seqs|, x);
    }
  }

  /** What the `i`-th stop `y` of `q` leaves on `x` when it offers `x` an
      interchange within the budget: the change of route, which line 219
      writes after the walks, or else the walk to `x`. */
  ghost function OfferTo(ds: Dataset, cfg: Config, reached: Frontier, q: StopSequence, i: nat, x: StopId): TimeState
    requires i < |q.stops| && q.stops[i] in ds.stopList.entries && NearbyFit(ds)
    requires Offered(ds, cfg, reached, q, i, x)
  {
    var y := q.stops[i];
    var change := Transfer(cfg, Source(cfg, reached, y), RailOperator(q.co));
    if x == y && change.interchangeCount < cfg.maxInterchanges then change
    else Transfer(cfg, Source(cfg, reached, y), RailStop(ds.stopList.entries[x].co))
  }

  /** The position among the first `i` stops of `q` of the last one that
      offers `x` an interchange within the budget, or -1. */
  ghost function LastOfferIn(ds: Dataset, cfg: Config, reached: Frontier, q: StopSequence, x: StopId, i: nat): (j: int)
    requires i <= |q.stops| && NearbyFit(ds) && AllKnown(ds, q.stops)
    ensures -1 <= j < i
    ensures j >= 0 ==> Offered(ds, cfg, reached, q, j, x)
    ensures forall jj :: j < jj < i ==> !Offered(ds, cfg, reached, q, jj, x)
  {
    if i == 0 then -1
    else if Offered(ds, cfg, reached, q, i - 1, x) then i - 1
    else LastOfferIn(ds, cfg, reached, q, x, i - 1)
  }

  /** Some stop of the `k`-th boarded sequence offers `x` an interchange
      within the budget. */
  ghost predicate Installs(ds: Dataset, cfg: Config, reached: Frontier, seqs: seq<StopSequence>, k: nat, x: StopId)
    requires k < |seqs| && NearbyFit(ds) && StopsKnown(ds, seqs)
  {
    assert AllKnown(ds, seqs[k].stops);
    LastOfferIn(ds, cfg, reached, seqs[k], x, |seqs[k].stops|) >= 0
  }

  /** The position in `seqs[..k]` of the last sequence that installs `x`, or -1. */
  ghost function LastInstaller(ds: Dataset, cfg: Config, reached: Frontier, seqs: seq<StopSequence>, x: StopId, k: nat): (w: int)
    requires k <= |seqs| && NearbyFit(ds) && StopsKnown(ds, seqs)
    ensures -1 <= w < k
    ensures w >= 0 ==> Installs(ds, cfg, reached, seqs, w, x)
    ensures forall kk :: w < kk < k ==> !Installs(ds, cfg, reached, seqs, kk, x)
  {
    if k == 0 then -1
    else if Installs(ds, cfg, reached, seqs, k - 1, x) then k - 1
    else LastInstaller(ds, cfg, reached, seqs, x, k - 1)
  }

  /** One stop's effect on `x`: when it offers `x` an interchange, `x` holds
      that offer whatever it held before; otherwise `x` is untouched. */
  lemma StopOverwrites(ds: Dataset, cfg: Config, reached: Frontier, q: StopSequence, i: nat, next: Frontier, x: StopId)
    requires i < |q.stops| && q.stops[i] in ds.stopList.entries && NearbyFit(ds)
    ensures Offered(ds, cfg, reached, q, i, x) ==>
              x in StopTransfers(ds, cfg, reached, q.stops[i], q.co, next)
              && StopTransfers(ds, cfg, reached, q.stops[i], q.co, next)[x] == OfferTo(ds, cfg, reached, q, i, x)
    ensures !Offered(ds, cfg, reached, q, i, x) ==>
              (x in StopTransfers(ds, cfg, reached, q.stops[i], q.co, next) <==> x in next)
              && (x in next ==> StopTransfers(ds, cfg, reached, q.stops[i], q.co, next)[x] == next[x])
  {
    var y := q.stops[i];
    var nearby := ds.stopList.entries[y].nearby;
    assert nearby[..|nearby|] == nearby;
    NearbyEffect(ds, cfg, Source(cfg, reached, y), nearby, next, |nearby|, x);
  }

  /** A sequence none of whose stops offers `x` an interchange leaves `x`
      as it was. */
  lemma {:induction false} SequenceUntouched(ds: Dataset, cfg: Config, reached: Frontier, q: StopSequence, next: Frontier,
                                             i: nat, x: StopId)
    requires i <= |q.stops| && NearbyFit(ds) && AllKnown(ds, q.stops)
    ensures LastOfferIn(ds, cfg, reached, q, x, i) == -1 ==>
              (x in SequenceUpTo(ds, cfg, reached, q, next, i) <==> x in next)
              && (x in next ==> SequenceUpTo(ds, cfg, reached, q, next, i)[x] == next[x])
  {
    if i > 0 && LastOfferIn(ds, cfg, reached, q, x, i) == -1 {
      var prev := SequenceUpTo(ds, cfg, reached, q, next, i - 1);
      StopOverwrites(ds, cfg, reached, q, i - 1, prev, x);
      SequenceUntouched(ds, cfg, reached, q, next, i - 1, x);
    }
  }

  /** One sequence's effect on `x`: the last of its stops to offer `x` an
      interchange decides what `x` holds. */
  lemma {:induction false} SequenceOverwrites(ds: Dataset, cfg: Config, reached: Frontier, q: StopSequence, next: Frontier,
                                              i: nat, x: StopId)
    requires i <= |q.stops| && NearbyFit(ds) && AllKnown(ds, q.stops)
    ensures LastOfferIn(ds, cfg, reached, q, x, i) >= 0 ==>
              x in SequenceUpTo(ds, cfg, reached, q, next, i)
              && SequenceUpTo(ds, cfg, reached, q, next, i)[x]
                 == OfferTo(ds, cfg, reached, q, LastOfferIn(ds, cfg, reached, q, x, i), x)
  {
    if i > 0 && LastOfferIn(ds, cfg, reached, q, x, i) >= 0 {
      var prev := SequenceUpTo(ds, cfg, reached, q, next, i - 1);
      StopOverwrites(ds, cfg, reached, q, i - 1, prev, x);
      if !Offered(ds, cfg, reached, q, i - 1, x) {
        SequenceOverwrites(ds, cfg, reached, q, next, i - 1, x);
      }
    }
  }

  /** The round's effect on `x` after `k` sequences: the last sequence to
      install `x`, at its last offering stop, decides what `x` holds. */
  lemma {:induction false} FrontierOverwrites(ds: Dataset, cfg: Config, reached: Frontier, seqs: seq<StopSequence>,
                                              k: nat, x: StopId)
    requires k <= |seqs| && NearbyFit(ds) && StopsKnown(ds, seqs)
    ensures LastInstaller(ds, cfg, reached, seqs, x, k) == -1 ==> x !in FrontierUpTo(ds, cfg, reached, seqs, k)
    ensures LastInstaller(ds, cfg, reached, seqs, x, k) >= 0 ==>
              var q := seqs[LastInstaller(ds, cfg, reached, seqs, x, k)];
              assert AllKnown(ds, q.stops);
              && x in FrontierUpTo(ds, cfg, reached, seqs, k)
              && FrontierUpTo(ds, cfg, reached, seqs, k)[x]
                 == OfferTo(ds, cfg, reached, q, LastOfferIn(ds, cfg, reached, q, x, |q.stops|), x)
  {
    if k > 0 {
      var q := seqs[k - 1];
      assert AllKnown(ds, q.stops);
      FrontierOverwrites(ds, cfg, reached, seqs, k - 1, x);
      SequenceOverwrites(ds, cfg, reached, q, FrontierUpTo(ds, cfg, reached, seqs, k - 1), |q.stops|, x);
      SequenceUntouched(ds, cfg, reached, q, FrontierUpTo(ds, cfg, reached, seqs, k - 1), |q.stops|, x);
    }
  }

  /** Lines 195-222 keep the LAST interchange written to a stop, not the best
      one: a stop on the next frontier holds the offer of the last boarded
      sequence that offers it anything, made by that sequence's last offering
      stop, and no later stop of any sequence offers it anything. */
  lemma NextFrontierLastWins(ds: Dataset, cfg: Config, reached: Frontier, seqs: seq<StopSequence>, x: StopId)
    requires NearbyFit(ds) && StopsKnown(ds, seqs)
    ensures x in NextFrontier(ds, cfg, reached, seqs) <==> LastInstaller(ds, cfg, reached, seqs, x, |seqs|) >= 0
    ensures x in NextFrontier(ds, cfg, reached, seqs) ==>
              var w := LastInstaller(ds, cfg, reached, seqs, x, |seqs|);
              var q := seqs[w];
              assert AllKnown(ds, q.stops);
              var j := LastOfferIn(ds, cfg, reached, q, x, |q.stops|);
              && 0 <= j < |q.stops| && Offered(ds, cfg, reached, q, j, x)
              && (forall i :: j < i < |q.stops| ==> !Offered(ds, cfg, reached, q, i, x))
              && (forall k, i :: w < k < |seqs| && 0 <= i < |seqs[k].stops| ==> !Offered(ds, cfg, reached, seqs[k], i, x))
              && NextFrontier(ds, cfg, reached, seqs)[x] == OfferTo(ds, cfg, reached, q, j, x)
  {
    FrontierOverwrites(ds, cfg, reached, seqs, |seqs|, x);
    var w := LastInstaller(ds, cfg, reached, seqs, x, |seqs|);
    forall k, i | w < k < |seqs| && 0 <= i < |seqs[k].stops|
      ensures !Offered(ds, cfg, reached, seqs[k], i, x)
    {
      assert !Installs(ds, cfg, reached, seqs, k, x);
      assert AllKnown(ds, seqs[k].stops);
    }
    if w >= 0 {
      var q := seqs[w];
      assert AllKnown(ds, q.stops);
      assert Installs(ds, cfg, reached, seqs, w, x);
    }
  }

  /** Lines 203-214 for one stop. */
  method OfferNearby(ds: Dataset, cfg: Config, from: TimeState, nearby: seq<StopId>, next0: Frontier)
    returns (next: Frontier)
    requires AllKnown(ds, nearby)
    ensures next == NearbyUpTo(ds, cfg, from, nearby, next0, |nearby|)
  {
    next := next0;
    var j := 0;
    while j < |nearby|
      invariant 0 <= j <= |nearby|
      invariant next == NearbyUpTo(ds, cfg, from, nearby, next0, j)
    {
      var nearbyStopId := nearby[j];
      var nearbyStopCo := ds.stopList.entries[nearbyStopId].co;
      var isTrain := "mtr" in nearbyStopCo || "lightRail" in nearbyStopCo;
      var interchangeTime := if isTrain then cfg.interchangeTimeForTrains else cfg.interchangeTimes;
      var nextInterchangeCount := from.interchangeCount + (if isTrain then 0 else 1);
      if nextInterchangeCount < cfg.maxInterchanges {
        next := next[nearbyStopId := TimeState(from.travelTime + interchangeTime, nextInterchangeCount)];
      }
      j := j + 1;
    }
  }

  /** Lines 198-220 for one stop of a sequence run by `co`. */
  method StopStep(ds: Dataset, cfg: Config, stopIdData: Frontier, stopId: StopId, co: Operator, next0: Frontier)
    returns (next: Frontier)
    requires NearbyFit(ds) && stopId in ds.stopList.entries
    ensures next == StopTransfers(ds, cfg, stopIdData, stopId, co, next0)
  {
    var stop := ds.stopList.entries[stopId];
    var from := if stopId in stopIdData then stopIdData[stopId] else TimeState(MaxSafeInteger, cfg.maxInterchanges);
    next := OfferNearby(ds, cfg, from, stop.nearby, next0);
    var isTrain := co == "mtr" || co == "lightRail";
    var interchangeTime := if isTrain then cfg.interchangeTimeForTrains else cfg.interchangeTimes;
    var nextInterchangeCount := from.interchangeCount + (if isTrain then 0 else 1);
    if nextInterchangeCount < cfg.maxInterchanges {
      next := next[stopId := TimeState(from.travelTime + interchangeTime, nextInterchangeCount)];
    }
  }

  /** Lines 196-221 for one boarded sequence. */
  method SequenceTransfers(ds: Dataset, cfg: Config, stopIdData: Frontier, q: StopSequence, next0: Frontier)
    returns (next: Frontier)
    requires NearbyFit(ds) && AllKnown(ds, q.stops)
    ensures next == SequenceUpTo(ds, cfg, stopIdData, q, next0, |q.stops|)
  {
    next := next0;
    var i := 0;
    while i < |q.stops|
      invariant 0 <= i <= |q.stops|
      invariant next == SequenceUpTo(ds, cfg, stopIdData, q, next0, i)
    {
      next := StopStep(ds, cfg, stopIdData, q.stops[i], q.co, next);
      i := i + 1;
    }
  }

  /** Lines 195-222: `nextStartStops`. */
  method NextStartStops(ds: Dataset, cfg: Config, stopIdData: Frontier, stopSequenceList: seq<StopSequence>)
    returns (nextStartStops: Frontier)
    requires NearbyFit(ds) && StopsKnown(ds, stopSequenceList)
    ensures nextStartStops == NextFrontier(ds, cfg, stopIdData, stopSequenceList)
    ensures Bounded(cfg, nextStartStops)
  {
    nextStartStops := map[];
    var k := 0;
    while k < |stopSequenceList|
      invariant 0 <= k <= |stopSequenceList|
      invariant nextStartStops == FrontierUpTo(ds, cfg, stopIdData, stopSequenceList, k)
    {
      var q := stopSequenceList[k];
      assert AllKnown(ds, q.stops);
      nextStartStops := SequenceTransfers(ds, cfg, stopIdData, q, nextStartStops);
      k := k + 1;
    }
    NextFrontierBounded(ds, cfg, stopIdData, stopSequenceList);
  }
}
