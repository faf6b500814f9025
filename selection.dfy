/** Route selection, the first phase of a propagation round
    (main.js:141-169): every route not seen before is boarded, on each of
    its enabled operators' sequences, at the furthest-along frontier stop. */
module Selection {
  import opened Dicts
  import opened Transit
  import opened Seqs

  /** `s.indexOf(x)`: the first position of `x` in `s`, or -1. */
  function IndexOf(s: seq<StopId>, x: StopId): (r: int)
    ensures -1 <= r < |s|
    ensures r == -1 <==> x !in s
    ensures r >= 0 ==> s[r] == x && x !in s[..r]
  {
    if |s| == 0 then -1
    else if s[0] == x then 0
    else
      var r := IndexOf(s[1..], x);
      if r == -1 then -1
      else
        assert s[..r + 1] == [s[0]] + s[1..][..r];
        r + 1
  }

  /** The largest position below `i` at which `s` holds a key of `keys` for
      the first time, or -1. */
  function LastBoarding(s: seq<StopId>, keys: set<StopId>, i: nat): (h: int)
    requires i <= |s|
    ensures -1 <= h < i
    ensures h >= 0 ==> s[h] in keys
    decreases i
  {
    if i == 0 then -1
    else if s[i - 1] in keys && IndexOf(s, s[i - 1]) == i - 1 then i - 1
    else LastBoarding(s, keys, i - 1)
  }

  /** `highestIndex` after the loop at main.js:150-156. */
  function BoardingIndex(s: seq<StopId>, keys: set<StopId>): (h: int)
    ensures -1 <= h < |s|
    ensures h >= 0 ==> s[h] in keys
  {
    LastBoarding(s, keys, |s|)
  }

  lemma {:induction false} LastBoardingIsMaximum(s: seq<StopId>, keys: set<StopId>, i: nat, k: StopId)
    requires i <= |s|
    requires k in keys && IndexOf(s, k) < i
    ensures IndexOf(s, k) <= LastBoarding(s, keys, i)
    ensures LastBoarding(s, keys, i) >= 0 ==> IndexOf(s, s[LastBoarding(s, keys, i)]) == LastBoarding(s, keys, i)
    decreases i
  {
    if i > 0 && !(s[i - 1] in keys && IndexOf(s, s[i - 1]) == i - 1) {
      if IndexOf(s, k) != i - 1 {
        LastBoardingIsMaximum(s, keys, i - 1, k);
      }
    }
  }

  lemma {:induction false} LastBoardingFirst(s: seq<StopId>, keys: set<StopId>, i: nat)
    requires i <= |s|
    ensures LastBoarding(s, keys, i) >= 0 ==> IndexOf(s, s[LastBoarding(s, keys, i)]) == LastBoarding(s, keys, i)
    decreases i
  {
    if i > 0 && !(s[i - 1] in keys && IndexOf(s, s[i - 1]) == i - 1) {
      LastBoardingFirst(s, keys, i - 1);
    }
  }

  /** The boarding position is the largest `indexOf` of a frontier stop, and
      it is -1 exactly when no frontier stop is on the sequence. */
  lemma BoardingIndexIsMaximum(s: seq<StopId>, keys: set<StopId>)
    ensures forall k :: k in keys ==> IndexOf(s, k) <= BoardingIndex(s, keys)
    ensures BoardingIndex(s, keys) >= 0 ==> IndexOf(s, s[BoardingIndex(s, keys)]) == BoardingIndex(s, keys)
    ensures BoardingIndex(s, keys) == -1 <==> forall k :: k in keys ==> k !in s
  {
    forall k | k in keys
      ensures IndexOf(s, k) <= BoardingIndex(s, keys)
    {
      LastBoardingIsMaximum(s, keys, |s|, k);
    }
    LastBoardingFirst(s, keys, |s|);
  }

  /** The loop at main.js:150-156, over the frontier's keys in any order. */
  method HighestIndex(stopsByCo: seq<StopId>, startStops: Frontier) returns (highestIndex: int)
    ensures highestIndex == BoardingIndex(stopsByCo, startStops.Keys)
  {
    highestIndex := -1;
    var pending := startStops.Keys;
    while pending != {}
      invariant pending <= startStops.Keys
      invariant -1 <= highestIndex
      invariant forall k :: k in startStops.Keys - pending ==> IndexOf(stopsByCo, k) <= highestIndex
      invariant highestIndex >= 0 ==>
                  exists k :: k in startStops.Keys - pending && IndexOf(stopsByCo, k) == highestIndex
      decreases pending
    {
      var stopId :| stopId in pending;
      var index := IndexOf(stopsByCo, stopId);
      if index > highestIndex {
        highestIndex := index;
      }
      pending := pending - {stopId};
    }
    BoardingIndexIsMaximum(stopsByCo, startStops.Keys);
  }

  /** Lines 147-163 for one operator `op` of `route`: the suffix of that
      operator's sequence from the boarding position, if it is boarded.
      (`stops` is always present; an operator without a sequence is skipped.) */
  function OperatorSequence(route: Route, modes: set<Operator>, keys: set<StopId>, op: Operator): seq<StopSequence>
  {
    if op in modes && op in route.stops.entries then
      var stopsByCo := route.stops.entries[op];
      var h := BoardingIndex(stopsByCo, keys);
      if h >= 0 then [StopSequence(stopsByCo[h..], op)] else []
    else []
  }

  /** The sequences `route` contributes from its first `j` operators. */
  function RouteSequences(route: Route, modes: set<Operator>, keys: set<StopId>, j: nat): seq<StopSequence>
    requires j <= |route.co|
  {
    if j == 0 then []
    else RouteSequences(route, modes, keys, j - 1) + OperatorSequence(route, modes, keys, route.co[j - 1])
  }

  /** What the `i`-th route of `routeList` contributes: nothing if it was seen. */
  function SelectedAt(routeList: Dict<RouteId, Route>, seen: set<RouteId>, modes: set<Operator>,
                      keys: set<StopId>, i: nat): seq<StopSequence>
    requires Valid(routeList) && i < |routeList.keys|
  {
    var routeKey := routeList.keys[i];
    if routeKey in seen then []
    else
      var route := routeList.entries[routeKey];
      RouteSequences(route, modes, keys, |route.co|)
  }

  /** What each of the first `i` routes of `routeList` contributes, in key
      order: `stopSequenceList` after them is the concatenation of these. */
  function Contributions(routeList: Dict<RouteId, Route>, seen: set<RouteId>, modes: set<Operator>,
                         keys: set<StopId>, i: nat): (chunks: seq<seq<StopSequence>>)
    requires Valid(routeList) && i <= |routeList.keys|
    ensures |chunks| == i
    ensures forall t :: 0 <= t < i ==> chunks[t] == SelectedAt(routeList, seen, modes, keys, t)
  {
    if i == 0 then [] else Contributions(routeList, seen, modes, keys, i - 1) + [SelectedAt(routeList, seen, modes, keys, i - 1)]
  }

  /** The keys pushed onto `nextSeenRouts` when the routes `routeKeys`
      contribute `chunks`: those whose contribution is not empty. */
  function Boarders(routeKeys: seq<RouteId>, chunks: seq<seq<StopSequence>>): set<RouteId>
    requires |chunks| <= |routeKeys|
  {
    if chunks == [] then {}
    else
      Boarders(routeKeys, chunks[..|chunks| - 1])
      + (if chunks[|chunks| - 1] != [] then {routeKeys[|chunks| - 1]} else {})
  }

  lemma BoardersAppend(routeKeys: seq<RouteId>, chunks: seq<seq<StopSequence>>, last: seq<StopSequence>)
    requires |chunks| < |routeKeys|
    ensures Boarders(routeKeys, chunks + [last]) == Boarders(routeKeys, chunks) + (if last != [] then {routeKeys[|chunks|]} else {})
  {
    assert (chunks + [last])[..|chunks|] == chunks;
  }

  /** The sequences one round boards. */
  function Sequences(ds: Dataset, cfg: Config, startStops: Frontier, seen: set<RouteId>): seq<StopSequence>
    requires Valid(ds.routeList)
  {
    Flatten(Contributions(ds.routeList, seen, cfg.modes, startStops.Keys, |ds.routeList.keys|))
  }

  /** The routes one round adds to `seenRoutes`. */
  function NewlySeen(ds: Dataset, cfg: Config, startStops: Frontier, seen: set<RouteId>): set<RouteId>
    requires Valid(ds.routeList)
  {
    Boarders(ds.routeList.keys, Contributions(ds.routeList, seen, cfg.modes, startStops.Keys, |ds.routeList.keys|))
  }

  /** Lines 147-163 for the `j`-th operator of `route`: push its sequence
      from the boarding position, if it has one. */
  method BoardOperator(route: Route, modes: set<Operator>, startStops: Frontier, j: nat, boarded0: seq<StopSequence>)
    returns (boarded: seq<StopSequence>)
    requires j < |route.co| && boarded0 == RouteSequences(route, modes, startStops.Keys, j)
    ensures boarded == RouteSequences(route, modes, startStops.Keys, j + 1)
  {
    var operator := route.co[j];
    boarded := boarded0;
    if operator in modes && operator in route.stops.entries {
      var stopsByCo := route.stops.entries[operator];
      var highestIndex := HighestIndex(stopsByCo, startStops);
      if highestIndex >= 0 {
        boarded := boarded + [StopSequence(stopsByCo[highestIndex..], operator)];
      }
    }
  }

  /** Lines 146-166 for one unseen route: every enabled operator whose
      sequence holds a frontier stop is boarded at the boarding position. */
  method BoardRoute(route: Route, modes: set<Operator>, startStops: Frontier) returns (boarded: seq<StopSequence>)
    ensures boarded == RouteSequences(route, modes, startStops.Keys, |route.co|)
  {
    boarded := [];
    var j := 0;
    while j < |route.co|
      invariant 0 <= j <= |route.co|
      invariant boarded == RouteSequences(route, modes, startStops.Keys, j)
    {
      boarded := BoardOperator(route, modes, startStops, j, boarded);
      j := j + 1;
    }
  }

  /** The two results of the loop at lines 143-167 after its first `i` routes. */
  predicate SelectedUpTo(routeList: Dict<RouteId, Route>, seen: set<RouteId>, modes: set<Operator>, keys: set<StopId>,
                         i: nat, stopSequenceList: seq<StopSequence>, nextSeenRouts: set<RouteId>)
    requires Valid(routeList) && i <= |routeList.keys|
  {
    var chunks := Contributions(routeList, seen, modes, keys, i);
    stopSequenceList == Flatten(chunks) && nextSeenRouts == Boarders(routeList.keys, chunks)
  }

  /** One more route extends both results by its contribution. */
  lemma SelectStep(routeList: Dict<RouteId, Route>, seen: set<RouteId>, modes: set<Operator>, keys: set<StopId>,
                   i: nat, stopSequenceList: seq<StopSequence>, nextSeenRouts: set<RouteId>, boarded: seq<StopSequence>)
    requires Valid(routeList) && i < |routeList.keys|
    requires SelectedUpTo(routeList, seen, modes, keys, i, stopSequenceList, nextSeenRouts)
    requires boarded == SelectedAt(routeList, seen, modes, keys, i)
    ensures boarded != [] ==> SelectedUpTo(routeList, seen, modes, keys, i + 1, stopSequenceList + boarded, nextSeenRouts + {routeList.keys[i]})
    ensures boarded == [] ==> SelectedUpTo(routeList, seen, modes, keys, i + 1, stopSequenceList + boarded, nextSeenRouts)
  {
    var chunks := Contributions(routeList, seen, modes, keys, i);
    assert Contributions(routeList, seen, modes, keys, i + 1) == chunks + [boarded];
    FlattenAppend(chunks, boarded);
    BoardersAppend(routeList.keys, chunks, boarded);
    if boarded == [] {
      assert nextSeenRouts + {} == nextSeenRouts;
    }
  }

  /** Lines 144-166 for the `i`-th route of `routeList`. */
  method VisitRoute(routeList: Dict<RouteId, Route>, seen: set<RouteId>, modes: set<Operator>, startStops: Frontier, i: nat,
                    stopSequenceList0: seq<StopSequence>, nextSeenRouts0: set<RouteId>)
    returns (stopSequenceList: seq<StopSequence>, nextSeenRouts: set<RouteId>)
    requires Valid(routeList) && i < |routeList.keys|
    requires SelectedUpTo(routeList, seen, modes, startStops.Keys, i, stopSequenceList0, nextSeenRouts0)
    ensures SelectedUpTo(routeList, seen, modes, startStops.Keys, i + 1, stopSequenceList, nextSeenRouts)
  {
    var routeKey := routeList.keys[i];
    var boarded: seq<StopSequence> := [];
    if routeKey !in seen {
      boarded := BoardRoute(routeList.entries[routeKey], modes, startStops);
    }
    SelectStep(routeList, seen, modes, startStops.Keys, i, stopSequenceList0, nextSeenRouts0, boarded);
    stopSequenceList, nextSeenRouts := stopSequenceList0 + boarded, nextSeenRouts0;
    if boarded != [] {
      nextSeenRouts := nextSeenRouts + {routeKey};
    }
  }

  /** Lines 141-169: the boarded sequences and `seenRoutes` after line 169.
      The source pushes the route key once per boarded sequence; pushing it
      once per boarding route adds the same keys to the set. */
  method SelectRoutes(ds: Dataset, cfg: Config, startStops: Frontier, seen: set<RouteId>)
    returns (stopSequenceList: seq<StopSequence>, seenRoutes: set<RouteId>)
    requires Valid(ds.routeList)
    ensures stopSequenceList == Sequences(ds, cfg, startStops, seen)
    ensures seenRoutes == seen + NewlySeen(ds, cfg, startStops, seen)
  {
    var routeList, modes := ds.routeList, cfg.modes;
    stopSequenceList := [];
    var nextSeenRouts: set<RouteId> := {};
    var i := 0;
    while i < |routeList.keys|
      invariant 0 <= i <= |routeList.keys|
      invariant SelectedUpTo(routeList, seen, modes, startStops.Keys, i, stopSequenceList, nextSeenRouts)
    {
      stopSequenceList, nextSeenRouts := VisitRoute(routeList, seen, modes, startStops, i, stopSequenceList, nextSeenRouts);
      i := i + 1;
    }
    seenRoutes := seen + nextSeenRouts;
  }

  /** How `q` can come out of route selection: from an unseen route and one
      of its operators. */
  ghost predicate Boarded(ds: Dataset, modes: set<Operator>, keys: set<StopId>, seen: set<RouteId>, q: StopSequence) {
    exists r, op :: r in ds.routeList.entries && r !in seen && op in ds.routeList.entries[r].co
      && q in OperatorSequence(ds.routeList.entries[r], modes, keys, op)
  }

  lemma {:induction false} RouteSequenceSource(route: Route, modes: set<Operator>, keys: set<StopId>, j: nat, q: StopSequence)
    returns (jj: nat)
    requires j <= |route.co| && q in RouteSequences(route, modes, keys, j)
    ensures jj < j && q in OperatorSequence(route, modes, keys, route.co[jj])
  {
    var prev := RouteSequences(route, modes, keys, j - 1);
    assert RouteSequences(route, modes, keys, j) == prev + OperatorSequence(route, modes, keys, route.co[j - 1]);
    if q in prev {
      jj := RouteSequenceSource(route, modes, keys, j - 1, q);
    } else {
      jj := j - 1;
    }
  }

  lemma {:induction false} RouteSequenceIncludes(route: Route, modes: set<Operator>, keys: set<StopId>, j: nat, jj: nat, q: StopSequence)
    requires jj < j <= |route.co| && q in OperatorSequence(route, modes, keys, route.co[jj])
    ensures q in RouteSequences(route, modes, keys, j)
  {
    var prev, last := RouteSequences(route, modes, keys, j - 1), OperatorSequence(route, modes, keys, route.co[j - 1]);
    assert RouteSequences(route, modes, keys, j) == prev + last;
    if jj < j - 1 {
      RouteSequenceIncludes(route, modes, keys, j - 1, jj, q);
      assert q in prev;
    } else {
      assert q in last;
    }
  }

  /** A position at which `q` occurs in `s`. */
  lemma SequenceIndex(s: seq<StopSequence>, q: StopSequence) returns (j: nat)
    requires q in s
    ensures j < |s| && s[j] == q
  {
    j :| 0 <= j < |s| && s[j] == q;
  }

  /** The unseen route and the operator a boarded sequence comes from. */
  lemma SequenceOrigin(ds: Dataset, cfg: Config, startStops: Frontier, seen: set<RouteId>, q: StopSequence)
    returns (r: RouteId, op: Operator)
    requires Valid(ds.routeList) && q in Sequences(ds, cfg, startStops, seen)
    ensures r in ds.routeList.entries && r !in seen && op in ds.routeList.entries[r].co
    ensures q in OperatorSequence(ds.routeList.entries[r], cfg.modes, startStops.Keys, op)
  {
    var routeList, modes, keys := ds.routeList, cfg.modes, startStops.Keys;
    var chunks := Contributions(routeList, seen, modes, keys, |routeList.keys|);
    var idx := SequenceIndex(Flatten(chunks), q);
    var ii, j := FlattenSource(chunks, idx);
    assert q in SelectedAt(routeList, seen, modes, keys, ii);
    r := routeList.keys[ii];
    var route := routeList.entries[r];
    var jj := RouteSequenceSource(route, modes, keys, |route.co|, q);
    op := route.co[jj];
  }

  /** Every unseen route's enabled, boardable sequence is boarded. */
  lemma BoardedIsSelected(ds: Dataset, cfg: Config, startStops: Frontier, seen: set<RouteId>, q: StopSequence)
    requires Valid(ds.routeList) && Boarded(ds, cfg.modes, startStops.Keys, seen, q)
    ensures q in Sequences(ds, cfg, startStops, seen)
  {
    var routeList, modes, keys := ds.routeList, cfg.modes, startStops.Keys;
    var r, op :| r in routeList.entries && r !in seen && op in routeList.entries[r].co
      && q in OperatorSequence(routeList.entries[r], modes, keys, op);
    var route := routeList.entries[r];
    var ii :| 0 <= ii < |routeList.keys| && routeList.keys[ii] == r;
    var jj :| 0 <= jj < |route.co| && route.co[jj] == op;
    RouteSequenceIncludes(route, modes, keys, |route.co|, jj, q);
    var here := SelectedAt(routeList, seen, modes, keys, ii);
    var j := SequenceIndex(here, q);
    var idx := FlattenIncludes(Contributions(routeList, seen, modes, keys, |routeList.keys|), ii, j);
  }

  /** A boarded sequence is the suffix of an unseen route's enabled operator
      sequence from the boarding position, and every unseen route's enabled,
      boardable sequence is boarded. A boarded sequence starts at a frontier
      stop, so the lookup `startStops[stops[0]]` at main.js:178 is defined. */
  lemma SelectedSequencesAreBoarded(ds: Dataset, cfg: Config, startStops: Frontier, seen: set<RouteId>, q: StopSequence)
    requires Valid(ds.routeList)
    ensures q in Sequences(ds, cfg, startStops, seen) <==> Boarded(ds, cfg.modes, startStops.Keys, seen, q)
    ensures q in Sequences(ds, cfg, startStops, seen) ==> |q.stops| >= 1 && q.stops[0] in startStops
  {
    if q in Sequences(ds, cfg, startStops, seen) {
      var r, op := SequenceOrigin(ds, cfg, startStops, seen, q);
      assert Boarded(ds, cfg.modes, startStops.Keys, seen, q);
    }
    if Boarded(ds, cfg.modes, startStops.Keys, seen, q) {
      BoardedIsSelected(ds, cfg, startStops, seen, q);
    }
  }

  /** Route `r` contributes a sequence exactly when it is unseen and one of
      its enabled operators' sequences holds a frontier stop. */
  predicate Contributes(routeList: Dict<RouteId, Route>, seen: set<RouteId>, modes: set<Operator>,
                        keys: set<StopId>, r: RouteId)
    requires r in routeList.entries
  {
    r !in seen && RouteSequences(routeList.entries[r], modes, keys, |routeList.entries[r].co|) != []
  }

  /** A key is pushed exactly when its route's contribution is not empty. */
  lemma {:induction false} BoardersMember(routeKeys: seq<RouteId>, chunks: seq<seq<StopSequence>>, r: RouteId)
    requires |chunks| <= |routeKeys|
    ensures r in Boarders(routeKeys, chunks) <==> exists t :: 0 <= t < |chunks| && routeKeys[t] == r && chunks[t] != []
  {
    if chunks != [] {
      var n := |chunks|;
      var init := chunks[..n - 1];
      BoardersMember(routeKeys, init, r);
      if t :| 0 <= t < n && routeKeys[t] == r && chunks[t] != [] {
        if t < n - 1 {
          assert init[t] == chunks[t];
        }
      }
      if t :| 0 <= t < n - 1 && routeKeys[t] == r && init[t] != [] {
        assert chunks[t] == init[t];
      }
    }
  }

  /** No key is pushed exactly when no sequence is. */
  lemma {:induction false} BoardersEmpty(routeKeys: seq<RouteId>, chunks: seq<seq<StopSequence>>)
    requires |chunks| <= |routeKeys|
    ensures Boarders(routeKeys, chunks) == {} <==> Flatten(chunks) == []
  {
    if chunks != [] {
      var n := |chunks|;
      var init, last := chunks[..n - 1], chunks[n - 1];
      BoardersEmpty(routeKeys, init);
      assert |Flatten(init) + last| == |Flatten(init)| + |last|;
      if last != [] {
        assert routeKeys[n - 1] in Boarders(routeKeys, chunks);
      }
    }
  }

  /** Line 169: the routes added to `seenRoutes` are exactly the unseen
      routes that contributed a sequence, and there is one iff some sequence
      was boarded. */
  lemma NewlySeenRoutes(ds: Dataset, cfg: Config, startStops: Frontier, seen: set<RouteId>)
    requires Valid(ds.routeList)
    ensures forall r :: r in NewlySeen(ds, cfg, startStops, seen) <==>
              r in ds.routeList.entries && Contributes(ds.routeList, seen, cfg.modes, startStops.Keys, r)
    ensures NewlySeen(ds, cfg, startStops, seen) == {} <==> Sequences(ds, cfg, startStops, seen) == []
  {
    var routeList, modes, keys := ds.routeList, cfg.modes, startStops.Keys;
    var chunks := Contributions(routeList, seen, modes, keys, |routeList.keys|);
    forall r
      ensures r in NewlySeen(ds, cfg, startStops, seen) <==> r in routeList.entries && Contributes(routeList, seen, modes, keys, r)
    {
      BoardersMember(routeList.keys, chunks, r);
      if r in routeList.entries && Contributes(routeList, seen, modes, keys, r) {
        var t :| 0 <= t < |routeList.keys| && routeList.keys[t] == r;
        assert chunks[t] == SelectedAt(routeList, seen, modes, keys, t);
      }
    }
    BoardersEmpty(routeList.keys, chunks);
  }
}
