# Hong Kong journey-time heat map, modelled in Dafny

The repository has two programs.

- **`data_merging.py` builds the dataset.** It reads the published route and stop lists. It keeps the routes that have stops and collects the stops those routes visit, with the operators that serve each. It records the journey time of every leg from the journey-time server, fetching one file per two-character stop-id prefix and caching each file. It gives every stop the list of other stops within 0.3 km.
- **`main.js` uses that dataset in a browser page.** Given an origin, the page finds the stops within walking distance and seeds a frontier with their walking times. It then propagates travel times in rounds: it boards every unseen route at the furthest frontier stop, rides it and accumulates journey times, then builds the next frontier from interchanges. It merges the rounds' heat maps, keeping the lower time. Finally it resolves the time at any point of the map from the nearest points plus the walk from them.

## How the code is shaped

The model follows the code's own shape.

- **Loops.** Each loop of the source that builds a result step by step is a `method` with a `while` loop. The method is proved equal to a recursive specification function over a prefix of its input, such as `Selection.Contributions`, `Accumulate.RideUpTo`, `StopTable.SectionStops` or `LegTable.SectionLegs`. Two loops are expressions instead. The `forEach` that adds `nextSeenRouts` to `seenRoutes` (main.js:169) is the set union in `Selection.SelectRoutes`. The `any(...)` test of data_merging.py:45 is the predicate `Sections.Kept`.
- **Lemmas.** What the source promises is proved about those functions as pointwise lemmas: exactly which keys are present, and what each holds.
- **Python dictionaries** are `Dicts.Dict` values: a key order plus a map, because `routeList.items()`, `stopList` and the route's `stops` are iterated in insertion order.
- **The journey-time cache** is a class `JourneyCache.JourneyTimeCache`. Its field `buckets` is updated in place. The server is a function `Remote` that returns a file or a failure.
- **The page's mutable maps** (`startStops`, `stopIdData`, `nextStartStops`, `heatmapData`) are `map` values threaded through the loops.

Two results tie the programs together:

- `Pipeline.PublishedWellFormed` proves that the dataset `data_merging.py` writes satisfies `Transit.WellFormed`.
- `WellFormed` is what `main.js` relies on without checking: every stop of a route is in `stopList`, every non-final stop has a journey-time entry, and every `nearby` stop is in `stopList`.

## Model

| member | source | states |
|---|---|---|
| Dicts.Empty | data_merging.py:40-42 | an empty dictionary is valid and holds nothing |
| Dicts.Put | data_merging.py:46 | assigning a key keeps the dictionary valid, replaces the key's value, keeps an existing key's position and appends a new key last |
| Geo.WalkTime | main.js:93-96 | the walking time times the speed in km/h is 3600 times the distance, and a non-negative distance takes no negative time |
| Geo.WalkTimeMonotonic | main.js:93-96 | walking further never takes less time |
| Geo.IntensityByDistance | main.js:88-91 | intensity is 0 at or beyond the maximum distance, lies in [0, 1], is positive exactly below the maximum and falls linearly |
| Geo.IntensityByTravelTime | main.js:136-138 | intensity is never negative, at most 1 for non-negative times, and positive exactly when the time is below 60 times the maximum minutes |
| Selection.IndexOf | main.js:152 | `indexOf` is -1 exactly when the stop is absent, and otherwise the first position holding it |
| Selection.LastBoarding | main.js:150-156 | the boarding position is below the bound and holds a frontier stop |
| Selection.BoardingIndex | main.js:150-156 | `highestIndex` is -1 or a position holding a frontier stop |
| Selection.LastBoardingIsMaximum | main.js:150-156 | no frontier stop's `indexOf` exceeds the boarding position, which is itself an `indexOf` |
| Selection.LastBoardingFirst | main.js:150-156 | the boarding position is the first occurrence of the stop it holds |
| Selection.BoardingIndexIsMaximum | main.js:150-157 | `highestIndex` is the largest `indexOf` of any frontier stop, and -1 exactly when no frontier stop is on the sequence |
| Selection.HighestIndex | main.js:150-156 | the loop over the frontier keys, in any order, computes `BoardingIndex` |
| Selection.BoardOperator | main.js:146-163 | one operator pushes, after what its predecessors pushed, its sequence sliced from the boarding position when it is enabled and has one |
| Selection.BoardRoute | main.js:146-166 | the sequences pushed for one route are those of its enabled operators that have a boarding stop, each sliced from it |
| Selection.Contributions | main.js:143-167 | there is one contribution per route walked, each the sequences that route pushes |
| Selection.BoardersAppend | main.js:157-163 | one more route adds its key to the pushed routes exactly when it pushes a sequence |
| Selection.SelectStep | main.js:143-167 | one more route extends `stopSequenceList` by its sequences and `nextSeenRouts` by its key when it pushed one |
| Selection.VisitRoute | main.js:144-166 | one route's step of the loop keeps both results equal to those of the routes walked so far |
| Selection.SelectRoutes | main.js:141-169 | the loop over `routeList` pushes exactly the unseen routes' sequences, and `seenRoutes` grows by exactly the routes that pushed one |
| Selection.RouteSequenceSource | main.js:146-166 | every sequence a route contributes comes from one of its operators |
| Selection.RouteSequenceIncludes | main.js:146-166 | every operator's sequence is contributed |
| Selection.SequenceOrigin | main.js:143-163 | a boarded sequence names an unseen route of `routeList` and one of its operators |
| Selection.BoardedIsSelected | main.js:143-163 | every unseen route's enabled operator sequence holding a frontier stop is pushed |
| Selection.SelectedSequencesAreBoarded | main.js:143-178 | a sequence is selected exactly when it is an enabled operator's suffix, of an unseen route, from the furthest frontier stop; its first stop is a frontier key, so line 178 is defined |
| Selection.BoardersMember | main.js:143-167 | a route key is pushed exactly when that route pushes some sequence |
| Selection.BoardersEmpty | main.js:157-172 | no route is pushed exactly when no sequence is |
| Selection.NewlySeenRoutes | main.js:162-172 | `seenRoutes` grows by exactly the contributing routes, and by none exactly when the round returns `{}` |
| Accumulate.ArrivalTimeMonotonic | main.js:180-184 | with no negative journey time, the running `travelTime` never decreases along a ride |
| Accumulate.LastAt | main.js:180-191 | the last position before the bound at which the ride passes a stop |
| Accumulate.RideEffect | main.js:176-192 | after a ride, a stop of `stopList` passed at a position from 1 on holds the boarding time plus the leg times up to its last pass, with the boarding interchange count; any other stop is unchanged |
| Accumulate.LastWriter | main.js:176-193 | the last sequence before the bound whose ride writes a stop |
| Accumulate.AccumulateEffect | main.js:176-193 | a stop holds what the last sequence writing it recorded, and is absent when none does (last write wins) |
| Accumulate.ReachedStops | main.js:174-193 | `stopIdData` holds exactly the stops of `stopList` that some ride passes after its boarding stop, with the last writer's time |
| Accumulate.AccumulateInStopList | main.js:186-191 | only stops of `stopList` are recorded |
| Accumulate.RecordedNotBeforeBoarding | main.js:178-190 | with no negative journey times, a recorded time is at least the boarding stop's time, and the interchange count is the boarding stop's |
| Accumulate.HeatOfRecord | main.js:189-190 | recording a stop adds its location and time to `heatmapData` |
| Accumulate.Ride | main.js:177-192 | one ride's loop computes `RideUpTo`, records only stops of `stopList`, and keeps `heatmapData` in step with `stopIdData`: the same keys, each at its `stopList` location with its recorded time |
| Accumulate.AccumulateTimes | main.js:174-193 | the loop over all sequences computes `Accumulated`, records only stops of `stopList`, and `heatmapData` has exactly the recorded stops as keys, each at its `stopList` location with its recorded time (lines 186-190) |
| Interchange.Source | main.js:200-202 | a recorded stop gives its own record; any other is already at the interchange cap |
| Interchange.Transfer | main.js:205-217 | an interchange adds at most one to the count and none onto rail, and with non-negative interchange times it never lowers the travel time |
| Interchange.NearbyUpTo | main.js:203-214 | the nearby loop removes no entry of `nextStartStops` |
| Interchange.StopTransfers | main.js:198-220 | one stop's transfers remove no entry |
| Interchange.SequenceUpTo | main.js:197-221 | one sequence's transfers remove no entry |
| Interchange.UnrecordedOffersNothing | main.js:200-218 | a stop with no `stopIdData` reaches the interchange cap, so it installs nothing, for itself or its nearby stops |
| Interchange.NearbyEffect | main.js:203-214 | after the nearby loop, a nearby stop within the cap holds the transfer from the source, and any other stop keeps its entry |
| Interchange.StopEffect | main.js:198-220 | one stop's step installs exactly the transfers within the cap and keeps every other entry |
| Interchange.SequenceSource | main.js:197-221 | the entry of a stop after a sequence is either the earlier one or one installed by a stop of the sequence |
| Interchange.FrontierSource | main.js:195-222 | every next-frontier entry was installed by some stop of some sequence |
| Interchange.SequenceKeeps | main.js:197-221 | an installed entry stays present for the rest of the sequence |
| Interchange.FrontierKeeps | main.js:195-222 | an installed entry stays present for the rest of the round |
| Interchange.FrontierIncludes | main.js:195-222 | every transfer offered within the cap is on the next frontier |
| Interchange.NextFrontierExactly | main.js:195-222 | the next frontier holds exactly the stops offered a transfer within the cap, each with the value of one such transfer (which one is `NextFrontierLastWins`) |
| Interchange.LastOfferIn | main.js:197-220 | the last stop of a sequence, before a bound, that offers a stop an interchange within the cap, or -1 when none does |
| Interchange.LastInstaller | main.js:195-222 | the last boarded sequence, before a bound, with a stop offering a stop an interchange within the cap, or -1 when none has |
| Interchange.StopOverwrites | main.js:203-220 | a stop that offers `x` an interchange leaves that offer on `x` whatever `x` held, the change of route of line 219 winning over the walk; a stop that offers nothing leaves `x` as it was |
| Interchange.SequenceUntouched | main.js:197-221 | a sequence none of whose stops offers `x` anything leaves `x` as it was |
| Interchange.SequenceOverwrites | main.js:197-221 | after a sequence, `x` holds the offer of its last stop to offer `x` anything (last write wins) |
| Interchange.FrontierOverwrites | main.js:195-222 | after some sequences, `x` is absent when none offers it anything, and otherwise holds the offer of the last offering stop of the last offering sequence |
| Interchange.NextFrontierLastWins | main.js:195-222 | the next frontier keeps the last interchange written to a stop, not the best: a stop is on it exactly when some stop offers it something, and then holds the offer of the last offering stop of the last offering sequence, with no later offer anywhere |
| Interchange.NextFrontierBounded | main.js:208-219 | every next-frontier entry has `interchangeCount < maxInterchanges` |
| Interchange.OfferNearby | main.js:203-214 | the nearby loop computes `NearbyUpTo` |
| Interchange.StopStep | main.js:198-220 | one stop's step computes `StopTransfers` |
| Interchange.SequenceTransfers | main.js:196-221 | one sequence's loop computes `SequenceUpTo` |
| Interchange.NextStartStops | main.js:195-222 | the loop computes `NextFrontier`, and every entry is within the cap |
| Merge.Merged | main.js:234-243 | the keys are the union; a key in one map keeps that entry; a shared key keeps the lower time, and `map1`'s entry on a tie |
| Merge.MergeHeatmapData | main.js:234-243 | the copy-and-overwrite loop, in any order of `map2`, computes `Merged` |
| Merge.MergedAssociative | main.js:228-243 | merging is associative, so the nesting of the recursion's merges does not matter |
| Merge.MergedTimesCommute | main.js:234-243 | the merged keys and times do not depend on the argument order |
| Merge.MergedIdentity | main.js:234-243 | the empty map is an identity, and merging a map with itself changes nothing |
| Propagation.SequenceFits | main.js:176-204 | on a well-formed dataset, every boarded sequence's legs have journey-time entries and its stops are in `stopList` |
| Propagation.SequencesFit | main.js:176-204 | the same for every sequence of a round |
| Propagation.RoundProgress | main.js:162-172 | a round that boards something strictly shrinks the set of unseen routes, which bounds the recursion |
| Propagation.GenerateHeatmapData | main.js:140-232 | the recursive method computes `Propagate`, its heat map and final `seenRoutes` |
| Propagation.PropagateSeen | main.js:144-169 | `seenRoutes` only grows, and only by routes of `routeList` |
| Propagation.PropagateAtStops | main.js:186-189 | every heat-map point is a stop of `stopList`, drawn at that stop's location |
| Propagation.FirstRoundKept | main.js:228-243 | a stop recorded in the first round stays on the heat map, at no more than its first-round time |
| Propagation.NothingBoardable | main.js:170-172 | when no unseen route can be boarded, the call returns `{}` and `seenRoutes` is unchanged |
| Propagation.RoundNonNegative | main.js:176-220 | with no negative journey, frontier or interchange time, a round records and offers no negative time |
| Propagation.PropagateNonNegative | main.js:140-232 | with no negative journey, frontier or interchange time, no heat-map time is negative |
| Origin.FindStopsWithinRadius | main.js:111-133 | the loop over `stopList` computes `WithinUpTo` |
| Origin.WithinUpToSound | main.js:114-127 | every stop found is in `stopList`, served by an enabled mode, within the radius, and carries its own name, location and distance |
| Origin.WithinUpToComplete | main.js:114-127 | every enabled stop within the radius is found |
| Origin.WithinUpToDistinct | main.js:114-130 | no stop is found twice |
| Origin.SeedPoints | main.js:254-260 | `journeyTimesData` starts with the origin at time 0, then each stop found at its walking time |
| Origin.SeedFrontierExactly | main.js:256-262 | `startStops` holds exactly the stops found, each with its walking time and no interchange |
| Origin.SeedFrontierNonNegative | main.js:257-261 | no first-frontier time is negative |
| Origin.SeedOrigin | main.js:253-262 | the `forEach` computes `SeedPoints` and `SeedFrontier` |
| Origin.OrderEnumerates | main.js:263-266 | appending a heat map's values in an order that lists every stop exactly once enumerates the heat map: some such order matches the appended points position by position |
| Origin.EnumeratesCovers | main.js:263-266 | an enumeration adds one point per stop, every stop's point is among them, and each of them is some stop's point |
| Origin.EnumerateStops | main.js:263 | `Object.values` visits every stop of the heat map exactly once, and nothing else |
| Origin.AppendValues | main.js:263-266 | the points are appended after the seed points, the point at each position being the value of the stop at that position of the order |
| Origin.UpdateOrigin | main.js:245-276 | nothing happens without data or at latitude or longitude 0; otherwise the points are the seed points followed by the propagated heat map's values, each stop's value exactly once in some order of the stops |
| Resolve.GetMinTimeAt | main.js:281-302 | `null` without a tree or without an accepted neighbour; otherwise the least time through an accepted neighbour |
| Resolve.AcceptedMeans | main.js:292-294 | a neighbour is accepted exactly when it is within walking distance or the time through it is below 60 times the maximum minutes |
| JourneyCache.CacheIndex | data_merging.py:13 | the bucket index is a prefix of the stop id, two characters long or the whole id when shorter |
| JourneyCache.SameBucket | data_merging.py:13 | two stop ids of two or more characters share a bucket exactly when their first two characters agree |
| JourneyCache.JourneyTimeCache.constructor | data_merging.py:10 | the cache starts empty |
| JourneyCache.Cached | data_merging.py:13-21 | the cache after a lookup keeps every cached file unchanged, adds at most the stop's bucket, and holds that bucket exactly when it was cached before or the server has it |
| JourneyCache.KeepsTransitive | data_merging.py:12-23 | keeping every cached file over two stretches of lookups keeps it over both |
| JourneyCache.JourneyTimeCache.Fetch | data_merging.py:12-23 | the lookup yields the stop's list in its bucket's file, or `{}`; the cache becomes `Cached`: a cached bucket is answered without a fetch, a fetched file is added, a failed fetch adds nothing, and no cached file is replaced; every cached file is the server's |
| Sections.KeptMeans | data_merging.py:45 | a route is kept exactly when some operator of it has a non-empty sequence |
| Sections.KeptRoutesUpTo | data_merging.py:44-50 | after some routes, `normalized_route_list` holds exactly the kept routes among them |
| Sections.KeptRoutesExactly | data_merging.py:44-50 | `normalized_route_list` is a valid dictionary holding exactly the kept routes, each with its own `route`, `co` and `stops` and nothing else |
| Sections.RouteSections | data_merging.py:51 | a route has one section per operator key |
| Sections.RouteSectionsAt | data_merging.py:51 | a route's sections are its operator sequences in key order |
| Sections.Chunks | data_merging.py:44-51 | the sections of each route, in route order, and none for a dropped route |
| Sections.SectionOfRoute | data_merging.py:44-51 | every operator sequence of a kept route is walked |
| Sections.SectionSource | data_merging.py:44-51 | every walked section is an operator sequence of a kept route |
| StopTable.AddStop | data_merging.py:53-57 | a visit adds the visited stop to the table's keys |
| StopTable.AddStopCo | data_merging.py:53-57 | a visit adds its operator to the visited stop's `co`, and changes no other `co` |
| StopTable.AddStopOk | data_merging.py:53-57 | a visit keeps the table valid, copied from `stopList` apart from `co`, with no operator twice |
| StopTable.SectionStopsOk | data_merging.py:52-57 | the same for one operator sequence |
| StopTable.AllStopsOk | data_merging.py:51-57 | the same for every walked sequence |
| StopTable.SectionStopsKeys | data_merging.py:52-55 | one sequence adds exactly its stops to the table |
| StopTable.SectionStopsCo | data_merging.py:52-57 | one sequence adds its operator to exactly the `co` of its stops; a stop's first visit resets `co` to that operator |
| StopTable.AllStopsKeys | data_merging.py:51-55 | `normalized_stop_list` holds exactly the stops some walked sequence visits |
| StopTable.AllStopsCo | data_merging.py:51-57 | a stop's `co` lists exactly the operators whose walked sequences visit it |
| LegTable.AddLeg | data_merging.py:59-67 | a leg adds its departing stop to the table's keys |
| LegTable.AddLegInner | data_merging.py:59-67 | a leg adds its arriving stop under its departing stop exactly when the server has a time for it |
| LegTable.AddLegRounded | data_merging.py:63-67 | a leg keeps every recorded time equal to the rounded published time |
| LegTable.AddLegMin | data_merging.py:64-67 | a recorded time is only replaced by a strictly smaller one, the rounded published time of the leg just walked |
| LegTable.SectionLegsKeys | data_merging.py:58-61 | one sequence adds exactly its departing stops, every stop but the last, and none for an empty sequence |
| LegTable.SectionLegsInner | data_merging.py:58-67 | one sequence adds exactly its legs that the server publishes |
| LegTable.LegAtLast | data_merging.py:58-59 | a leg among the first legs is among the legs before the last one, or is the last one |
| LegTable.SectionLegsRounded | data_merging.py:58-67 | one sequence keeps every recorded time equal to the rounded published time |
| LegTable.AllLegsKeys | data_merging.py:51-61 | `stop_journey_times` has an entry, possibly empty, exactly for the stops some walked sequence departs from |
| LegTable.AllLegsInner | data_merging.py:51-67 | `b` is under `a` exactly when some walked sequence goes from `a` straight to `b` and the server publishes a time for it |
| LegTable.AllLegsRoundedAt | data_merging.py:58-67 | each recorded time is the rounded published time of its leg |
| LegTable.AllLegsRounded | data_merging.py:58-67 | the same for every leg at once |
| Nearby.WithNearby | data_merging.py:69-77 | the table keeps its keys, key order and entries apart from `nearby` |
| Nearby.NearbyUpToExactly | data_merging.py:73-77 | after some stops of the table, `nearby` holds exactly the other stops among them within 0.3 km |
| Nearby.NearbyExactly | data_merging.py:69-77 | `nearby` holds exactly the other stops of the table within 0.3 km, so never the stop itself |
| Nearby.NearbyUpToDistinct | data_merging.py:73-77 | no stop is listed twice after some stops |
| Nearby.NearbyDistinct | data_merging.py:69-77 | no stop is listed twice |
| Nearby.NearbySymmetric | data_merging.py:69-77 | with a symmetric distance, `n` is near `s` exactly when `s` is near `n` |
| Nearby.NearbyList | data_merging.py:70-77 | one stop's inner loop computes its `nearby` list |
| Nearby.AddNearby | data_merging.py:69-77 | the outer loop gives every stop its list |
| Normaliser.VisitStops | data_merging.py:52-57 | one sequence's stop loop computes `SectionStops` |
| Normaliser.RecordLeg | data_merging.py:59-67 | one leg computes `AddLeg` with the cached lookup; the cache becomes `Cached` for the departing stop, stays consistent with the server and keeps every file it had |
| Normaliser.RecordLegs | data_merging.py:58-67 | one sequence's leg loop computes `SectionLegs`; the cache stays consistent with the server and keeps every file it had |
| Normaliser.WalkSection | data_merging.py:52-67 | one operator sequence extends the stop and journey-time tables by that section; the cache stays consistent with the server and keeps every file it had |
| Normaliser.WalkRoute | data_merging.py:51-67 | one kept route's loop extends the stop and journey-time tables by its sections; the cache stays consistent with the server and keeps every file it had |
| Normaliser.AddRoute | data_merging.py:45-67 | one route's step extends the three tables by that route; the cache stays consistent with the server and keeps every file it had |
| Normaliser.Normalise | data_merging.py:44-67 | the loop computes `KeptRoutes`, `AllStops` and `AllLegs` of the walked sections; the cache stays consistent with the server and keeps every file it had, so no downloaded file is requested again |
| Pipeline.KeptSectionsListed | data_merging.py:54 | every walked stop is in `stopList`, so line 54 never fails |
| Pipeline.ServesServed | data_merging.py:51-57 | a walked section of operator `o` visits `s` exactly when a kept route's `o` sequence lists `s` |
| Pipeline.HasLegRouteLeg | data_merging.py:51-59 | a walked section has the leg from `a` to `b` exactly when a kept route's sequence has it |
| Pipeline.HasLegDeparts | data_merging.py:58-61 | a leg from `a` gives `a` an entry |
| Pipeline.PublishedStop | data_merging.py:51-57 | the written `stopList` holds exactly the stops of kept routes' sequences, with their published name and location; `co` lists exactly the operators serving them, none twice |
| Pipeline.PublishedLeg | data_merging.py:58-67 | a leg is written exactly when a kept route has it and the server publishes its time, and the written time is that time rounded |
| Pipeline.RouteFits | data_merging.py:44-67 | every stop of a written route is a written stop, and every stop but the last has a journey-time entry |
| Pipeline.NearbyFits | data_merging.py:69-77 | every `nearby` stop is a written stop |
| Pipeline.PublishedWellFormed | data_merging.py:80-84 | the written dataset satisfies everything `main.js` relies on without checking |
| Pipeline.DataMerging | data_merging.py:40-84 | the script, with a fresh cache, produces `Published`, and the result is well-formed |

## Left out

- **The page's DOM, Leaflet and UI code** (main.js:16-84, 304-338, 364-406): presentation only. This includes the map drawing in `updateOrigin`, the export-button state and `exportGeoJson`.
- **Network and file I/O.**
  - `loadJSON`, `fetch_json` and `requests`: the downloaded lists are parameters.
  - The journey-time server is a pure function `Remote`. A transient failure followed by a later success is therefore not modelled, nor is the printed error message.
  - The JSON dumps of data_merging.py:86-90 are not modelled; `Pipeline.Published` is the dataset they write.
- **Haversine and `round`.** The Haversine distance (main.js:99-109, data_merging.py:25-34) is an abstract `Distance` parameter. `round(x, 2)` is an abstract `round` parameter. Both are floating-point computations; the model uses exact reals, so there is no rounding error and no overflow of `MAX_SAFE_INTEGER` additions.
- **The KD-tree** (main.js:270-274, 286): a foreign library. Its `nearest` answer is the list of indices `GetMinTimeAt` receives.
- **`async`/`await`** chaining: strictly sequential, so it becomes ordinary recursion.
- **JavaScript key order.** `Object.entries`/`for … in` put integer-like keys first; the model iterates in insertion order.
- **Unordered iteration.** The page's maps that are only looked up, or iterated where order cannot matter, are plain maps; their loops take the keys in any order.
- **The recursion guard at main.js:224.** It compares `nextStartStops.length`, which is `undefined` for an object, so the guard is always false. The model always recurses, and termination rests on lines 170-172.
- **`seenRoutes` aliasing.** `seenRoutes` is threaded through the recursion as a value. It is private to one call chain, so the aliasing is unobservable.
- **Stop object aliasing.** `normalized_stop_list[stop] = stop_list[stop]` in data_merging.py:54 aliases the input's stop object, which is never read again. The model copies it.
- **Page settings.** `walkingSpeedKmh > 0` and `intensityByTravelTimeMaxTime ≠ 0` are preconditions; with other values the page divides by zero.
- **Nearby locations.** Nearby.NearbyList reads the other stops' locations from the table as it was before the loop at data_merging.py:69. The loop changes only `nearby` lists, so the locations are the same.
- **Boarding with `indexOf`.** `indexOf` returns the first occurrence. On a sequence that visits a stop twice, the boarding position is therefore the largest first-occurrence index, and the model keeps that behaviour.
- **Features the page does not have.** There are no path steps, route labels, arrive-at direction or weekday/hour journey-time tables in the code, so the model has none either.
- Normaliser.Normalise / Pipeline.DataMerging: a route list naming a stop that is missing from `stopList` makes data_merging.py:54 raise `KeyError` and end the script. The model has no such path: the `RawListed` precondition excludes that input.
- **Accepting a neighbour.** `Resolve.GetMinTimeAt` follows the code: a neighbour also counts when the intensity of the time through it is positive, not only when it is within walking distance.
