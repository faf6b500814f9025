/** `normalized_stop_list` (data_merging.py:52-57): each stop a kept route
    visits, copied from the published `stopList`, with `co` replaced by the
    operators whose sequences visit it, in order of first visit. */
module StopTable {
  import opened Dicts
  import opened Transit
  import opened Sections

  /** Every stop of `sec` is in the published `stopList`; otherwise line 54
      raises `KeyError`. */
  predicate SectionListed(stopList: Dict<StopId, Stop>, sec: Section) {
    forall i :: 0 <= i < |sec.stops| ==> sec.stops[i] in stopList.entries
  }

  predicate Listed(stopList: Dict<StopId, Stop>, secs: seq<Section>) {
    forall k :: 0 <= k < |secs| ==> SectionListed(stopList, secs[k])
  }

  /** What the table keeps throughout: a valid dictionary whose entries are
      the published stops apart from `co`, each `co` without repetitions. */
  predicate TableOk(stopList: Dict<StopId, Stop>, table: Dict<StopId, Stop>) {
    && Valid(table)
    && (forall s :: s in table.entries ==> s in stopList.entries && table.entries[s] == stopList.entries[s].(co := table.entries[s].co))
    && (forall s :: s in table.entries ==> Distinct(table.entries[s].co))
  }

  /** Lines 53-57 for one visit of `stop` by operator `op`. */
  function AddStop(stopList: Dict<StopId, Stop>, table: Dict<StopId, Stop>, op: Operator, stop: StopId): (t: Dict<StopId, Stop>)
    requires stop in stopList.entries
    ensures t.entries.Keys == table.entries.Keys + {stop}
  {
    if stop !in table.entries then Dict(table.keys + [stop], table.entries[stop := stopList.entries[stop].(co := [op])])
    else if op !in table.entries[stop].co then Dict(table.keys, table.entries[stop := table.entries[stop].(co := table.entries[stop].co + [op])])
    else table
  }

  /** One visit adds `op` to the visited stop's `co` and nothing else. */
  lemma AddStopCo(stopList: Dict<StopId, Stop>, table: Dict<StopId, Stop>, op: Operator, stop: StopId, s: StopId, o: Operator)
    requires stop in stopList.entries && s in AddStop(stopList, table, op, stop).entries
    ensures o in AddStop(stopList, table, op, stop).entries[s].co <==>
              (s in table.entries && o in table.entries[s].co) || (s == stop && o == op)
  {
  }

  lemma AddStopOk(stopList: Dict<StopId, Stop>, table: Dict<StopId, Stop>, op: Operator, stop: StopId)
    requires stop in stopList.entries && TableOk(stopList, table)
    ensures TableOk(stopList, AddStop(stopList, table, op, stop))
  {
    var t := AddStop(stopList, table, op, stop);
    if stop !in table.entries {
      assert t == Put(table, stop, stopList.entries[stop].(co := [op]));
    } else if op !in table.entries[stop].co {
      var co := table.entries[stop].co;
      assert t == Put(table, stop, table.entries[stop].(co := co + [op]));
      assert forall i :: 0 <= i < |co| ==> (co + [op])[i] == co[i];
    }
  }

  /** The table after the first `m` stops of `sec`. */
  function SectionStops(stopList: Dict<StopId, Stop>, table: Dict<StopId, Stop>, sec: Section, m: nat): Dict<StopId, Stop>
    requires SectionListed(stopList, sec) && m <= |sec.stops|
  {
    if m == 0 then table
    else AddStop(stopList, SectionStops(stopList, table, sec, m - 1), sec.co, sec.stops[m - 1])
  }

  lemma {:induction false} SectionStopsOk(stopList: Dict<StopId, Stop>, table: Dict<StopId, Stop>, sec: Section, m: nat)
    requires SectionListed(stopList, sec) && m <= |sec.stops| && TableOk(stopList, table)
    ensures TableOk(stopList, SectionStops(stopList, table, sec, m))
  {
    if m > 0 {
      SectionStopsOk(stopList, table, sec, m - 1);
      AddStopOk(stopList, SectionStops(stopList, table, sec, m - 1), sec.co, sec.stops[m - 1]);
    }
  }

  lemma ListedInit(stopList: Dict<StopId, Stop>, secs: seq<Section>)
    requires Listed(stopList, secs) && secs != []
    ensures Listed(stopList, secs[..|secs| - 1])
  {
    var init := secs[..|secs| - 1];
    forall k | 0 <= k < |init| ensures SectionListed(stopList, init[k]) {
      assert init[k] == secs[k];
    }
  }

  /** The table after all of `secs`, starting from an empty one. */
  function AllStops(stopList: Dict<StopId, Stop>, secs: seq<Section>): Dict<StopId, Stop>
    requires Listed(stopList, secs)
  {
    if secs == [] then Empty()
    else
      ListedInit(stopList, secs);
      SectionStops(stopList, AllStops(stopList, secs[..|secs| - 1]), secs[|secs| - 1], |secs[|secs| - 1].stops|)
  }

  /** The table is a valid dictionary of published stops, differing from
      them only in `co`, and no `co` names an operator twice. */
  lemma {:induction false} AllStopsOk(stopList: Dict<StopId, Stop>, secs: seq<Section>)
    requires Listed(stopList, secs)
    ensures TableOk(stopList, AllStops(stopList, secs))
  {
    if secs != [] {
      ListedInit(stopList, secs);
      var init, last := secs[..|secs| - 1], secs[|secs| - 1];
      AllStopsOk(stopList, init);
      SectionStopsOk(stopList, AllStops(stopList, init), last, |last.stops|);
    }
  }

  /** The effect of one section on whether `s` is in the table. */
  lemma {:induction false} SectionStopsKeys(stopList: Dict<StopId, Stop>, table: Dict<StopId, Stop>, sec: Section, m: nat, s: StopId)
    requires SectionListed(stopList, sec) && m <= |sec.stops|
    ensures s in SectionStops(stopList, table, sec, m).entries <==> s in table.entries || Among(sec.stops, m, s)
  {
    if m > 0 {
      SectionStopsKeys(stopList, table, sec, m - 1, s);
      AmongLast(sec.stops, m, s);
    }
  }

  /** The effect of one section on whether `o` is in the `co` of `s`. */
  lemma {:induction false} SectionStopsCo(stopList: Dict<StopId, Stop>, table: Dict<StopId, Stop>, sec: Section, m: nat, s: StopId, o: Operator)
    requires SectionListed(stopList, sec) && m <= |sec.stops|
    requires s in SectionStops(stopList, table, sec, m).entries
    ensures o in SectionStops(stopList, table, sec, m).entries[s].co <==>
              (s in table.entries && o in table.entries[s].co) || (o == sec.co && Among(sec.stops, m, s))
  {
    if m > 0 {
      var before := SectionStops(stopList, table, sec, m - 1);
      AmongLast(sec.stops, m, s);
      AddStopCo(stopList, before, sec.co, sec.stops[m - 1], s, o);
      if s in before.entries {
        SectionStopsCo(stopList, table, sec, m - 1, s, o);
      } else {
        SectionStopsKeys(stopList, table, sec, m - 1, s);
      }
    }
  }

  /** Some section visits `s`. */
  ghost predicate Visits(secs: seq<Section>, s: StopId) {
    exists k :: 0 <= k < |secs| && s in secs[k].stops
  }

  /** Some section of operator `o` visits `s`. */
  ghost predicate Serves(secs: seq<Section>, s: StopId, o: Operator) {
    exists k :: 0 <= k < |secs| && secs[k].co == o && s in secs[k].stops
  }

  lemma VisitsLast(secs: seq<Section>, s: StopId)
    requires secs != []
    ensures Visits(secs, s) <==> Visits(secs[..|secs| - 1], s) || s in secs[|secs| - 1].stops
  {
    var init := secs[..|secs| - 1];
    if Visits(secs, s) {
      var k :| 0 <= k < |secs| && s in secs[k].stops;
      if k < |init| {
        assert init[k] == secs[k];
      }
    }
    if Visits(init, s) {
      var k :| 0 <= k < |init| && s in init[k].stops;
      assert init[k] == secs[k];
    }
  }

  lemma ServesLast(secs: seq<Section>, s: StopId, o: Operator)
    requires secs != []
    ensures Serves(secs, s, o) <==> Serves(secs[..|secs| - 1], s, o) || (secs[|secs| - 1].co == o && s in secs[|secs| - 1].stops)
  {
    var init := secs[..|secs| - 1];
    if Serves(secs, s, o) {
      var k :| 0 <= k < |secs| && secs[k].co == o && s in secs[k].stops;
      if k < |init| {
        assert init[k] == secs[k];
      }
    }
    if Serves(init, s, o) {
      var k :| 0 <= k < |init| && init[k].co == o && s in init[k].stops;
      assert init[k] == secs[k];
    }
  }

  /** The stop table holds exactly the stops the sections visit. */
  lemma {:induction false} AllStopsKeys(stopList: Dict<StopId, Stop>, secs: seq<Section>, s: StopId)
    requires Listed(stopList, secs)
    ensures s in AllStops(stopList, secs).entries <==> Visits(secs, s)
  {
    if secs != [] {
      var init, last := secs[..|secs| - 1], secs[|secs| - 1];
      ListedInit(stopList, secs);
      AllStopsKeys(stopList, init, s);
      var before := AllStops(stopList, init);
      assert AllStops(stopList, secs) == SectionStops(stopList, before, last, |last.stops|);
      SectionStopsKeys(stopList, before, last, |last.stops|, s);
      AmongAll(last.stops, s);
      VisitsLast(secs, s);
    }
  }

  /** A stop's `co` lists exactly the operators whose sections visit it. */
  lemma {:induction false} AllStopsCo(stopList: Dict<StopId, Stop>, secs: seq<Section>, s: StopId, o: Operator)
    requires Listed(stopList, secs) && s in AllStops(stopList, secs).entries
    ensures o in AllStops(stopList, secs).entries[s].co <==> Serves(secs, s, o)
  {
    var init, last := secs[..|secs| - 1], secs[|secs| - 1];
    ListedInit(stopList, secs);
    var before := AllStops(stopList, init);
    assert AllStops(stopList, secs) == SectionStops(stopList, before, last, |last.stops|);
    SectionStopsCo(stopList, before, last, |last.stops|, s, o);
    AmongAll(last.stops, s);
    ServesLast(secs, s, o);
    if s in before.entries {
      AllStopsCo(stopList, init, s, o);
    } else {
      AllStopsKeys(stopList, init, s);
    }
  }
}
