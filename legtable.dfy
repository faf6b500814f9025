/** `stop_journey_times` (data_merging.py:58-67): for every leg of every
    walked sequence, the rounded journey time the server publishes, once the
    departing stop has an entry; a leg the server does not know is left out. */
module LegTable {
  import opened Transit
  import opened Sections
  import opened JourneyCache

  /** How many legs `enumerate(stops[:-1])` visits. */
  function Legs(stops: seq<StopId>): nat {
    if |stops| == 0 then 0 else |stops| - 1
  }

  /** The entry for the leg from `a` to `b`, if any, is the rounded journey
      time the server publishes for it. */
  predicate RoundedAt(remote: Remote, round: real -> real, jt: JourneyTimes, a: StopId, b: StopId) {
    a in jt && b in jt[a] ==> b in JourneyList(remote, a) && jt[a][b] == round(JourneyList(remote, a)[b])
  }

  ghost predicate Rounded(remote: Remote, round: real -> real, jt: JourneyTimes) {
    forall a, b :: RoundedAt(remote, round, jt, a, b)
  }

  /** Lines 59-67 for the leg from `stops[idx]` to `stops[idx + 1]`: the
      departing stop gets an entry, and the leg the server's time when it
      has one and no lower time is recorded. */
  function AddLeg(remote: Remote, round: real -> real, jt: JourneyTimes, stops: seq<StopId>, idx: nat): (r: JourneyTimes)
    requires idx + 1 < |stops|
    ensures r.Keys == jt.Keys + {stops[idx]}
  {
    var stop, nextStop := stops[idx], stops[idx + 1];
    var jt1 := if stop in jt then jt else jt[stop := map[]];
    var journeyTimeList := JourneyList(remote, stop);
    if nextStop in journeyTimeList then
      var time := round(journeyTimeList[nextStop]);
      if nextStop !in jt1[stop] || jt1[stop][nextStop] > time then jt1[stop := jt1[stop][nextStop := time]] else jt1
    else jt1
  }

  lemma AddLegInner(remote: Remote, round: real -> real, jt: JourneyTimes, stops: seq<StopId>, idx: nat, a: StopId, b: StopId)
    requires idx + 1 < |stops| && a in AddLeg(remote, round, jt, stops, idx)
    ensures b in AddLeg(remote, round, jt, stops, idx)[a] <==>
              (a in jt && b in jt[a]) || (a == stops[idx] && b == stops[idx + 1] && b in JourneyList(remote, a))
  {
  }

  lemma AddLegRounded(remote: Remote, round: real -> real, jt: JourneyTimes, stops: seq<StopId>, idx: nat, a: StopId, b: StopId)
    requires idx + 1 < |stops| && RoundedAt(remote, round, jt, a, b)
    ensures RoundedAt(remote, round, AddLeg(remote, round, jt, stops, idx), a, b)
  {
  }

  /** Lines 66-67: a recorded time is only ever replaced by a strictly
      smaller one, the rounded published time of the leg just walked. */
  lemma AddLegMin(remote: Remote, round: real -> real, jt: JourneyTimes, stops: seq<StopId>, idx: nat, a: StopId, b: StopId)
    requires idx + 1 < |stops| && a in jt && b in jt[a]
    ensures var r := AddLeg(remote, round, jt, stops, idx);
            && a in r && b in r[a] && r[a][b] <= jt[a][b]
            && (r[a][b] != jt[a][b] ==> a == stops[idx] && b == stops[idx + 1] && r[a][b] == round(JourneyList(remote, a)[b]))
  {
  }

  /** The table after the first `m` legs of `stops`. */
  function SectionLegs(remote: Remote, round: real -> real, jt: JourneyTimes, stops: seq<StopId>, m: nat): JourneyTimes
    requires m <= Legs(stops)
  {
    if m == 0 then jt else AddLeg(remote, round, SectionLegs(remote, round, jt, stops, m - 1), stops, m - 1)
  }

  /** One of the first `m` legs of `stops` goes from `a` to `b`. */
  ghost predicate LegAt(stops: seq<StopId>, m: nat, a: StopId, b: StopId) {
    exists i :: 0 <= i < m && i + 1 < |stops| && stops[i] == a && stops[i + 1] == b
  }

  lemma {:induction false} SectionLegsKeys(remote: Remote, round: real -> real, jt: JourneyTimes, stops: seq<StopId>, m: nat, a: StopId)
    requires m <= Legs(stops)
    ensures a in SectionLegs(remote, round, jt, stops, m) <==> a in jt || Among(stops, m, a)
  {
    if m > 0 {
      var before := SectionLegs(remote, round, jt, stops, m - 1);
      SectionLegsKeys(remote, round, jt, stops, m - 1, a);
      assert SectionLegs(remote, round, jt, stops, m).Keys == before.Keys + {stops[m - 1]};
      AmongLast(stops, m, a);
    }
  }

  lemma {:induction false} SectionLegsInner(remote: Remote, round: real -> real, jt: JourneyTimes, stops: seq<StopId>, m: nat, a: StopId, b: StopId)
    requires m <= Legs(stops) && a in SectionLegs(remote, round, jt, stops, m)
    ensures b in SectionLegs(remote, round, jt, stops, m)[a] <==>
              (a in jt && b in jt[a]) || (LegAt(stops, m, a, b) && b in JourneyList(remote, a))
  {
    if m > 0 {
      var before := SectionLegs(remote, round, jt, stops, m - 1);
      assert SectionLegs(remote, round, jt, stops, m) == AddLeg(remote, round, before, stops, m - 1);
      AddLegInner(remote, round, before, stops, m - 1, a, b);
      if a in before {
        SectionLegsInner(remote, round, jt, stops, m - 1, a, b);
      } else {
        SectionLegsKeys(remote, round, jt, stops, m - 1, a);
        assert a !in jt;
      }
      LegAtLast(stops, m, a, b);
    }
  }

  lemma LegAtLast(stops: seq<StopId>, m: nat, a: StopId, b: StopId)
    requires 0 < m <= Legs(stops)
    ensures LegAt(stops, m, a, b) <==> LegAt(stops, m - 1, a, b) || (stops[m - 1] == a && stops[m] == b)
  {
    if LegAt(stops, m, a, b) && !LegAt(stops, m - 1, a, b) {
      var i :| 0 <= i < m && i + 1 < |stops| && stops[i] == a && stops[i + 1] == b;
      assert i == m - 1;
    }
    if LegAt(stops, m - 1, a, b) {
      var i :| 0 <= i < m - 1 && i + 1 < |stops| && stops[i] == a && stops[i + 1] == b;
      assert LegAt(stops, m, a, b);
    }
  }

  lemma {:induction false} SectionLegsRounded(remote: Remote, round: real -> real, jt: JourneyTimes, stops: seq<StopId>, m: nat, a: StopId, b: StopId)
    requires m <= Legs(stops) && RoundedAt(remote, round, jt, a, b)
    ensures RoundedAt(remote, round, SectionLegs(remote, round, jt, stops, m), a, b)
  {
    if m > 0 {
      var prev := SectionLegs(remote, round, jt, stops, m - 1);
      SectionLegsRounded(remote, round, jt, stops, m - 1, a, b);
      AddLegRounded(remote, round, prev, stops, m - 1, a, b);
      assert SectionLegs(remote, round, jt, stops, m) == AddLeg(remote, round, prev, stops, m - 1);
    }
  }

  /** The table after all legs of all of `secs`, starting from an empty one. */
  function AllLegs(remote: Remote, round: real -> real, secs: seq<Section>): JourneyTimes {
    if secs == [] then map[]
    else
      var last := secs[|secs| - 1].stops;
      SectionLegs(remote, round, AllLegs(remote, round, secs[..|secs| - 1]), last, Legs(last))
  }

  /** Some section has a leg departing from `a`. */
  ghost predicate Departs(secs: seq<Section>, a: StopId) {
    exists k :: 0 <= k < |secs| && Among(secs[k].stops, Legs(secs[k].stops), a)
  }

  /** Some section has a leg from `a` to `b`. */
  ghost predicate HasLeg(secs: seq<Section>, a: StopId, b: StopId) {
    exists k :: 0 <= k < |secs| && LegAt(secs[k].stops, Legs(secs[k].stops), a, b)
  }

  lemma DepartsLast(secs: seq<Section>, a: StopId)
    requires secs != []
    ensures var last := secs[|secs| - 1].stops;
            Departs(secs, a) <==> Departs(secs[..|secs| - 1], a) || Among(last, Legs(last), a)
  {
    var init := secs[..|secs| - 1];
    if Departs(secs, a) {
      var k :| 0 <= k < |secs| && Among(secs[k].stops, Legs(secs[k].stops), a);
      if k < |init| {
        assert init[k] == secs[k];
      }
    }
    if Departs(init, a) {
      var k :| 0 <= k < |init| && Among(init[k].stops, Legs(init[k].stops), a);
      assert init[k] == secs[k];
    }
  }

  lemma HasLegLast(secs: seq<Section>, a: StopId, b: StopId)
    requires secs != []
    ensures var last := secs[|secs| - 1].stops;
            HasLeg(secs, a, b) <==> HasLeg(secs[..|secs| - 1], a, b) || LegAt(last, Legs(last), a, b)
  {
    var init := secs[..|secs| - 1];
    if HasLeg(secs, a, b) {
      var k :| 0 <= k < |secs| && LegAt(secs[k].stops, Legs(secs[k].stops), a, b);
      if k < |init| {
        assert init[k] == secs[k];
      }
    }
    if HasLeg(init, a, b) {
      var k :| 0 <= k < |init| && LegAt(init[k].stops, Legs(init[k].stops), a, b);
      assert init[k] == secs[k];
    }
  }

  /** A stop has an entry exactly when some walked sequence departs from it. */
  lemma {:induction false} AllLegsKeys(remote: Remote, round: real -> real, secs: seq<Section>, a: StopId)
    ensures a in AllLegs(remote, round, secs) <==> Departs(secs, a)
  {
    if secs != [] {
      var init, last := secs[..|secs| - 1], secs[|secs| - 1].stops;
      AllLegsKeys(remote, round, init, a);
      SectionLegsKeys(remote, round, AllLegs(remote, round, init), last, Legs(last), a);
      DepartsLast(secs, a);
    }
  }

  /** `b` is listed under `a` exactly when some walked sequence has the leg
      from `a` to `b` and the server publishes a time for it. */
  lemma {:induction false} AllLegsInner(remote: Remote, round: real -> real, secs: seq<Section>, a: StopId, b: StopId)
    requires a in AllLegs(remote, round, secs)
    ensures b in AllLegs(remote, round, secs)[a] <==> HasLeg(secs, a, b) && b in JourneyList(remote, a)
  {
    var init, last := secs[..|secs| - 1], secs[|secs| - 1].stops;
    var before := AllLegs(remote, round, init);
    SectionLegsInner(remote, round, before, last, Legs(last), a, b);
    HasLegLast(secs, a, b);
    if a in before {
      AllLegsInner(remote, round, init, a, b);
    } else {
      AllLegsKeys(remote, round, init, a);
    }
  }

  lemma {:induction false} AllLegsRoundedAt(remote: Remote, round: real -> real, secs: seq<Section>, a: StopId, b: StopId)
    ensures RoundedAt(remote, round, AllLegs(remote, round, secs), a, b)
  {
    if secs != [] {
      var init, last := secs[..|secs| - 1], secs[|secs| - 1].stops;
      AllLegsRoundedAt(remote, round, init, a, b);
      SectionLegsRounded(remote, round, AllLegs(remote, round, init), last, Legs(last), a, b);
    }
  }

  /** Every recorded time is the rounded published time of its leg. */
  lemma AllLegsRounded(remote: Remote, round: real -> real, secs: seq<Section>)
    ensures Rounded(remote, round, AllLegs(remote, round, secs))
  {
    forall a, b ensures RoundedAt(remote, round, AllLegs(remote, round, secs), a, b) {
      AllLegsRoundedAt(remote, round, secs, a, b);
    }
  }
}
