/** The ambulance tracking page (app/ambulance/page.tsx): the fleet grouped by hospital, the summary
    counts, and the status badge's colour and icon. */
module AmbulancePage {
  import opened MockData

  // ---------------------------------------------------------------------------------------------
  // Grouping

  /** The ambulances of one hospital, in fleet order. */
  function OfHospital(ambulances: seq<Ambulance>, hospitalId: string): (r: seq<Ambulance>)
    ensures |r| <= |ambulances|
    ensures forall a :: a in r ==> a in ambulances && a.hospitalId == hospitalId
    ensures forall i :: 0 <= i < |ambulances| && ambulances[i].hospitalId == hospitalId ==> ambulances[i] in r
    decreases |ambulances|
  {
    if ambulances == [] then []
    else
      var last := ambulances[|ambulances| - 1];
      var front := ambulances[..|ambulances| - 1];
      assert forall i :: 0 <= i < |front| ==> front[i] == ambulances[i];
      OfHospital(front, hospitalId) + (if last.hospitalId == hospitalId then [last] else [])
  }

  /** The hospital ids that occur in the fleet. */
  function HospitalIds(ambulances: seq<Ambulance>): set<string> {
    set i | 0 <= i < |ambulances| :: ambulances[i].hospitalId
  }

  /** `ambulancesByHospital`: one `forEach` over the fleet that creates a key on first sight and
      pushes each ambulance onto its hospital's list. Each key is a hospital id that occurs, and its
      list is that hospital's ambulances in fleet order. */
  method GroupByHospital(ambulances: seq<Ambulance>) returns (grouped: map<string, seq<Ambulance>>)
    ensures grouped.Keys == HospitalIds(ambulances)
    ensures forall k :: k in grouped ==> grouped[k] == OfHospital(ambulances, k)
  {
    grouped := map[];
    var i := 0;
    while i < |ambulances|
      invariant 0 <= i <= |ambulances|
      invariant GroupsOf(grouped, ambulances[..i])
    {
      var amb := ambulances[i];
      assert ambulances[..i + 1] == ambulances[..i] + [amb];
      GroupStep(grouped, ambulances[..i], amb);
      if amb.hospitalId !in grouped {
        grouped := grouped[amb.hospitalId := []];
      }
      grouped := grouped[amb.hospitalId := grouped[amb.hospitalId] + [amb]];
      i := i + 1;
    }
    assert ambulances[..i] == ambulances;
  }

  /** `grouped` is the grouping of the fleet `ambulances`. */
  predicate GroupsOf(grouped: map<string, seq<Ambulance>>, ambulances: seq<Ambulance>) {
    grouped.Keys == HospitalIds(ambulances)
    && forall k :: k in grouped ==> grouped[k] == OfHospital(ambulances, k)
  }

  /** One pass of the `forEach` body keeps the grouping up to date. */
  lemma GroupStep(grouped: map<string, seq<Ambulance>>, ambulances: seq<Ambulance>, amb: Ambulance)
    requires GroupsOf(grouped, ambulances)
    ensures var started := if amb.hospitalId in grouped then grouped else grouped[amb.hospitalId := []];
            GroupsOf(started[amb.hospitalId := started[amb.hospitalId] + [amb]], ambulances + [amb])
  {
    SnocStep(ambulances, amb);
    if amb.hospitalId !in grouped {
      NoneOfHospital(ambulances, amb.hospitalId);
    }
  }

  /** Appending one ambulance adds its hospital id and extends only its own hospital's group. */
  lemma SnocStep(ambulances: seq<Ambulance>, amb: Ambulance)
    ensures HospitalIds(ambulances + [amb]) == HospitalIds(ambulances) + {amb.hospitalId}
    ensures forall k :: OfHospital(ambulances + [amb], k)
                        == OfHospital(ambulances, k) + (if amb.hospitalId == k then [amb] else [])
  {
    var s := ambulances + [amb];
    assert s[..|s| - 1] == ambulances;
    assert forall j :: 0 <= j < |ambulances| ==> s[j] == ambulances[j];
    assert s[|ambulances|] == amb;
  }

  /** A hospital that does not occur has no ambulances. */
  lemma NoneOfHospital(ambulances: seq<Ambulance>, hospitalId: string)
    requires hospitalId !in HospitalIds(ambulances)
    ensures OfHospital(ambulances, hospitalId) == []
  {
    assert forall i :: 0 <= i < |ambulances| ==> ambulances[i].hospitalId in HospitalIds(ambulances);
    assert forall a :: a in ambulances ==> a.hospitalId != hospitalId;
  }

  /** The sizes of the groups of the listed hospitals, added up. */
  function GroupSizes(ambulances: seq<Ambulance>, ids: seq<string>): nat {
    if ids == [] then 0 else |OfHospital(ambulances, ids[0])| + GroupSizes(ambulances, ids[1..])
  }

  /** How often `x` occurs in `ids`. */
  function Occurrences(ids: seq<string>, x: string): nat {
    if ids == [] then 0 else (if ids[0] == x then 1 else 0) + Occurrences(ids[1..], x)
  }

  // ---------------------------------------------------------------------------------------------
  // Summary counts

  /** `ambulances.filter(a => a.status === <one of statuses>).length`. */
  function CountWithStatus(ambulances: seq<Ambulance>, statuses: set<string>): (r: nat)
    ensures r <= |ambulances|
    decreases |ambulances|
  {
    if ambulances == [] then 0
    else
      CountWithStatus(ambulances[..|ambulances| - 1], statuses)
      + (if ambulances[|ambulances| - 1].status in statuses then 1 else 0)
  }

  /** The four summary cards: total, available, in transit, and busy or responding. */
  datatype FleetSummary = FleetSummary(total: nat, available: nat, inTransit: nat, busyOrResponding: nat)

  function SummaryOf(ambulances: seq<Ambulance>): (r: FleetSummary)
    ensures r.total == |ambulances|
    ensures r.available + r.inTransit + r.busyOrResponding <= r.total
  {
    SummaryAddsUp(ambulances);
    FleetSummary(|ambulances|, CountWithStatus(ambulances, {AVAILABLE}), CountWithStatus(ambulances, {IN_TRANSIT}),
                 CountWithStatus(ambulances, {BUSY, RESPONDING}))
  }

  // ---------------------------------------------------------------------------------------------
  // Badge

  /** `getStatusColor`. */
  function StatusColor(status: string): string {
    if status == AVAILABLE then "bg-emerald-100 text-emerald-800"
    else if status == RESPONDING then "bg-blue-100 text-blue-800"
    else if status == IN_TRANSIT then "bg-amber-100 text-amber-800"
    else if status == BUSY then "bg-red-100 text-red-800"
    else "bg-gray-100 text-gray-800"
  }

  /** `getStatusIcon`: a check mark, a right arrow, a lightning bolt, a circled slash, or '?'. */
  function StatusIcon(status: string): string {
    if status == AVAILABLE then "\U{2713}"
    else if status == RESPONDING then "\U{2192}"
    else if status == IN_TRANSIT then "\U{26A1}"
    else if status == BUSY then "\U{2298}"
    else "?"
  }

  const STATUSES: set<string> := {AVAILABLE, RESPONDING, IN_TRANSIT, BUSY}

  // ---------------------------------------------------------------------------------------------
  // Properties

  /** Every ambulance is in the group of its own hospital, and only there. */
  lemma GroupOfOwnHospital(ambulances: seq<Ambulance>, i: nat, k: string)
    requires i < |ambulances|
    ensures ambulances[i] in OfHospital(ambulances, k) <==> ambulances[i].hospitalId == k
  {
  }

  /** Peeling the last ambulance off the fleet shrinks exactly the group of its hospital. */
  lemma {:induction false} GroupSizesStep(ambulances: seq<Ambulance>, ids: seq<string>)
    requires ambulances != []
    ensures GroupSizes(ambulances, ids)
            == GroupSizes(ambulances[..|ambulances| - 1], ids) + Occurrences(ids, ambulances[|ambulances| - 1].hospitalId)
    decreases |ids|
  {
    if ids != [] {
      GroupSizesStep(ambulances, ids[1..]);
    }
  }

  /** Over a duplicate-free list of ids that covers every hospital in the fleet (the keys of the
      grouping, for one), the group sizes add up to the fleet size. */
  lemma {:induction false} GroupSizesSum(ambulances: seq<Ambulance>, ids: seq<string>)
    requires forall i, j :: 0 <= i < j < |ids| ==> ids[i] != ids[j]
    requires forall i :: 0 <= i < |ambulances| ==> ambulances[i].hospitalId in ids
    ensures GroupSizes(ambulances, ids) == |ambulances|
    decreases |ambulances|
  {
    if ambulances == [] {
      GroupSizesEmpty(ids);
    } else {
      var front := ambulances[..|ambulances| - 1];
      GroupSizesStep(ambulances, ids);
      GroupSizesSum(front, ids);
      OccursOnce(ids, ambulances[|ambulances| - 1].hospitalId);
    }
  }

  lemma {:induction false} GroupSizesEmpty(ids: seq<string>)
    ensures GroupSizes([], ids) == 0
    decreases |ids|
  {
    if ids != [] {
      GroupSizesEmpty(ids[1..]);
    }
  }

  lemma {:induction false} OccursOnce(ids: seq<string>, x: string)
    requires forall i, j :: 0 <= i < j < |ids| ==> ids[i] != ids[j]
    requires x in ids
    ensures Occurrences(ids, x) == 1
    decreases |ids|
  {
    if ids[0] == x {
      NotOccurring(ids[1..], x);
    } else {
      OccursOnce(ids[1..], x);
    }
  }

  lemma {:induction false} NotOccurring(ids: seq<string>, x: string)
    requires x !in ids
    ensures Occurrences(ids, x) == 0
    decreases |ids|
  {
    if ids != [] {
      NotOccurring(ids[1..], x);
    }
  }

  /** Counting two disjoint status sets separately is counting their union. */
  lemma {:induction false} CountDisjointUnion(ambulances: seq<Ambulance>, a: set<string>, b: set<string>)
    requires a !! b
    ensures CountWithStatus(ambulances, a) + CountWithStatus(ambulances, b) == CountWithStatus(ambulances, a + b)
    decreases |ambulances|
  {
    if ambulances != [] {
      CountDisjointUnion(ambulances[..|ambulances| - 1], a, b);
    }
  }

  /** A status set that every ambulance's status belongs to counts the whole fleet. */
  lemma {:induction false} CountAll(ambulances: seq<Ambulance>, statuses: set<string>)
    requires forall i :: 0 <= i < |ambulances| ==> ambulances[i].status in statuses
    ensures CountWithStatus(ambulances, statuses) == |ambulances|
    decreases |ambulances|
  {
    if ambulances != [] {
      CountAll(ambulances[..|ambulances| - 1], statuses);
    }
  }

  /** When every status is one of the four declared ones the three cards add up to the total; an
      ambulance with any other status is counted by none of them. */
  lemma SummaryPartitions(ambulances: seq<Ambulance>)
    ensures var s := SummaryOf(ambulances);
            (forall i :: 0 <= i < |ambulances| ==> ambulances[i].status in STATUSES)
            ==> s.available + s.inTransit + s.busyOrResponding == s.total
    ensures var s := SummaryOf(ambulances);
            (exists i :: 0 <= i < |ambulances| && ambulances[i].status !in STATUSES)
            ==> s.available + s.inTransit + s.busyOrResponding < s.total
  {
    SummaryAddsUp(ambulances);
    if forall i :: 0 <= i < |ambulances| ==> ambulances[i].status in STATUSES {
      CountAll(ambulances, STATUSES);
    }
    if exists i :: 0 <= i < |ambulances| && ambulances[i].status !in STATUSES {
      var i :| 0 <= i < |ambulances| && ambulances[i].status !in STATUSES;
      CountMissesOne(ambulances, STATUSES, i);
    }
  }

  /** The three status cards count the fleet's ambulances with one of the four declared statuses. */
  lemma SummaryAddsUp(ambulances: seq<Ambulance>)
    ensures CountWithStatus(ambulances, {AVAILABLE}) + CountWithStatus(ambulances, {IN_TRANSIT})
            + CountWithStatus(ambulances, {BUSY, RESPONDING}) == CountWithStatus(ambulances, STATUSES)
  {
    var first := {AVAILABLE} + {IN_TRANSIT};
    assert first == {AVAILABLE, IN_TRANSIT};
    assert first + {BUSY, RESPONDING} == STATUSES;
    CountDisjointUnion(ambulances, {AVAILABLE}, {IN_TRANSIT});
    CountDisjointUnion(ambulances, first, {BUSY, RESPONDING});
  }

  /** An ambulance whose status is outside the set keeps the count below the fleet size. */
  lemma {:induction false} CountMissesOne(ambulances: seq<Ambulance>, statuses: set<string>, i: nat)
    requires i < |ambulances| && ambulances[i].status !in statuses
    ensures CountWithStatus(ambulances, statuses) < |ambulances|
    decreases |ambulances|
  {
    if i < |ambulances| - 1 {
      var front := ambulances[..|ambulances| - 1];
      assert front[i] == ambulances[i];
      CountMissesOne(front, statuses, i);
    }
  }

  /** The four statuses get four different colours and four different icons; every other string
      gets the gray default and '?', which none of the four gets. */
  lemma BadgesDistinct(s: string, t: string)
    requires s in STATUSES && t in STATUSES && s != t
    ensures StatusColor(s) != StatusColor(t) && StatusIcon(s) != StatusIcon(t)
    ensures StatusColor(s) != StatusColor("") && StatusIcon(s) != "?"
  {
  }

  lemma BadgeDefault(s: string)
    requires s !in STATUSES
    ensures StatusColor(s) == "bg-gray-100 text-gray-800" && StatusIcon(s) == "?"
  {
  }

  /** On the seed fleet: hospital '1' has two ambulances, '2' and '4' one each, '3' and '5' none. */
  lemma SeedFleet(now: string)
    ensures var fleet := MockAmbulances(now);
            |OfHospital(fleet, "1")| == 2 && |OfHospital(fleet, "2")| == 1 && |OfHospital(fleet, "4")| == 1
            && OfHospital(fleet, "3") == [] && OfHospital(fleet, "5") == []
  {
    var fleet := MockAmbulances(now);
    assert fleet[0].hospitalId == "1" && fleet[1].hospitalId == "1" && fleet[2].hospitalId == "2"
           && fleet[3].hospitalId == "4";
    GroupOfFour(fleet, "1");
    GroupOfFour(fleet, "2");
    GroupOfFour(fleet, "3");
    GroupOfFour(fleet, "4");
    GroupOfFour(fleet, "5");
  }

  /** The seed fleet's grouping has the keys '1', '2' and '4'. */
  lemma SeedFleetIds(now: string)
    ensures HospitalIds(MockAmbulances(now)) == {"1", "2", "4"}
  {
    var fleet := MockAmbulances(now);
    assert fleet[0].hospitalId == "1" && fleet[1].hospitalId == "1" && fleet[2].hospitalId == "2"
           && fleet[3].hospitalId == "4";
    assert forall k :: k in HospitalIds(fleet) ==> k in {"1", "2", "4"};
    assert "1" in HospitalIds(fleet) && "2" in HospitalIds(fleet) && "4" in HospitalIds(fleet) by {
      assert fleet[0].hospitalId in HospitalIds(fleet);
      assert fleet[2].hospitalId in HospitalIds(fleet);
      assert fleet[3].hospitalId in HospitalIds(fleet);
    }
  }

  /** A group of a four-ambulance fleet, spelled out. */
  lemma GroupOfFour(fleet: seq<Ambulance>, k: string)
    requires |fleet| == 4
    ensures |OfHospital(fleet, k)| == (if fleet[0].hospitalId == k then 1 else 0) + (if fleet[1].hospitalId == k then 1 else 0)
                                      + (if fleet[2].hospitalId == k then 1 else 0) + (if fleet[3].hospitalId == k then 1 else 0)
  {
    assert |OfHospital(fleet[..1], k)| == (if fleet[0].hospitalId == k then 1 else 0) by {
      assert fleet[..1][..0] == [];
    }
    assert |OfHospital(fleet[..2], k)| == |OfHospital(fleet[..1], k)| + (if fleet[1].hospitalId == k then 1 else 0) by {
      assert fleet[..2][..1] == fleet[..1];
    }
    assert |OfHospital(fleet[..3], k)| == |OfHospital(fleet[..2], k)| + (if fleet[2].hospitalId == k then 1 else 0) by {
      assert fleet[..3][..2] == fleet[..2];
    }
  }
}
