/** The shared hospital and ambulance store (lib/hospital-context.tsx): two lists that every update
    replaces wholesale, a lookup, and a timer that jitters bed and oxygen counts. */
module HospitalContext {
  import opened Wrappers
  import opened MockData

  // ---------------------------------------------------------------------------------------------
  // Lookup

  /** `hospitals.find(h => h.id === id)`: the first hospital with that id, if any. */
  function FindById(hospitals: seq<Hospital>, id: string): (r: Option<Hospital>)
    ensures r.None? <==> forall i :: 0 <= i < |hospitals| ==> hospitals[i].id != id
    ensures r.Some? ==> exists i :: 0 <= i < |hospitals| && hospitals[i] == r.value && r.value.id == id
                                    && forall j :: 0 <= j < i ==> hospitals[j].id != id
    decreases |hospitals|
  {
    if hospitals == [] then None
    else if hospitals[0].id == id then Some(hospitals[0])
    else
      var r := FindById(hospitals[1..], id);
      assert forall i :: 1 <= i < |hospitals| ==> hospitals[i] == hospitals[1..][i - 1];
      assert r.Some? ==> exists i :: 1 <= i < |hospitals| && hospitals[i] == r.value
                                     && forall j :: 0 <= j < i ==> hospitals[j].id != id;
      r
  }

  // ---------------------------------------------------------------------------------------------
  // Per-record transforms

  /** The `map` callback of `updateHospitalAvailability`: `available` of one capacity becomes
      `value`, unchecked, on the hospitals with the id. */
  function SetAvailable(h: Hospital, hospitalId: string, field: ResourceField, value: int): Hospital {
    if h.id == hospitalId then WithResource(h, field, Capacity(value, ResourceOf(h, field).total)) else h
  }

  /** `prev.map(...)` of `updateHospitalAvailability`. */
  function UpdateAvailability(hospitals: seq<Hospital>, hospitalId: string, field: ResourceField, value: int)
    : (r: seq<Hospital>)
    ensures |r| == |hospitals|
    ensures forall i :: 0 <= i < |r| ==> r[i].id == hospitals[i].id
  {
    seq(|hospitals|, i requires 0 <= i < |hospitals| => SetAvailable(hospitals[i], hospitalId, field, value))
  }

  /** The `map` callback of `updateAmbulanceStatus`. */
  function SetStatus(a: Ambulance, ambulanceId: string, status: string, now: string): Ambulance {
    if a.id == ambulanceId then a.(status := status, lastUpdated := now) else a
  }

  /** `prev.map(...)` of `updateAmbulanceStatus`. */
  function UpdateStatus(ambulances: seq<Ambulance>, ambulanceId: string, status: string, now: string)
    : (r: seq<Ambulance>)
    ensures |r| == |ambulances|
    ensures forall i :: 0 <= i < |r| ==> r[i].id == ambulances[i].id && r[i].hospitalId == ambulances[i].hospitalId
  {
    seq(|ambulances|, i requires 0 <= i < |ambulances| => SetStatus(ambulances[i], ambulanceId, status, now))
  }

  /** The two random draws one tick makes for one hospital: `Math.random() > 0.7` (a bed is taken,
      otherwise one is freed) and `Math.random() > 0.6` (one unit of oxygen is added). */
  datatype Draw = Draw(bedTaken: bool, oxygenAdded: bool)

  /** One hospital after one tick. */
  function Jitter(h: Hospital, d: Draw): (r: Hospital)
    ensures r.beds.total == h.beds.total && r.oxygen.total == h.oxygen.total
    ensures r.beds.available >= 0
    ensures h.beds.available >= 0 ==> -1 <= r.beds.available - h.beds.available <= 1
    ensures r.oxygen.available <= r.oxygen.total
    ensures h.oxygen.available <= h.oxygen.total ==> h.oxygen.available <= r.oxygen.available
    ensures r.oxygen.available <= h.oxygen.available + 1
    ensures r.icuBeds == h.icuBeds && r.ventilators == h.ventilators && r.ambulances == h.ambulances
    ensures SameRecord(h, r)
  {
    var beds := h.beds.available + (if d.bedTaken then -1 else 1);
    var oxygen := h.oxygen.available + (if d.oxygenAdded then 1 else 0);
    h.(beds := h.beds.(available := if beds > 0 then beds else 0),
       oxygen := h.oxygen.(available := if oxygen < h.oxygen.total then oxygen else h.oxygen.total))
  }

  /** `prev.map(...)` of the tick, one draw per hospital. */
  function JitterAll(hospitals: seq<Hospital>, draws: seq<Draw>): (r: seq<Hospital>)
    requires |draws| == |hospitals|
    ensures |r| == |hospitals|
    ensures forall i :: 0 <= i < |r| ==> r[i].id == hospitals[i].id && r[i].status == hospitals[i].status
  {
    seq(|hospitals|, i requires 0 <= i < |hospitals| => Jitter(hospitals[i], draws[i]))
  }

  // ---------------------------------------------------------------------------------------------
  // The store

  class HospitalStore {
    var hospitals: seq<Hospital>
    var ambulances: seq<Ambulance>

    /** `useState(MOCK_HOSPITALS)`, `useState(MOCK_AMBULANCES)`; `now` is the load time. */
    constructor (now: string)
      ensures hospitals == MOCK_HOSPITALS && ambulances == MockAmbulances(now)
    {
      hospitals := MOCK_HOSPITALS;
      ambulances := MockAmbulances(now);
    }

    /** One firing of the five-second interval. */
    method Tick(draws: seq<Draw>)
      requires |draws| == |hospitals|
      modifies this
      ensures hospitals == JitterAll(old(hospitals), draws)
      ensures ambulances == old(ambulances)
    {
      hospitals := JitterAll(hospitals, draws);
    }

    method UpdateHospitalAvailability(hospitalId: string, field: ResourceField, value: int)
      modifies this
      ensures hospitals == UpdateAvailability(old(hospitals), hospitalId, field, value)
      ensures ambulances == old(ambulances)
    {
      hospitals := UpdateAvailability(hospitals, hospitalId, field, value);
    }

    /** `now` stands for `new Date().toISOString()`. */
    method UpdateAmbulanceStatus(ambulanceId: string, status: string, now: string)
      modifies this
      ensures ambulances == UpdateStatus(old(ambulances), ambulanceId, status, now)
      ensures hospitals == old(hospitals)
    {
      ambulances := UpdateStatus(ambulances, ambulanceId, status, now);
    }

    function GetHospitalById(id: string): (r: Option<Hospital>)
      reads this
      ensures r == FindById(hospitals, id)
    {
      FindById(hospitals, id)
    }
  }

  // ---------------------------------------------------------------------------------------------
  // Properties

  /** The availability update writes `value` into the named capacity of every hospital with the id,
      keeping its total, and touches nothing else: other capacities, the status and every other
      field of those hospitals, and all other hospitals, stay as they were. */
  lemma UpdateAvailabilityEffect(hospitals: seq<Hospital>, hospitalId: string, field: ResourceField, value: int)
    ensures var r := UpdateAvailability(hospitals, hospitalId, field, value);
            forall i :: 0 <= i < |r| ==>
              if hospitals[i].id == hospitalId then
                ResourceOf(r[i], field) == Capacity(value, ResourceOf(hospitals[i], field).total)
                && (forall g :: g != field ==> ResourceOf(r[i], g) == ResourceOf(hospitals[i], g))
                && SameRecord(hospitals[i], r[i]) && r[i].status == hospitals[i].status
              else r[i] == hospitals[i]
  {
  }

  /** An id no hospital has leaves the list as it is. */
  lemma UpdateUnknownIdUnchanged(hospitals: seq<Hospital>, hospitalId: string, field: ResourceField, value: int)
    requires forall i :: 0 <= i < |hospitals| ==> hospitals[i].id != hospitalId
    ensures UpdateAvailability(hospitals, hospitalId, field, value) == hospitals
  {
  }

  /** The update validates nothing: any value, negative or above the total, is stored. */
  lemma UpdateStoresAnyValue(hospitals: seq<Hospital>, i: nat, field: ResourceField, value: int)
    requires i < |hospitals|
    ensures ResourceOf(UpdateAvailability(hospitals, hospitals[i].id, field, value)[i], field).available == value
  {
  }

  /** Reading back after an update finds the same hospital as before with the new value in place. */
  lemma {:induction false} FindAfterUpdate(hospitals: seq<Hospital>, hospitalId: string, field: ResourceField, value: int)
    ensures FindById(UpdateAvailability(hospitals, hospitalId, field, value), hospitalId)
            == match FindById(hospitals, hospitalId)
               case None => None
               case Some(h) => Some(WithResource(h, field, Capacity(value, ResourceOf(h, field).total)))
    decreases |hospitals|
  {
    if hospitals != [] && hospitals[0].id != hospitalId {
      var r := UpdateAvailability(hospitals, hospitalId, field, value);
      assert r[1..] == UpdateAvailability(hospitals[1..], hospitalId, field, value);
      FindAfterUpdate(hospitals[1..], hospitalId, field, value);
    }
  }

  /** The status update changes `status` and `lastUpdated` of the matching ambulances only. */
  lemma UpdateStatusEffect(ambulances: seq<Ambulance>, ambulanceId: string, status: string, now: string)
    ensures var r := UpdateStatus(ambulances, ambulanceId, status, now);
            forall i :: 0 <= i < |r| ==>
              if ambulances[i].id == ambulanceId then r[i] == ambulances[i].(status := status, lastUpdated := now)
              else r[i] == ambulances[i]
  {
  }

  /** Nothing caps the bed count at the total: a full hospital that draws a freed bed goes over. */
  lemma JitterCanOverfillBeds(h: Hospital, d: Draw)
    requires h.beds.available >= h.beds.total && !d.bedTaken
    ensures Jitter(h, d).beds.available > h.beds.total
  {
  }

  /** Over any run of ticks bed counts stay non-negative and oxygen never exceeds its total, provided
      they started so; ICU beds, ventilators and statuses never change. */
  lemma {:induction false} TicksPreserve(hospitals: seq<Hospital>, runs: seq<seq<Draw>>)
    requires forall k :: 0 <= k < |runs| ==> |runs[k]| == |hospitals|
    requires forall i :: 0 <= i < |hospitals| ==> hospitals[i].beds.available >= 0
                                                  && hospitals[i].oxygen.available <= hospitals[i].oxygen.total
    ensures var r := Ticks(hospitals, runs);
            |r| == |hospitals|
            && forall i :: 0 <= i < |r| ==>
                 r[i].beds.available >= 0 && r[i].oxygen.available <= r[i].oxygen.total
                 && r[i].icuBeds == hospitals[i].icuBeds && r[i].ventilators == hospitals[i].ventilators
                 && r[i].status == hospitals[i].status && r[i].oxygen.available >= hospitals[i].oxygen.available
    decreases |runs|
  {
    if runs != [] {
      var next := JitterAll(hospitals, runs[0]);
      TicksPreserve(next, runs[1..]);
    }
  }

  /** The hospital list after several ticks. */
  function Ticks(hospitals: seq<Hospital>, runs: seq<seq<Draw>>): seq<Hospital>
    requires forall k :: 0 <= k < |runs| ==> |runs[k]| == |hospitals|
    decreases |runs|
  {
    if runs == [] then hospitals else Ticks(JitterAll(hospitals, runs[0]), runs[1..])
  }
}
