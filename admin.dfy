/** The hospital admin form (app/admin/page.tsx): a hospital choice, four available counts, and a
    submit handler that validates against the selected hospital's totals and then writes the four
    counts into the shared store. The 800 ms and 3 s timers are taken as running at once. */
module Admin {
  import opened Wrappers
  import opened MockData
  import opened HospitalContext

  /** The `availability` form state. */
  datatype FormValues = FormValues(beds: int, icuBeds: int, ventilators: int, oxygen: int)

  /** How a submit ended: no hospital chosen, an alert for the first value above its total, or the
      four updates issued. */
  datatype Outcome = NoHospitalSelected | Rejected(field: ResourceField) | Applied

  const SUCCESS_MESSAGE := "Hospital availability updated successfully!"

  /** The form value for a resource; the form has no ambulance entry. */
  function FormValue(v: FormValues, f: ResourceField): int
    requires f != Ambulances
  {
    match f
    case Beds => v.beds
    case IcuBeds => v.icuBeds
    case Ventilators => v.ventilators
    case Oxygen => v.oxygen
  }

  /** The order in which the submit handler checks the four values. */
  function CheckOrder(f: ResourceField): nat {
    match f
    case Beds => 0
    case IcuBeds => 1
    case Ventilators => 2
    case Oxygen => 3
    case Ambulances => 4
  }

  /** The alert shown for a rejected value. */
  function AlertMessage(f: ResourceField): string
    requires f != Ambulances
  {
    match f
    case Beds => "Beds cannot exceed total capacity"
    case IcuBeds => "ICU beds cannot exceed total capacity"
    case Ventilators => "Ventilators cannot exceed total capacity"
    case Oxygen => "Oxygen cannot exceed total capacity"
  }

  /** `x || fallback` on a number: 0 counts as absent. */
  function OrFallback(x: int, fallback: int): int {
    if x != 0 then x else fallback
  }

  /** The initial form's default for each field, used when the first hospital's count is 0 or
      there is no hospital. */
  function Fallback(f: ResourceField): int
    requires f != Ambulances
  {
    match f
    case Beds => 45
    case IcuBeds => 12
    case Ventilators => 8
    case Oxygen => 95
  }

  /** `defaultHospital?.id || ''` and the four `defaultHospital?.<f>.available || <n>` of the initial
      state, `defaultHospital` being the first hospital of the store. */
  function InitialId(hospitals: seq<Hospital>): (r: string)
    ensures hospitals == [] ==> r == ""
    ensures hospitals != [] ==> r == hospitals[0].id
  {
    if hospitals == [] then "" else hospitals[0].id
  }

  function InitialForm(hospitals: seq<Hospital>): (r: FormValues)
    ensures r.beds != 0 && r.icuBeds != 0 && r.ventilators != 0 && r.oxygen != 0
    ensures hospitals == [] ==> r == FormValues(45, 12, 8, 95)
    ensures hospitals == [] ==> forall f :: f != Ambulances ==> FormValue(r, f) == Fallback(f)
    ensures hospitals != [] ==>
              (forall f :: f != Ambulances && ResourceOf(hospitals[0], f).available != 0 ==>
                 FormValue(r, f) == ResourceOf(hospitals[0], f).available)
    ensures hospitals != [] ==>
              (forall f :: f != Ambulances && ResourceOf(hospitals[0], f).available == 0 ==>
                 FormValue(r, f) == Fallback(f))
  {
    if hospitals == [] then FormValues(45, 12, 8, 95)
    else
      var h := hospitals[0];
      FormValues(OrFallback(h.beds.available, 45), OrFallback(h.icuBeds.available, 12),
                 OrFallback(h.ventilators.available, 8), OrFallback(h.oxygen.available, 95))
  }

  /** The form filled from one hospital, as `handleHospitalChange` does. */
  function FormOf(h: Hospital): (r: FormValues)
    ensures forall f :: f != Ambulances ==> FormValue(r, f) == ResourceOf(h, f).available
  {
    FormValues(h.beds.available, h.icuBeds.available, h.ventilators.available, h.oxygen.available)
  }

  /** The validation block: nothing to check when the id matched no hospital; otherwise the first
      value, in check order, that is above the hospital's total. Only the upper bound is checked. */
  function Validate(v: FormValues, selected: Option<Hospital>): (r: Option<ResourceField>)
    ensures r.None? <==> selected.None?
                         || forall f :: f != Ambulances ==> FormValue(v, f) <= ResourceOf(selected.value, f).total
    ensures r.Some? ==> selected.Some? && r.value != Ambulances
                        && FormValue(v, r.value) > ResourceOf(selected.value, r.value).total
                        && forall g :: g != Ambulances && CheckOrder(g) < CheckOrder(r.value) ==>
                                         FormValue(v, g) <= ResourceOf(selected.value, g).total
  {
    match selected
    case None => None
    case Some(h) =>
      if v.beds > h.beds.total then Some(Beds)
      else if v.icuBeds > h.icuBeds.total then Some(IcuBeds)
      else if v.ventilators > h.ventilators.total then Some(Ventilators)
      else if v.oxygen > h.oxygen.total then Some(Oxygen)
      else None
  }

  /** The store's hospital list after the four `updateHospitalAvailability` calls of a submit. */
  function ApplyForm(hospitals: seq<Hospital>, id: string, v: FormValues): seq<Hospital> {
    var h1 := UpdateAvailability(hospitals, id, Beds, v.beds);
    var h2 := UpdateAvailability(h1, id, IcuBeds, v.icuBeds);
    var h3 := UpdateAvailability(h2, id, Ventilators, v.ventilators);
    UpdateAvailability(h3, id, Oxygen, v.oxygen)
  }

  /** The form values written into a hospital, totals kept. */
  function WithForm(h: Hospital, v: FormValues): Hospital {
    h.(beds := Capacity(v.beds, h.beds.total), icuBeds := Capacity(v.icuBeds, h.icuBeds.total),
       ventilators := Capacity(v.ventilators, h.ventilators.total), oxygen := Capacity(v.oxygen, h.oxygen.total))
  }

  class AdminPage {
    const store: HospitalStore
    var selectedHospitalId: string
    var availability: FormValues
    var loading: bool
    var successMessage: string

    /** The page's initial state, taken from the store's current first hospital. */
    constructor (store: HospitalStore)
      ensures this.store == store
      ensures selectedHospitalId == InitialId(store.hospitals)
      ensures availability == InitialForm(store.hospitals)
      ensures !loading && successMessage == ""
    {
      this.store := store;
      selectedHospitalId := InitialId(store.hospitals);
      availability := InitialForm(store.hospitals);
      loading := false;
      successMessage := "";
    }

    /** `handleUpdateAvailability`. */
    method HandleUpdateAvailability() returns (outcome: Outcome)
      modifies this, store
      ensures selectedHospitalId == old(selectedHospitalId) && availability == old(availability)
      ensures old(selectedHospitalId) == "" ==>
                outcome == NoHospitalSelected && unchanged(this) && unchanged(store)
      ensures old(selectedHospitalId) != "" ==>
                match Validate(old(availability), FindById(old(store.hospitals), old(selectedHospitalId)))
                case Some(f) => outcome == Rejected(f) && unchanged(this) && unchanged(store)
                case None =>
                  outcome == Applied
                  && store.hospitals == ApplyForm(old(store.hospitals), selectedHospitalId, availability)
                  && store.ambulances == old(store.ambulances)
                  && !loading && successMessage == SUCCESS_MESSAGE
    {
      if selectedHospitalId == "" {
        return NoHospitalSelected;
      }
      var selectedHospital := store.GetHospitalById(selectedHospitalId);
      var failed := Validate(availability, selectedHospital);
      if failed.Some? {
        return Rejected(failed.value);
      }
      loading := true;
      successMessage := "";
      store.UpdateHospitalAvailability(selectedHospitalId, Beds, availability.beds);
      store.UpdateHospitalAvailability(selectedHospitalId, IcuBeds, availability.icuBeds);
      store.UpdateHospitalAvailability(selectedHospitalId, Ventilators, availability.ventilators);
      store.UpdateHospitalAvailability(selectedHospitalId, Oxygen, availability.oxygen);
      loading := false;
      successMessage := SUCCESS_MESSAGE;
      outcome := Applied;
    }

    /** `handleHospitalChange`: the id is always taken; the form is refilled only from a hospital
        that exists. */
    method HandleHospitalChange(hospitalId: string)
      modifies this
      ensures selectedHospitalId == hospitalId
      ensures availability == match FindById(store.hospitals, hospitalId)
                              case None => old(availability)
                              case Some(h) => FormOf(h)
      ensures loading == old(loading) && successMessage == old(successMessage)
    {
      selectedHospitalId := hospitalId;
      var hospital := store.GetHospitalById(hospitalId);
      if hospital.Some? {
        availability := FormOf(hospital.value);
      }
    }

    /** One number input's `onChange`: `parseInt(text) || 0`, where `parsed` is `None` for a text
        that parses to NaN. */
    method SetFormValue(field: ResourceField, parsed: Option<int>)
      requires field != Ambulances
      modifies this
      ensures FormValue(availability, field) == parsed.GetOr(0)
      ensures forall g :: g != Ambulances && g != field ==> FormValue(availability, g) == FormValue(old(availability), g)
      ensures selectedHospitalId == old(selectedHospitalId)
      ensures loading == old(loading) && successMessage == old(successMessage)
    {
      var value := parsed.GetOr(0);
      match field
      case Beds => availability := availability.(beds := value);
      case IcuBeds => availability := availability.(icuBeds := value);
      case Ventilators => availability := availability.(ventilators := value);
      case Oxygen => availability := availability.(oxygen := value);
    }
  }

  // ---------------------------------------------------------------------------------------------
  // Properties

  /** After a submit the selected hospital reads back with the four form values and its old totals;
      an id that matches no hospital still issues the updates, which then change nothing. */
  lemma ApplyFormReadBack(hospitals: seq<Hospital>, id: string, v: FormValues)
    ensures FindById(ApplyForm(hospitals, id, v), id)
            == match FindById(hospitals, id)
               case None => None
               case Some(h) => Some(WithForm(h, v))
  {
    var h1 := UpdateAvailability(hospitals, id, Beds, v.beds);
    var h2 := UpdateAvailability(h1, id, IcuBeds, v.icuBeds);
    var h3 := UpdateAvailability(h2, id, Ventilators, v.ventilators);
    FindAfterUpdate(hospitals, id, Beds, v.beds);
    FindAfterUpdate(h1, id, IcuBeds, v.icuBeds);
    FindAfterUpdate(h2, id, Ventilators, v.ventilators);
    FindAfterUpdate(h3, id, Oxygen, v.oxygen);
  }

  /** A submit that an existing hospital's validation accepted leaves that hospital's four counts at
      or below their totals; they may still be negative, which validation never rejects. */
  lemma AcceptedValuesWithinTotals(hospitals: seq<Hospital>, id: string, v: FormValues)
    requires FindById(hospitals, id).Some? && Validate(v, FindById(hospitals, id)).None?
    ensures var r := FindById(ApplyForm(hospitals, id, v), id);
            r.Some? && forall f :: f != Ambulances ==>
              ResourceOf(r.value, f).available == FormValue(v, f)
              && ResourceOf(r.value, f).available <= ResourceOf(r.value, f).total
  {
    ApplyFormReadBack(hospitals, id, v);
  }

  /** Each rejected field has its own alert. */
  lemma AlertMessagesDistinct(f: ResourceField, g: ResourceField)
    requires f != Ambulances && g != Ambulances
    ensures AlertMessage(f) == AlertMessage(g) <==> f == g
  {
  }

  /** A value equal to the total, and a negative value, both pass validation. */
  lemma ValidationChecksUpperBoundOnly(h: Hospital)
    ensures Validate(FormValues(h.beds.total, h.icuBeds.total, h.ventilators.total, h.oxygen.total), Some(h)).None?
    ensures Validate(FormValues(-1, -1, -1, -1), Some(h)).None?
            <==> h.beds.total >= -1 && h.icuBeds.total >= -1 && h.ventilators.total >= -1 && h.oxygen.total >= -1
  {
  }

  /** The seed list's first hospital has no zero count, so the initial form shows its values
      45, 12, 8 and 95 and selects id '1'. */
  lemma SeedInitialForm()
    ensures InitialId(MOCK_HOSPITALS) == "1"
    ensures InitialForm(MOCK_HOSPITALS) == FormOf(MOCK_HOSPITALS[0]) == FormValues(45, 12, 8, 95)
  {
  }

  /** A first hospital with no free beds still shows 45 beds in the initial form. */
  lemma ZeroCountFallsBack(hospitals: seq<Hospital>)
    requires hospitals != [] && hospitals[0].beds.available == 0
    ensures InitialForm(hospitals).beds == 45
  {
  }
}
