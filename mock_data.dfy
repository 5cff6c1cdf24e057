/** The record types of the dashboard and the seed data every page starts from (lib/mock-data.ts). */
module MockData {

  /** Coarse capacity indicator of a hospital: open, limited, full. */
  datatype Status = GREEN | YELLOW | RED

  /** An `{ available, total }` pair. Counts are integers; nothing in the record types forces
      `0 <= available <= total` (see `Consistent`). */
  datatype Capacity = Capacity(available: int, total: int)

  datatype Coordinates = Coordinates(lat: real, lng: real)

  datatype Doctor = Doctor(id: string, name: string, specialty: string, available: bool)

  datatype Hospital = Hospital(
    id: string,
    name: string,
    address: string,
    city: string,
    distance: real,            // precomputed fallback distance in km
    status: Status,
    phone: string,
    email: string,
    rating: real,
    beds: Capacity,
    icuBeds: Capacity,
    ventilators: Capacity,
    oxygen: Capacity,
    specialties: seq<string>,
    doctors: seq<Doctor>,
    acceptedInsurance: seq<string>,
    coordinates: Coordinates,
    ambulances: Capacity)

  /** The declared ambulance statuses. The field is a string because the store's status update
      casts whatever string it is given. */
  const AVAILABLE := "AVAILABLE"
  const RESPONDING := "RESPONDING"
  const IN_TRANSIT := "IN_TRANSIT"
  const BUSY := "BUSY"

  datatype Ambulance = Ambulance(
    id: string,
    hospitalId: string,
    status: string,
    location: Coordinates,
    lastUpdated: string)       // an ISO timestamp, opaque here

  /** The `{ available, total }` fields of a hospital, by the name the store's update is given. */
  datatype ResourceField = Beds | IcuBeds | Ventilators | Oxygen | Ambulances

  function ResourceOf(h: Hospital, f: ResourceField): Capacity {
    match f
    case Beds => h.beds
    case IcuBeds => h.icuBeds
    case Ventilators => h.ventilators
    case Oxygen => h.oxygen
    case Ambulances => h.ambulances
  }

  /** `{ ...h, [f]: c }`: the hospital with one capacity replaced and nothing else touched. */
  function WithResource(h: Hospital, f: ResourceField, c: Capacity): (r: Hospital)
    ensures ResourceOf(r, f) == c
    ensures forall g :: g != f ==> ResourceOf(r, g) == ResourceOf(h, g)
    ensures SameRecord(h, r)
  {
    match f
    case Beds => h.(beds := c)
    case IcuBeds => h.(icuBeds := c)
    case Ventilators => h.(ventilators := c)
    case Oxygen => h.(oxygen := c)
    case Ambulances => h.(ambulances := c)
  }

  /** `a` and `b` agree on every field except, possibly, the five capacities. */
  predicate SameRecord(a: Hospital, b: Hospital) {
    a.(beds := b.beds, icuBeds := b.icuBeds, ventilators := b.ventilators,
       oxygen := b.oxygen, ambulances := b.ambulances) == b
  }

  /** The capacity invariant the seed data keeps and the scoring bound needs. */
  predicate Consistent(c: Capacity) {
    0 <= c.available <= c.total && c.total > 0
  }

  predicate AllConsistent(h: Hospital) {
    forall f :: Consistent(ResourceOf(h, f))
  }

  const MOCK_HOSPITALS: seq<Hospital> := [
    Hospital(
      "1", "Mumbai General Hospital", "123 LBS Marg, Kurla", "Mumbai", 2.5, GREEN,
      "+91-22-4000-1001", "info@mumbaigeneral.com", 4.8,
      Capacity(45, 150), Capacity(12, 30), Capacity(8, 20), Capacity(95, 100),
      ["Cardiology", "Trauma", "Neurology", "Orthopedics"],
      [Doctor("d1", "Dr. Sarah Johnson", "Cardiology", true),
       Doctor("d2", "Dr. Michael Chen", "Trauma", true),
       Doctor("d3", "Dr. Emily Rodriguez", "Neurology", false)],
      ["Aetna", "Blue Cross", "UnitedHealth", "Cigna"],
      Coordinates(19.0728, 72.8826), Capacity(5, 12)),
    Hospital(
      "2", "Hiranandani Care Hospital", "456 Powai Lake Road", "Mumbai", 5.2, YELLOW,
      "+91-22-4000-1002", "info@hiranandanicare.com", 4.6,
      Capacity(15, 200), Capacity(3, 25), Capacity(2, 15), Capacity(40, 100),
      ["Trauma", "Surgery", "Pediatrics"],
      [Doctor("d4", "Dr. James Wilson", "Trauma", true),
       Doctor("d5", "Dr. Lisa Anderson", "Surgery", true)],
      ["Aetna", "Cigna"],
      Coordinates(19.1176, 72.9051), Capacity(2, 8)),
    Hospital(
      "3", "CityCare Emergency Centre", "789 Parel Road", "Mumbai", 1.8, RED,
      "+91-22-4000-1003", "info@citycare-emergency.com", 4.5,
      Capacity(0, 100), Capacity(0, 20), Capacity(0, 10), Capacity(5, 50),
      ["Cardiology", "Emergency", "Respiratory"],
      [Doctor("d6", "Dr. Robert Martinez", "Cardiology", false)],
      ["Blue Cross", "UnitedHealth"],
      Coordinates(19.0033, 72.8443), Capacity(0, 5)),
    Hospital(
      "4", "Metropolitan Hospital Mumbai", "321 Linking Road, Bandra West", "Mumbai", 3.1, GREEN,
      "+91-22-4000-1004", "info@metropolitanmumbai.com", 4.7,
      Capacity(60, 180), Capacity(15, 35), Capacity(10, 25), Capacity(98, 100),
      ["Oncology", "Neurology", "Orthopedics", "Gastroenterology"],
      [Doctor("d7", "Dr. Patricia Lee", "Oncology", true),
       Doctor("d8", "Dr. David Thompson", "Neurology", true)],
      ["Aetna", "Blue Cross", "UnitedHealth", "Cigna"],
      Coordinates(19.0600, 72.8347), Capacity(4, 10)),
    Hospital(
      "5", "Riverside Medical Complex Mumbai", "654 Mithi River Road, Andheri East", "Mumbai", 4.5, GREEN,
      "+91-22-4000-1005", "info@riversidemumbai.com", 4.4,
      Capacity(80, 220), Capacity(20, 40), Capacity(15, 30), Capacity(100, 100),
      ["Orthopedics", "Neurology", "Pediatrics", "Dermatology"],
      [Doctor("d9", "Dr. Susan Garcia", "Orthopedics", true),
       Doctor("d10", "Dr. Kevin O'Connor", "Pediatrics", false)],
      ["UnitedHealth", "Cigna", "Aetna"],
      Coordinates(19.1150, 72.8696), Capacity(6, 14))
  ]

  /** The seed ambulances; every `lastUpdated` is the load time `now`. */
  function MockAmbulances(now: string): (r: seq<Ambulance>)
    ensures |r| == 4
    ensures forall i :: 0 <= i < |r| ==> r[i].lastUpdated == now
  {
    [Ambulance("amb1", "1", AVAILABLE, Coordinates(19.0760, 72.8777), now),
     Ambulance("amb2", "1", IN_TRANSIT, Coordinates(19.0800, 72.8800), now),
     Ambulance("amb3", "2", RESPONDING, Coordinates(19.1176, 72.9055), now),
     Ambulance("amb4", "4", AVAILABLE, Coordinates(19.0600, 72.8347), now)]
  }

  const SPECIALTIES: seq<string> := [
    "Cardiology", "Trauma", "Neurology", "Orthopedics", "Surgery", "Pediatrics",
    "Oncology", "Emergency", "Respiratory", "Gastroenterology", "Dermatology"
  ]

  const INSURANCE_PROVIDERS: seq<string> := [
    "Aetna", "Blue Cross", "UnitedHealth", "Cigna", "Humana", "TRICARE"
  ]

  /** Every seed capacity satisfies `0 <= available <= total` with `total > 0`. */
  lemma SeedCapacitiesConsistent()
    ensures forall i :: 0 <= i < |MOCK_HOSPITALS| ==> AllConsistent(MOCK_HOSPITALS[i])
  {
  }

  /** The seed hospitals are '1' to '5', in that order, so their ids are pairwise distinct. */
  lemma SeedIdsDistinct()
    ensures |MOCK_HOSPITALS| == 5
    ensures forall i :: 0 <= i < 5 ==> MOCK_HOSPITALS[i].id == ["1", "2", "3", "4", "5"][i]
    ensures forall i, j :: 0 <= i < j < |MOCK_HOSPITALS| ==> MOCK_HOSPITALS[i].id != MOCK_HOSPITALS[j].id
  {
  }

  /** Every specialty a seed hospital lists is one of `SPECIALTIES`. */
  lemma SeedSpecialtiesKnown()
    ensures forall i, s :: 0 <= i < |MOCK_HOSPITALS| && s in MOCK_HOSPITALS[i].specialties ==> s in SPECIALTIES
  {
  }

  /** Every insurer a seed hospital accepts is one of `INSURANCE_PROVIDERS`. */
  lemma SeedInsurersKnown()
    ensures forall i, s :: 0 <= i < |MOCK_HOSPITALS| && s in MOCK_HOSPITALS[i].acceptedInsurance ==> s in INSURANCE_PROVIDERS
  {
  }

  /** Every seed ambulance belongs to a seed hospital; hospitals '3' and '5' have none. */
  lemma SeedAmbulancesReferToHospitals(now: string)
    ensures forall a :: a in MockAmbulances(now) ==>
              exists i :: 0 <= i < |MOCK_HOSPITALS| && MOCK_HOSPITALS[i].id == a.hospitalId
    ensures forall a :: a in MockAmbulances(now) ==> a.hospitalId != "3" && a.hospitalId != "5"
  {
    var hs := MOCK_HOSPITALS;
    assert hs[0].id == "1" && hs[1].id == "2" && hs[3].id == "4";
  }

  /** Hospital '3' is full: RED with no beds, ICU beds or ventilators free. */
  lemma SeedHospital3Full()
    ensures MOCK_HOSPITALS[2].id == "3" && MOCK_HOSPITALS[2].status == RED
    ensures MOCK_HOSPITALS[2].beds.available == 0 && MOCK_HOSPITALS[2].icuBeds.available == 0
    ensures MOCK_HOSPITALS[2].ventilators.available == 0
  {
  }
}
