/** The government analytics page (app/admin/gov/page.tsx): headline counts and the overall bed
    occupancy, a seven-point availability chart around the current sums, the status pie, and the
    per-hospital occupancy bar with its colour band. */
module GovAnalytics {
  import opened MockData
  import opened StatsOverview
  import Routing

  // ---------------------------------------------------------------------------------------------
  // Occupancy

  /** A JavaScript number produced by `Math.round((total - available) / total * 100)`: a finite
      integer, or, when `total` is 0, an infinity (non-zero numerator) or NaN (0 / 0). */
  datatype Rate = Finite(percent: int) | PlusInfinity | MinusInfinity | NotANumber

  function OccupancyRate(total: int, available: int): (r: Rate)
    ensures total != 0 ==>
              r.Finite?
              && r.percent as real - 0.5 <= (total - available) as real / total as real * 100.0 < r.percent as real + 0.5
    ensures total == 0 ==>
              (r == PlusInfinity <==> available < 0)
              && (r == MinusInfinity <==> available > 0)
              && (r == NotANumber <==> available == 0)
  {
    if total == 0 then
      if available < 0 then PlusInfinity else if available > 0 then MinusInfinity else NotANumber
    else Finite(Routing.Round((total - available) as real / total as real * 100.0))
  }

  /** The bar colour: `rate > 80` red, else `rate > 50` amber, else emerald. Comparisons with NaN are
      false, so NaN is emerald, as is minus infinity; plus infinity is red. */
  datatype Band = Red | Amber | Emerald

  function OccupancyBand(rate: Rate): (r: Band)
    ensures r == Red <==> rate == PlusInfinity || (rate.Finite? && rate.percent > 80)
    ensures r == Amber <==> rate.Finite? && 50 < rate.percent <= 80
    ensures r == Emerald <==> rate == MinusInfinity || rate == NotANumber || (rate.Finite? && rate.percent <= 50)
  {
    match rate
    case Finite(p) => if p > 80 then Red else if p > 50 then Amber else Emerald
    case PlusInfinity => Red
    case MinusInfinity => Emerald
    case NotANumber => Emerald
  }

  /** The occupancy of one hospital's beds, as the table row computes it. */
  function HospitalOccupancy(h: Hospital): Rate {
    OccupancyRate(h.beds.total, h.beds.available)
  }

  // ---------------------------------------------------------------------------------------------
  // Headline statistics

  /** `hospitals.filter(h => h.status !== 'RED').length`. */
  function CountActive(hospitals: seq<Hospital>): (r: nat)
    ensures r <= |hospitals|
    decreases |hospitals|
  {
    if hospitals == [] then 0
    else CountActive(hospitals[..|hospitals| - 1]) + (if hospitals[|hospitals| - 1].status != RED then 1 else 0)
  }

  datatype GovStats = GovStats(
    totalHospitals: nat,
    activeHospitals: nat,
    totalBeds: int,
    availableBeds: int,
    criticalHospitals: nat,
    occupancyRate: Rate)

  /** The `stats` memo. */
  function StatsOf(hospitals: seq<Hospital>): (r: GovStats)
    ensures r.totalHospitals == |hospitals|
    ensures r.activeHospitals + r.criticalHospitals == r.totalHospitals
    ensures r.occupancyRate == OccupancyRate(r.totalBeds, r.availableBeds)
  {
    ActivePlusCritical(hospitals);
    var totalBeds := SumTotal(hospitals, Beds);
    var availableBeds := SumAvailable(hospitals, Beds);
    GovStats(|hospitals|, CountActive(hospitals), totalBeds, availableBeds, CountStatus(hospitals, RED),
             OccupancyRate(totalBeds, availableBeds))
  }

  // ---------------------------------------------------------------------------------------------
  // Availability history

  datatype HistoryPoint = HistoryPoint(time: string, beds: int, icu: int, ventilators: int)

  /** The chart's hours and each series' fixed offset from the current sum, point by point. */
  const HOURS: seq<string> := ["00:00", "04:00", "08:00", "12:00", "16:00", "20:00", "24:00"]
  const BED_OFFSETS: seq<int> := [20, 15, 0, -5, -10, -5, 10]
  const ICU_OFFSETS: seq<int> := [5, 3, 0, -2, -3, -1, 4]
  const VENTILATOR_OFFSETS: seq<int> := [3, 2, 0, -1, -2, 0, 1]

  /** The `availabilityHistory` memo. */
  function AvailabilityHistory(hospitals: seq<Hospital>): (r: seq<HistoryPoint>)
    ensures |r| == 7
    ensures r[2] == HistoryPoint("08:00", SumAvailable(hospitals, Beds), SumAvailable(hospitals, IcuBeds),
                                 SumAvailable(hospitals, Ventilators))
    ensures forall k :: 0 <= k < 7 ==>
              r[k].time == HOURS[k]
              && r[k].beds == SumAvailable(hospitals, Beds) + BED_OFFSETS[k]
              && r[k].icu == SumAvailable(hospitals, IcuBeds) + ICU_OFFSETS[k]
              && r[k].ventilators == SumAvailable(hospitals, Ventilators) + VENTILATOR_OFFSETS[k]
  {
    var beds := SumAvailable(hospitals, Beds);
    var icu := SumAvailable(hospitals, IcuBeds);
    var vent := SumAvailable(hospitals, Ventilators);
    [HistoryPoint("00:00", beds + 20, icu + 5, vent + 3),
     HistoryPoint("04:00", beds + 15, icu + 3, vent + 2),
     HistoryPoint("08:00", beds, icu, vent),
     HistoryPoint("12:00", beds - 5, icu - 2, vent - 1),
     HistoryPoint("16:00", beds - 10, icu - 3, vent - 2),
     HistoryPoint("20:00", beds - 5, icu - 1, vent),
     HistoryPoint("24:00", beds + 10, icu + 4, vent + 1)]
  }

  // ---------------------------------------------------------------------------------------------
  // Status distribution

  datatype Slice = Slice(name: string, value: nat, color: string)

  /** The `statusDistribution` memo: the pie's three slices. */
  function StatusDistribution(hospitals: seq<Hospital>): (r: seq<Slice>)
    ensures |r| == 3
    ensures r[0].value + r[1].value + r[2].value == |hospitals|
    ensures r[0].name == "Available" && r[1].name == "Limited" && r[2].name == "Full"
  {
    StatusCountsPartition(hospitals);
    [Slice("Available", CountStatus(hospitals, GREEN), "#06a77d"),
     Slice("Limited", CountStatus(hospitals, YELLOW), "#f77f00"),
     Slice("Full", CountStatus(hospitals, RED), "#d62828")]
  }

  // ---------------------------------------------------------------------------------------------
  // Properties

  /** Every hospital is either active (not RED) or critical (RED). */
  lemma {:induction false} ActivePlusCritical(hospitals: seq<Hospital>)
    ensures CountActive(hospitals) + CountStatus(hospitals, RED) == |hospitals|
    decreases |hospitals|
  {
    if hospitals != [] {
      ActivePlusCritical(hospitals[..|hospitals| - 1]);
    }
  }

  /** With consistent counts and beds somewhere, the overall occupancy is a percentage. */
  lemma OccupancyInRange(total: int, available: int)
    requires 0 <= available <= total && total > 0
    ensures OccupancyRate(total, available).Finite?
    ensures 0 <= OccupancyRate(total, available).percent <= 100
  {
    var x := (total - available) as real / total as real * 100.0;
    assert 0.0 <= (total - available) as real / total as real <= 1.0;
    assert 0.0 <= x <= 100.0;
  }

  /** The same holds for the whole list whenever every hospital's beds are consistent. */
  lemma OverallOccupancyInRange(hospitals: seq<Hospital>)
    requires hospitals != [] && forall i :: 0 <= i < |hospitals| ==> Consistent(hospitals[i].beds)
    ensures StatsOf(hospitals).occupancyRate.Finite?
    ensures 0 <= StatsOf(hospitals).occupancyRate.percent <= 100
  {
    SumAvailableBounded(hospitals, Beds);
    assert SumTotal(hospitals, Beds) >= |hospitals|;
    OccupancyInRange(SumTotal(hospitals, Beds), SumAvailable(hospitals, Beds));
  }

  /** A hospital's occupancy and the routing page's bed percentage are two views of the same
      ratio: occupancy is the rounded complement of the free percentage. */
  lemma OccupancyComplementsPercent(c: Capacity)
    requires c.total != 0
    ensures OccupancyRate(c.total, c.available) == Finite(Routing.Round(100.0 - Routing.Percent(c)))
  {
    var t := c.total as real;
    var a := c.available as real;
    DivSplit(t, a, t);
    assert t / t == 1.0;
    assert (c.total - c.available) as real / t * 100.0 == 100.0 - a / t * 100.0;
    assert Routing.Percent(c) == a / t * 100.0;
  }

  /** Division distributes over a difference. */
  lemma DivSplit(x: real, y: real, t: real)
    requires t != 0.0
    ensures (x - y) / t == x / t - y / t
  {
    var q := (x - y) / t;
    var a := x / t;
    var b := y / t;
    assert q * t == x - y;
    assert a * t == x;
    assert b * t == y;
    assert (a - b) * t == a * t - b * t;
    assert (q - (a - b)) * t == 0.0;
  }

  /** The colour band never falls as the occupancy rises. */
  lemma BandMonotone(p: int, q: int)
    requires p <= q
    ensures BandRank(OccupancyBand(Finite(p))) <= BandRank(OccupancyBand(Finite(q)))
  {
  }

  function BandRank(b: Band): nat {
    match b
    case Emerald => 0
    case Amber => 1
    case Red => 2
  }

  /** A hospital with no beds at all is shown emerald if none are free (NaN) but red if the free
      count went negative (plus infinity). */
  lemma ZeroBedHospitalBands(h: Hospital)
    requires h.beds.total == 0
    ensures h.beds.available == 0 ==> OccupancyBand(HospitalOccupancy(h)) == Emerald
    ensures h.beds.available < 0 ==> OccupancyBand(HospitalOccupancy(h)) == Red
  {
  }

  /** Every history point moves one for one with the current sums: two hospital lists whose sums
      differ by `d` give charts that differ by `d` at every hour. */
  lemma HistoryTracksSums(a: seq<Hospital>, b: seq<Hospital>)
    ensures var ha := AvailabilityHistory(a);
            var hb := AvailabilityHistory(b);
            forall k :: 0 <= k < 7 ==>
              hb[k].beds - ha[k].beds == SumAvailable(b, Beds) - SumAvailable(a, Beds)
              && hb[k].icu - ha[k].icu == SumAvailable(b, IcuBeds) - SumAvailable(a, IcuBeds)
              && hb[k].ventilators - ha[k].ventilators == SumAvailable(b, Ventilators) - SumAvailable(a, Ventilators)
  {
  }

  /** The chart is not clamped: with fewer than 10 free beds the 16:00 point is negative. */
  lemma HistoryCanGoNegative(hospitals: seq<Hospital>)
    requires SumAvailable(hospitals, Beds) < 10
    ensures AvailabilityHistory(hospitals)[4].beds < 0
  {
  }

  /** The pie's GREEN slice is the stats card's GREEN count, and its RED slice the critical count. */
  lemma DistributionAgreesWithCounts(hospitals: seq<Hospital>)
    ensures StatusDistribution(hospitals)[0].value == OverviewOf(hospitals).greenHospitals
    ensures StatusDistribution(hospitals)[2].value == StatsOf(hospitals).criticalHospitals
  {
  }

  /** On the seed list: 5 hospitals, 4 active, 1 critical, 200 of 850 beds free, 76% occupied. */
  lemma SeedStats()
    ensures StatsOf(MOCK_HOSPITALS) == GovStats(5, 4, 850, 200, 1, Finite(76))
  {
    SeedSums();
    SeedBedTotal();
    SeedRedCount();
    SeedOccupancy();
  }

  lemma SeedBedTotal()
    ensures SumTotal(MOCK_HOSPITALS, Beds) == 850
  {
    SumTotalOfFive(MOCK_HOSPITALS, Beds);
  }

  lemma SeedRedCount()
    ensures CountStatus(MOCK_HOSPITALS, RED) == 1 && CountActive(MOCK_HOSPITALS) == 4
  {
    CountOfFive(MOCK_HOSPITALS, RED);
    ActivePlusCritical(MOCK_HOSPITALS);
  }

  lemma SeedOccupancy()
    ensures OccupancyRate(850, 200) == Finite(76)
  {
    assert 75.5 <= 650.0 / 850.0 * 100.0 < 76.5;
  }

  /** The seed hospitals' bars: 70% amber, 93% red, 100% red, 67% amber, 64% amber. */
  lemma SeedBands()
    ensures HospitalOccupancy(MOCK_HOSPITALS[0]) == Finite(70) && OccupancyBand(Finite(70)) == Amber
    ensures HospitalOccupancy(MOCK_HOSPITALS[1]) == Finite(93) && OccupancyBand(Finite(93)) == Red
    ensures HospitalOccupancy(MOCK_HOSPITALS[2]) == Finite(100) && OccupancyBand(Finite(100)) == Red
    ensures HospitalOccupancy(MOCK_HOSPITALS[3]) == Finite(67) && OccupancyBand(Finite(67)) == Amber
    ensures HospitalOccupancy(MOCK_HOSPITALS[4]) == Finite(64) && OccupancyBand(Finite(64)) == Amber
  {
    assert 92.5 <= 185.0 / 200.0 * 100.0 < 93.5;
    assert 66.5 <= 120.0 / 180.0 * 100.0 < 67.5;
    assert 63.5 <= 140.0 / 220.0 * 100.0 < 64.5;
  }
}
