/** The four summary cards above the hospital list (components/stats-overview.tsx): the GREEN count
    out of all hospitals, and the available beds, ICU beds and ventilators summed over the list.
    The sums and counts are also the building blocks of the government analytics page. */
module StatsOverview {
  import opened MockData

  /** `hospitals.reduce((sum, h) => sum + h.<f>.available, 0)`. */
  function SumAvailable(hospitals: seq<Hospital>, f: ResourceField): (r: int)
    ensures (forall i :: 0 <= i < |hospitals| ==> ResourceOf(hospitals[i], f).available >= 0) ==> r >= 0
    ensures (forall i :: 0 <= i < |hospitals| ==> ResourceOf(hospitals[i], f).available <= 0) ==> r <= 0
    decreases |hospitals|
  {
    if hospitals == [] then 0
    else SumAvailable(hospitals[..|hospitals| - 1], f) + ResourceOf(hospitals[|hospitals| - 1], f).available
  }

  /** `hospitals.reduce((sum, h) => sum + h.<f>.total, 0)`. */
  function SumTotal(hospitals: seq<Hospital>, f: ResourceField): (r: int)
    ensures (forall i :: 0 <= i < |hospitals| ==> ResourceOf(hospitals[i], f).total >= 0) ==> r >= 0
    ensures (forall i :: 0 <= i < |hospitals| ==> ResourceOf(hospitals[i], f).total > 0) ==>
              r >= |hospitals|
    decreases |hospitals|
  {
    if hospitals == [] then 0
    else SumTotal(hospitals[..|hospitals| - 1], f) + ResourceOf(hospitals[|hospitals| - 1], f).total
  }

  /** `hospitals.filter(h => h.status === s).length`. */
  function CountStatus(hospitals: seq<Hospital>, s: Status): (r: nat)
    ensures r <= |hospitals|
    ensures r == 0 <==> forall i :: 0 <= i < |hospitals| ==> hospitals[i].status != s
    ensures r == |hospitals| <==> forall i :: 0 <= i < |hospitals| ==> hospitals[i].status == s
    decreases |hospitals|
  {
    if hospitals == [] then 0
    else
      var rest := hospitals[..|hospitals| - 1];
      assert forall i :: 0 <= i < |rest| ==> rest[i] == hospitals[i];
      CountStatus(rest, s) + (if hospitals[|hospitals| - 1].status == s then 1 else 0)
  }

  /** The four cards. `hospitalCount` is the "/ n" shown beside the GREEN count. */
  datatype Overview = Overview(greenHospitals: nat, hospitalCount: nat, totalBeds: int, totalICU: int,
                               totalVentilators: int)

  function OverviewOf(hospitals: seq<Hospital>): (r: Overview)
    ensures r.greenHospitals <= r.hospitalCount == |hospitals|
    ensures hospitals == [] ==> r == Overview(0, 0, 0, 0, 0)
  {
    Overview(CountStatus(hospitals, GREEN), |hospitals|, SumAvailable(hospitals, Beds),
             SumAvailable(hospitals, IcuBeds), SumAvailable(hospitals, Ventilators))
  }

  // ---------------------------------------------------------------------------------------------
  // Properties

  /** A sum over a concatenation is the sum of the two parts. */
  lemma {:induction false} SumAvailableAppend(a: seq<Hospital>, b: seq<Hospital>, f: ResourceField)
    ensures SumAvailable(a + b, f) == SumAvailable(a, f) + SumAvailable(b, f)
    decreases |b|
  {
    if b == [] {
      assert a + b == a;
    } else {
      assert (a + b)[..|a + b| - 1] == a + b[..|b| - 1];
      SumAvailableAppend(a, b[..|b| - 1], f);
    }
  }

  lemma {:induction false} SumTotalAppend(a: seq<Hospital>, b: seq<Hospital>, f: ResourceField)
    ensures SumTotal(a + b, f) == SumTotal(a, f) + SumTotal(b, f)
    decreases |b|
  {
    if b == [] {
      assert a + b == a;
    } else {
      assert (a + b)[..|a + b| - 1] == a + b[..|b| - 1];
      SumTotalAppend(a, b[..|b| - 1], f);
    }
  }

  lemma {:induction false} CountStatusAppend(a: seq<Hospital>, b: seq<Hospital>, s: Status)
    ensures CountStatus(a + b, s) == CountStatus(a, s) + CountStatus(b, s)
    decreases |b|
  {
    if b == [] {
      assert a + b == a;
    } else {
      assert (a + b)[..|a + b| - 1] == a + b[..|b| - 1];
      CountStatusAppend(a, b[..|b| - 1], s);
    }
  }

  /** When every count is consistent (`0 <= available <= total`), the available sum lies between 0
      and the total sum. */
  lemma {:induction false} SumAvailableBounded(hospitals: seq<Hospital>, f: ResourceField)
    requires forall i :: 0 <= i < |hospitals| ==> 0 <= ResourceOf(hospitals[i], f).available <= ResourceOf(hospitals[i], f).total
    ensures 0 <= SumAvailable(hospitals, f) <= SumTotal(hospitals, f)
    decreases |hospitals|
  {
    if hospitals != [] {
      SumAvailableBounded(hospitals[..|hospitals| - 1], f);
    }
  }

  /** Every hospital has exactly one of the three statuses, so the counts add up to the list length. */
  lemma {:induction false} StatusCountsPartition(hospitals: seq<Hospital>)
    ensures CountStatus(hospitals, GREEN) + CountStatus(hospitals, YELLOW) + CountStatus(hospitals, RED)
            == |hospitals|
    decreases |hospitals|
  {
    if hospitals != [] {
      StatusCountsPartition(hospitals[..|hospitals| - 1]);
    }
  }

  /** Sums and counts depend on the multiset of hospitals only, not on their order: swapping two
      neighbours changes nothing. */
  lemma SwapNeighboursKeepsOverview(a: seq<Hospital>, x: Hospital, y: Hospital, b: seq<Hospital>)
    ensures OverviewOf(a + [x, y] + b) == OverviewOf(a + [y, x] + b)
  {
    SwapKeepsSum(a, x, y, b, Beds);
    SwapKeepsSum(a, x, y, b, IcuBeds);
    SwapKeepsSum(a, x, y, b, Ventilators);
    SwapKeepsCount(a, x, y, b, GREEN);
  }

  lemma SwapKeepsSum(a: seq<Hospital>, x: Hospital, y: Hospital, b: seq<Hospital>, f: ResourceField)
    ensures SumAvailable(a + [x, y] + b, f) == SumAvailable(a + [y, x] + b, f)
  {
    SumAvailableAppend(a + [x, y], b, f);
    SumAvailableAppend(a + [y, x], b, f);
    SumAvailableAppend(a, [x, y], f);
    SumAvailableAppend(a, [y, x], f);
    assert [x, y][..1] == [x] && [y, x][..1] == [y];
  }

  lemma SwapKeepsCount(a: seq<Hospital>, x: Hospital, y: Hospital, b: seq<Hospital>, s: Status)
    ensures CountStatus(a + [x, y] + b, s) == CountStatus(a + [y, x] + b, s)
  {
    CountStatusAppend(a + [x, y], b, s);
    CountStatusAppend(a + [y, x], b, s);
    CountStatusAppend(a, [x, y], s);
    CountStatusAppend(a, [y, x], s);
    assert [x, y][..1] == [x] && [y, x][..1] == [y];
  }

  /** A sum over five hospitals, spelled out. */
  lemma SumOfFive(h: seq<Hospital>, f: ResourceField)
    requires |h| == 5
    ensures SumAvailable(h, f) == ResourceOf(h[0], f).available + ResourceOf(h[1], f).available
            + ResourceOf(h[2], f).available + ResourceOf(h[3], f).available + ResourceOf(h[4], f).available
  {
    assert SumAvailable(h[..1], f) == ResourceOf(h[0], f).available by {
      assert h[..1][..0] == [];
    }
    assert SumAvailable(h[..2], f) == SumAvailable(h[..1], f) + ResourceOf(h[1], f).available by {
      assert h[..2][..1] == h[..1];
    }
    assert SumAvailable(h[..3], f) == SumAvailable(h[..2], f) + ResourceOf(h[2], f).available by {
      assert h[..3][..2] == h[..2];
    }
    assert SumAvailable(h[..4], f) == SumAvailable(h[..3], f) + ResourceOf(h[3], f).available by {
      assert h[..4][..3] == h[..3];
    }
  }

  lemma SumTotalOfFive(h: seq<Hospital>, f: ResourceField)
    requires |h| == 5
    ensures SumTotal(h, f) == ResourceOf(h[0], f).total + ResourceOf(h[1], f).total
            + ResourceOf(h[2], f).total + ResourceOf(h[3], f).total + ResourceOf(h[4], f).total
  {
    assert SumTotal(h[..1], f) == ResourceOf(h[0], f).total by {
      assert h[..1][..0] == [];
    }
    assert SumTotal(h[..2], f) == SumTotal(h[..1], f) + ResourceOf(h[1], f).total by {
      assert h[..2][..1] == h[..1];
    }
    assert SumTotal(h[..3], f) == SumTotal(h[..2], f) + ResourceOf(h[2], f).total by {
      assert h[..3][..2] == h[..2];
    }
    assert SumTotal(h[..4], f) == SumTotal(h[..3], f) + ResourceOf(h[3], f).total by {
      assert h[..4][..3] == h[..3];
    }
  }

  lemma CountOfFive(h: seq<Hospital>, s: Status)
    requires |h| == 5
    ensures CountStatus(h, s) == (if h[0].status == s then 1 else 0) + (if h[1].status == s then 1 else 0)
            + (if h[2].status == s then 1 else 0) + (if h[3].status == s then 1 else 0)
            + (if h[4].status == s then 1 else 0)
  {
    assert CountStatus(h[..1], s) == (if h[0].status == s then 1 else 0) by {
      assert h[..1][..0] == [];
    }
    assert CountStatus(h[..2], s) == CountStatus(h[..1], s) + (if h[1].status == s then 1 else 0) by {
      assert h[..2][..1] == h[..1];
    }
    assert CountStatus(h[..3], s) == CountStatus(h[..2], s) + (if h[2].status == s then 1 else 0) by {
      assert h[..3][..2] == h[..2];
    }
    assert CountStatus(h[..4], s) == CountStatus(h[..3], s) + (if h[3].status == s then 1 else 0) by {
      assert h[..4][..3] == h[..3];
    }
  }

  /** The seed list shows 3 of 5 hospitals GREEN, 200 beds, 50 ICU beds and 35 ventilators. */
  lemma SeedOverview()
    ensures OverviewOf(MOCK_HOSPITALS) == Overview(3, 5, 200, 50, 35)
  {
    SeedSums();
    SeedGreenCount();
  }

  lemma SeedSums()
    ensures SumAvailable(MOCK_HOSPITALS, Beds) == 200
    ensures SumAvailable(MOCK_HOSPITALS, IcuBeds) == 50
    ensures SumAvailable(MOCK_HOSPITALS, Ventilators) == 35
  {
    var h := MOCK_HOSPITALS;
    SumOfFive(h, Beds);
    SumOfFive(h, IcuBeds);
    SumOfFive(h, Ventilators);
  }

  lemma SeedGreenCount()
    ensures CountStatus(MOCK_HOSPITALS, GREEN) == 3
  {
    CountOfFive(MOCK_HOSPITALS, GREEN);
  }
}
