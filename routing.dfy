/** The hospital recommendation of the routing page (app/routing/page.tsx): every hospital gets a
    weighted score out of four sub-scores, the list is sorted by descending score (stably), and the
    first entry is recommended with up to two alternatives. */
module Routing {
  import opened Wrappers
  import opened MockData

  /** The urgency the page collects. It is carried in the request but no computation reads it. */
  datatype EmergencyLevel = CRITICAL | URGENT | MODERATE

  /** The page state the ranking depends on. `userLocation` is `None` until (unless) geolocation
      answers; `requiredSpecialty` is `'all'` or a specialty name. */
  datatype RoutingRequest = RoutingRequest(
    userLocation: Option<Coordinates>,
    requiredSpecialty: string,
    emergencyLevel: EmergencyLevel)

  /** `{ ...h, score, effectiveDistance }`. */
  datatype ScoredHospital = ScoredHospital(hospital: Hospital, score: int, effectiveDistance: real)

  /** The great-circle distance in km from the first coordinate to the second. The haversine
      formula is trigonometry on doubles; it enters the model as a parameter. */
  type DistanceFn = (Coordinates, Coordinates) -> real

  // ---------------------------------------------------------------------------------------------
  // Sub-scores

  /** `Math.round(x)`: the nearest integer, a half rounded up. */
  function Round(x: real): (r: int)
    ensures r as real - 0.5 <= x < r as real + 0.5
  {
    (x + 0.5).Floor
  }

  /** `parseFloat(d.toFixed(2))`: `d` to two decimals. `toFixed` rounds the magnitude, a half
      away from zero, and puts the sign back. */
  function RoundTo2(d: real): (r: real)
    ensures -0.005 <= r - d <= 0.005
    ensures (r * 100.0).Floor as real == r * 100.0
    ensures d >= 0.0 ==> r >= 0.0
  {
    if d < 0.0 then
      RoundMagnitudeTo2(-d);
      -RoundMagnitudeTo2Value(-d)
    else
      RoundMagnitudeTo2(d);
      RoundMagnitudeTo2Value(d)
  }

  function RoundMagnitudeTo2Value(x: real): real {
    Round(x * 100.0) as real / 100.0
  }

  lemma RoundMagnitudeTo2(x: real)
    requires x >= 0.0
    ensures var r := RoundMagnitudeTo2Value(x);
            -0.005 <= r - x <= 0.005 && (r * 100.0).Floor as real == r * 100.0 && r >= 0.0
            && ((-r) * 100.0).Floor as real == (-r) * 100.0
  {
    var m := x * 100.0;
    var n := Round(m);
    assert n as real - 0.5 <= m < n as real + 0.5;
    assert n >= 0;
    var r := n as real / 100.0;
    assert r * 100.0 == n as real;
    assert (r * 100.0).Floor == n;
    assert (-r) * 100.0 == (-n) as real;
    assert r - x == (n as real - m) / 100.0;
  }

  /** `Math.max(0, 100 - d * 10)`: full marks at distance 0, nothing from 10 km on. */
  function DistanceScore(d: real): (r: real)
    ensures r >= 0.0
    ensures d >= 0.0 ==> r <= 100.0
    ensures d >= 10.0 ==> r == 0.0
    ensures d <= 10.0 ==> r == 100.0 - d * 10.0
  {
    if 100.0 - d * 10.0 > 0.0 then 100.0 - d * 10.0 else 0.0
  }

  /** `available / total * 100`; the source divides without a guard. */
  function Percent(c: Capacity): (r: real)
    requires c.total != 0
    ensures Consistent(c) ==> 0.0 <= r <= 100.0
  {
    PercentBounds(c);
    c.available as real / c.total as real * 100.0
  }

  lemma PercentBounds(c: Capacity)
    requires c.total != 0
    ensures Consistent(c) ==> 0.0 <= c.available as real / c.total as real * 100.0 <= 100.0
  {
    if Consistent(c) {
      var q := c.available as real / c.total as real;
      assert q * c.total as real == c.available as real;
      assert 0.0 <= q <= 1.0;
    }
  }

  /** The hospitals whose availability the score can compute: the three divisors are non-zero. */
  predicate Scorable(h: Hospital) {
    h.beds.total != 0 && h.icuBeds.total != 0 && h.ventilators.total != 0
  }

  /** Unweighted mean of the bed, ICU and ventilator percentages; oxygen is not part of it. */
  function AvailabilityScore(h: Hospital): (r: real)
    requires Scorable(h)
    ensures Consistent(h.beds) && Consistent(h.icuBeds) && Consistent(h.ventilators) ==> 0.0 <= r <= 100.0
  {
    (Percent(h.beds) + Percent(h.icuBeds) + Percent(h.ventilators)) / 3.0
  }

  /** GREEN 100, YELLOW 60, RED 0. */
  function StatusScore(s: Status): (r: int)
    ensures r == 100 <==> s == GREEN
    ensures r == 60 <==> s == YELLOW
    ensures r == 0 <==> s == RED
  {
    match s
    case GREEN => 100
    case YELLOW => 60
    case RED => 0
  }

  /** 100 exactly when a specialty other than 'all' is asked for and the hospital lists it;
      searching for 'all' scores 0 everywhere. */
  function SpecialtyScore(required: string, specialties: seq<string>): (r: int)
    ensures r == 100 <==> required != "all" && required in specialties
    ensures r == 0 <==> !(required != "all" && required in specialties)
  {
    if required != "all" && required in specialties then 100 else 0
  }

  /** The live distance when the user's location is known, else the hospital's stored distance. */
  function EffectiveDistance(h: Hospital, userLocation: Option<Coordinates>, distanceKm: DistanceFn): real {
    match userLocation
    case Some(loc) => distanceKm(loc, h.coordinates)
    case None => h.distance
  }

  /** The weighted sum before rounding. */
  function RawScore(h: Hospital, req: RoutingRequest, distanceKm: DistanceFn): real
    requires Scorable(h)
  {
    DistanceScore(EffectiveDistance(h, req.userLocation, distanceKm)) * 0.2
      + AvailabilityScore(h) * 0.4
      + StatusScore(h.status) as real * 0.3
      + SpecialtyScore(req.requiredSpecialty, h.specialties) as real * 0.1
  }

  /** The composite score and the rounded distance the page displays; the score is computed from
      the unrounded distance. */
  function Scored(h: Hospital, req: RoutingRequest, distanceKm: DistanceFn): ScoredHospital
    requires Scorable(h)
  {
    var d := EffectiveDistance(h, req.userLocation, distanceKm);
    ScoredHospital(h, Round(RawScore(h, req, distanceKm)), RoundTo2(d))
  }

  /** The body of the `map` callback: the score is accumulated term by term. */
  method ScoreHospital(h: Hospital, req: RoutingRequest, distanceKm: DistanceFn) returns (s: ScoredHospital)
    requires Scorable(h)
    ensures s == Scored(h, req, distanceKm)
  {
    var score := 0.0;
    var effectiveDistance := if req.userLocation.Some? then distanceKm(req.userLocation.value, h.coordinates)
                             else h.distance;
    var distanceScore := if 100.0 - effectiveDistance * 10.0 > 0.0 then 100.0 - effectiveDistance * 10.0 else 0.0;
    score := score + distanceScore * 0.2;

    var bedAvailability := h.beds.available as real / h.beds.total as real * 100.0;
    var icuAvailability := h.icuBeds.available as real / h.icuBeds.total as real * 100.0;
    var ventilatorAvailability := h.ventilators.available as real / h.ventilators.total as real * 100.0;
    var availabilityScore := (bedAvailability + icuAvailability + ventilatorAvailability) / 3.0;
    score := score + availabilityScore * 0.4;

    var statusScore := if h.status == GREEN then 100 else if h.status == YELLOW then 60 else 0;
    score := score + statusScore as real * 0.3;

    var specialtyScore := if req.requiredSpecialty != "all" && req.requiredSpecialty in h.specialties then 100 else 0;
    score := score + specialtyScore as real * 0.1;

    s := ScoredHospital(h, Round(score), RoundTo2(effectiveDistance));
  }

  // ---------------------------------------------------------------------------------------------
  // Properties of one hospital's score

  /** With consistent capacities and a non-negative distance the score is an integer in [0, 100]. */
  lemma ScoreInRange(h: Hospital, req: RoutingRequest, distanceKm: DistanceFn)
    requires Scorable(h)
    requires Consistent(h.beds) && Consistent(h.icuBeds) && Consistent(h.ventilators)
    requires EffectiveDistance(h, req.userLocation, distanceKm) >= 0.0
    ensures 0 <= Scored(h, req, distanceKm).score <= 100
  {
    var raw := RawScore(h, req, distanceKm);
    assert 0.0 <= raw <= 100.0;
  }

  /** Without `available <= total` the bound fails: 104 free beds out of 100 push a nearby GREEN
      hospital with the wanted specialty to 101. */
  lemma OverfullBedsScoreAbove100()
    ensures var h := MOCK_HOSPITALS[0].(beds := Capacity(104, 100), icuBeds := Capacity(10, 10),
                                        ventilators := Capacity(10, 10), distance := 0.0);
            Scorable(h) && Scored(h, RoutingRequest(None, "Trauma", URGENT), (a, b) => 0.0).score == 101
  {
    var h := MOCK_HOSPITALS[0].(beds := Capacity(104, 100), icuBeds := Capacity(10, 10),
                                ventilators := Capacity(10, 10), distance := 0.0);
    var req := RoutingRequest(None, "Trauma", URGENT);
    assert AvailabilityScore(h) == (104.0 + 100.0 + 100.0) / 3.0;
    assert RawScore(h, req, (a, b) => 0.0) == 20.0 + 40.0 * 304.0 / 300.0 + 30.0 + 10.0;
  }

  /** The score reads the unrounded distance; only the displayed distance is rounded. At 9.996 km
      the distance still earns a little, though the page shows 10 km, which would earn nothing. */
  lemma ScoreUsesUnroundedDistance()
    ensures RoundTo2(9.996) == 10.0
    ensures DistanceScore(9.996) > 0.0 && DistanceScore(RoundTo2(9.996)) == 0.0
  {
    assert Round(999.6) == 1000;
  }

  /** The distance sub-score never grows with the distance. */
  lemma DistanceScoreAntitone(d1: real, d2: real)
    requires d1 <= d2
    ensures DistanceScore(d2) <= DistanceScore(d1)
  {
  }

  /** Freeing more of a resource, total fixed, never lowers its percentage. */
  lemma PercentMonotone(c1: Capacity, c2: Capacity)
    requires c1.total == c2.total > 0 && c1.available <= c2.available
    ensures Percent(c1) <= Percent(c2)
  {
    var t := c1.total as real;
    var diff := (c2.available - c1.available) as real;
    assert diff / t >= 0.0;
    assert c2.available as real / t - c1.available as real / t == diff / t;
  }

  lemma RoundMonotone(x: real, y: real)
    requires x <= y
    ensures Round(x) <= Round(y)
  {
  }

  /** Freeing more beds, ICU beds or ventilators (total fixed) never lowers a hospital's score. */
  lemma {:induction false} ScoreMonotoneInAvailability(h: Hospital, f: ResourceField, v: int,
                                                       req: RoutingRequest, distanceKm: DistanceFn)
    requires Scorable(h) && f in {Beds, IcuBeds, Ventilators}
    requires ResourceOf(h, f).total > 0 && ResourceOf(h, f).available <= v
    ensures Scorable(WithResource(h, f, Capacity(v, ResourceOf(h, f).total)))
    ensures Scored(h, req, distanceKm).score
            <= Scored(WithResource(h, f, Capacity(v, ResourceOf(h, f).total)), req, distanceKm).score
  {
    var c := ResourceOf(h, f);
    var h' := WithResource(h, f, Capacity(v, c.total));
    PercentMonotone(c, Capacity(v, c.total));
    assert EffectiveDistance(h', req.userLocation, distanceKm) == EffectiveDistance(h, req.userLocation, distanceKm);
    assert AvailabilityScore(h) <= AvailabilityScore(h');
    RoundMonotone(RawScore(h, req, distanceKm), RawScore(h', req, distanceKm));
  }

  /** Oxygen, the ambulance fleet and the emergency level never influence a score. */
  lemma ScoreIgnoresOxygenAndUrgency(h: Hospital, oxygen: Capacity, fleet: Capacity, level: EmergencyLevel,
                                     req: RoutingRequest, distanceKm: DistanceFn)
    requires Scorable(h)
    ensures Scored(h.(oxygen := oxygen, ambulances := fleet), req.(emergencyLevel := level), distanceKm).score
            == Scored(h, req, distanceKm).score
  {
  }

  // ---------------------------------------------------------------------------------------------
  // The stable descending sort

  /** Non-increasing scores. */
  predicate SortedByScore(s: seq<ScoredHospital>) {
    forall i, j :: 0 <= i < j < |s| ==> s[i].score >= s[j].score
  }

  /** The entries of `s` whose score is `v`, in their order in `s`. Two lists that agree on this
      for every `v` are permutations of each other that keep every tie in the same order. */
  function WithScore(s: seq<ScoredHospital>, v: int): seq<ScoredHospital>
    decreases |s|
  {
    if s == [] then []
    else WithScore(s[..|s| - 1], v) + (if s[|s| - 1].score == v then [s[|s| - 1]] else [])
  }

  /** Inserts `x` behind every entry, scanning from the back, whose score is at least its own. */
  function InsertByScore(x: ScoredHospital, t: seq<ScoredHospital>): seq<ScoredHospital>
    decreases |t|
  {
    if t == [] then [x]
    else if t[|t| - 1].score >= x.score then t + [x]
    else InsertByScore(x, t[..|t| - 1]) + [t[|t| - 1]]
  }

  /** Insertion sort by descending score: `scored.sort((a, b) => b.score - a.score)` with the stable
      sort that ECMAScript requires. */
  function SortByScore(s: seq<ScoredHospital>): seq<ScoredHospital>
    decreases |s|
  {
    if s == [] then [] else InsertByScore(s[|s| - 1], SortByScore(s[..|s| - 1]))
  }

  lemma {:induction false} WithScoreAppend(s: seq<ScoredHospital>, t: seq<ScoredHospital>, v: int)
    ensures WithScore(s + t, v) == WithScore(s, v) + WithScore(t, v)
    decreases |t|
  {
    if t == [] {
      assert s + t == s;
    } else {
      var t' := t[..|t| - 1];
      assert (s + t)[..|s + t| - 1] == s + t';
      WithScoreAppend(s, t', v);
    }
  }

  /** `v` occurs as a score in `s` exactly when `WithScore(s, v)` is non-empty. */
  lemma {:induction false} WithScoreEmpty(s: seq<ScoredHospital>, v: int)
    ensures WithScore(s, v) == [] <==> forall i :: 0 <= i < |s| ==> s[i].score != v
    decreases |s|
  {
    if s != [] {
      WithScoreEmpty(s[..|s| - 1], v);
    }
  }

  lemma {:induction false} InsertByScorePermutes(x: ScoredHospital, t: seq<ScoredHospital>)
    ensures |InsertByScore(x, t)| == |t| + 1
    ensures multiset(InsertByScore(x, t)) == multiset(t) + multiset{x}
    decreases |t|
  {
    if t != [] && t[|t| - 1].score < x.score {
      var t', l := t[..|t| - 1], t[|t| - 1];
      assert t == t' + [l];
      InsertByScorePermutes(x, t');
    }
  }

  lemma {:induction false} InsertByScoreKeepsTies(x: ScoredHospital, t: seq<ScoredHospital>, v: int)
    ensures WithScore(InsertByScore(x, t), v) == WithScore(t, v) + (if x.score == v then [x] else [])
    decreases |t|
  {
    var r := InsertByScore(x, t);
    if t == [] {
    } else if t[|t| - 1].score >= x.score {
      assert r[..|r| - 1] == t;
    } else {
      var t', l := t[..|t| - 1], t[|t| - 1];
      var r' := InsertByScore(x, t');
      InsertByScoreKeepsTies(x, t', v);
      InsertByScorePermutes(x, t');
      assert r == r' + [l];
      assert r[..|r| - 1] == r';
    }
  }

  lemma {:induction false} InsertByScoreSorted(x: ScoredHospital, t: seq<ScoredHospital>)
    requires SortedByScore(t)
    ensures SortedByScore(InsertByScore(x, t))
    decreases |t|
  {
    if t != [] && t[|t| - 1].score < x.score {
      var t', l := t[..|t| - 1], t[|t| - 1];
      assert t == t' + [l];
      var r' := InsertByScore(x, t');
      assert SortedByScore(t') by {
        assert forall i, j :: 0 <= i < j < |t'| ==> t'[i] == t[i] && t'[j] == t[j];
      }
      InsertByScoreSorted(x, t');
      InsertByScorePermutes(x, t');
      // every entry of r' is x or an entry of t', and all of those score at least l
      forall i | 0 <= i < |r'| ensures r'[i].score >= l.score {
        assert r'[i] in multiset(r');
        assert r'[i] in multiset(t') || r'[i] == x;
        if r'[i] != x {
          var k :| 0 <= k < |t'| && t'[k] == r'[i];
          assert t[k] == t'[k];
        }
      }
      assert InsertByScore(x, t) == r' + [l];
    }
  }

  /** The sorted list keeps every score's entries in input order, is sorted, and is a permutation. */
  lemma {:induction false} SortByScoreCorrect(s: seq<ScoredHospital>)
    ensures SortedByScore(SortByScore(s))
    ensures SameTies(SortByScore(s), s)
    ensures multiset(SortByScore(s)) == multiset(s) && |SortByScore(s)| == |s|
    decreases |s|
  {
    if s != [] {
      var s', x := s[..|s| - 1], s[|s| - 1];
      assert s == s' + [x];
      SortByScoreCorrect(s');
      InsertByScorePermutes(x, SortByScore(s'));
      InsertByScoreSorted(x, SortByScore(s'));
      forall v ensures WithScore(SortByScore(s), v) == WithScore(s, v) {
        InsertByScoreKeepsTies(x, SortByScore(s'), v);
      }
    }
  }

  /** `a` and `b` hold the same entries for every score, in the same order. */
  ghost predicate SameTies(a: seq<ScoredHospital>, b: seq<ScoredHospital>) {
    forall v :: WithScore(a, v) == WithScore(b, v)
  }

  /** Sortedness and per-score order determine the list: any stable descending sort of `s` is
      `SortByScore(s)`. */
  lemma {:induction false} StableSortUnique(r1: seq<ScoredHospital>, r2: seq<ScoredHospital>)
    requires SortedByScore(r1) && SortedByScore(r2) && SameTies(r1, r2)
    ensures r1 == r2
    decreases |r1|
  {
    if r1 == [] || r2 == [] {
      var r := if r1 == [] then r2 else r1;
      if r != [] {
        WithScoreEmpty(r1, r[0].score);
        WithScoreEmpty(r2, r[0].score);
      }
    } else {
      var r1', r2' := r1[..|r1| - 1], r2[..|r2| - 1];
      LastScoreLeast(r1, r2);
      LastScoreLeast(r2, r1);
      LastEntriesAgree(r1, r2);
      DropLastKeepsTies(r1, r2);
      SortedPrefix(r1);
      SortedPrefix(r2);
      StableSortUnique(r1', r2');
      assert r1 == r1' + [r1[|r1| - 1]] && r2 == r2' + [r2[|r2| - 1]];
    }
  }

  lemma SortedPrefix(r: seq<ScoredHospital>)
    requires SortedByScore(r) && r != []
    ensures SortedByScore(r[..|r| - 1])
  {
    assert forall i, j :: 0 <= i < j < |r| - 1 ==> r[..|r| - 1][i] == r[i] && r[..|r| - 1][j] == r[j];
  }

  /** The last entry of a descending list scores least, so no more than any score of the other list. */
  lemma LastScoreLeast(r1: seq<ScoredHospital>, r2: seq<ScoredHospital>)
    requires SortedByScore(r2) && r1 != [] && r2 != [] && SameTies(r1, r2)
    ensures r2[|r2| - 1].score <= r1[|r1| - 1].score
  {
    var m := r1[|r1| - 1].score;
    WithScoreEmpty(r1, m);
    assert WithScore(r1, m) != [];
    assert WithScore(r2, m) != [];
    WithScoreEmpty(r2, m);
    var k :| 0 <= k < |r2| && r2[k].score == m;
    assert k == |r2| - 1 || r2[k].score >= r2[|r2| - 1].score;
  }

  /** Two stable descending sorts of the same entries end in the same entry. */
  lemma LastEntriesAgree(r1: seq<ScoredHospital>, r2: seq<ScoredHospital>)
    requires r1 != [] && r2 != [] && SameTies(r1, r2)
    requires r1[|r1| - 1].score == r2[|r2| - 1].score
    ensures r1[|r1| - 1] == r2[|r2| - 1]
  {
    var x, y := r1[|r1| - 1], r2[|r2| - 1];
    var w1, w2 := WithScore(r1, x.score), WithScore(r2, x.score);
    assert w1 == WithScore(r1[..|r1| - 1], x.score) + [x];
    assert w2 == WithScore(r2[..|r2| - 1], x.score) + [y];
    assert w1[|w1| - 1] == x && w2[|w2| - 1] == y;
  }

  /** Dropping a common last entry keeps two lists' per-score subsequences equal. */
  lemma DropLastKeepsTies(r1: seq<ScoredHospital>, r2: seq<ScoredHospital>)
    requires r1 != [] && r2 != [] && r1[|r1| - 1] == r2[|r2| - 1] && SameTies(r1, r2)
    ensures SameTies(r1[..|r1| - 1], r2[..|r2| - 1])
  {
    var x := r1[|r1| - 1];
    var p1, p2 := r1[..|r1| - 1], r2[..|r2| - 1];
    forall v ensures WithScore(p1, v) == WithScore(p2, v) {
      var w1, w2 := WithScore(r1, v), WithScore(r2, v);
      if v == x.score {
        assert w1 == WithScore(p1, v) + [x] && w1[..|w1| - 1] == WithScore(p1, v);
        assert w2 == WithScore(p2, v) + [x] && w2[..|w2| - 1] == WithScore(p2, v);
      } else {
        assert w1 == WithScore(p1, v);
        assert w2 == WithScore(p2, v);
      }
    }
  }

  /** What the inner loop of the insertion sort relies on: when every entry from `j` on scores less
      than `x` and the one before (if any) does not, `x` goes in at `j`. */
  lemma {:induction false} InsertByScoreAt(x: ScoredHospital, t: seq<ScoredHospital>, j: nat)
    requires j <= |t|
    requires j == 0 || t[j - 1].score >= x.score
    requires forall k :: j <= k < |t| ==> t[k].score < x.score
    ensures InsertByScore(x, t) == t[..j] + [x] + t[j..]
    decreases |t|
  {
    if t == [] {
    } else if j == |t| {
      assert t[..j] == t;
    } else {
      var t' := t[..|t| - 1];
      InsertByScoreAt(x, t', j);
      assert t'[..j] == t[..j];
      assert t[j..] == t'[j..] + [t[|t| - 1]];
    }
  }

  // ---------------------------------------------------------------------------------------------
  // The ranking

  /** `hospitals.map(...)`: every hospital scored, in input order. */
  function ScoreAll(hospitals: seq<Hospital>, req: RoutingRequest, distanceKm: DistanceFn): (r: seq<ScoredHospital>)
    requires forall i :: 0 <= i < |hospitals| ==> Scorable(hospitals[i])
    ensures |r| == |hospitals|
    ensures forall i :: 0 <= i < |r| ==> r[i] == Scored(hospitals[i], req, distanceKm)
  {
    seq(|hospitals|, i requires 0 <= i < |hospitals| => Scored(hospitals[i], req, distanceKm))
  }

  /** `routingResults`. */
  function Rank(hospitals: seq<Hospital>, req: RoutingRequest, distanceKm: DistanceFn): seq<ScoredHospital>
    requires forall i :: 0 <= i < |hospitals| ==> Scorable(hospitals[i])
  {
    SortByScore(ScoreAll(hospitals, req, distanceKm))
  }

  /** `routingResults` as the page computes it: the scored copy is built in a fresh array and
      sorted in place. */
  method RankHospitals(hospitals: seq<Hospital>, req: RoutingRequest, distanceKm: DistanceFn)
    returns (ranked: seq<ScoredHospital>)
    requires forall i :: 0 <= i < |hospitals| ==> Scorable(hospitals[i])
    ensures ranked == Rank(hospitals, req, distanceKm)
  {
    var n := |hospitals|;
    var a := new ScoredHospital[n];
    for i := 0 to n
      invariant forall k :: 0 <= k < i ==> a[k] == Scored(hospitals[k], req, distanceKm)
    {
      a[i] := ScoreHospital(hospitals[i], req, distanceKm);
    }
    assert a[..] == ScoreAll(hospitals, req, distanceKm);
    SortInPlace(a);
    ranked := a[..];
  }

  /** Insertion sort by descending score, in place. */
  method SortInPlace(a: array<ScoredHospital>)
    modifies a
    ensures a[..] == SortByScore(old(a[..]))
  {
    ghost var scored := a[..];
    for i := 0 to a.Length
      invariant a[..i] == SortByScore(scored[..i])
      invariant a[i..] == scored[i..]
    {
      assert a[i] == scored[i];
      SiftLeft(a, i);
      assert a[..i + 1] == InsertByScore(scored[i], SortByScore(scored[..i]));
      assert scored[..i + 1][..i] == scored[..i];
      assert a[i + 1..] == scored[i + 1..];
    }
    assert scored[..a.Length] == scored;
  }

  /** Moves `a[i]` left past the entries before it that score strictly less. */
  method SiftLeft(a: array<ScoredHospital>, i: nat)
    requires i < a.Length
    modifies a
    ensures a[..i + 1] == InsertByScore(old(a[i]), old(a[..i]))
    ensures a[i + 1..] == old(a[i + 1..])
  {
    ghost var x, sorted, rest := a[i], a[..i], a[i + 1..];
    assert a[..] == sorted[..i] + [x] + sorted[i..] + rest;
    var j := i;
    while j > 0 && a[j - 1].score < a[j].score
      invariant 0 <= j <= i
      invariant a[..] == sorted[..j] + [x] + sorted[j..] + rest
      invariant forall k :: j <= k < i ==> sorted[k].score < x.score
    {
      ghost var before := a[..];
      assert before[j - 1] == sorted[j - 1] && before[j] == x;
      SwapStep(sorted, x, rest, j);
      a[j - 1], a[j] := a[j], a[j - 1];
      assert a[..] == before[j - 1 := x][j := sorted[j - 1]];
      j := j - 1;
    }
    InsertByScoreAt(x, sorted, j);
    assert a[..i + 1] == (sorted[..j] + [x] + sorted[j..] + rest)[..i + 1];
    assert a[i + 1..] == (sorted[..j] + [x] + sorted[j..] + rest)[i + 1..];
  }

  /** Swapping `x` with its left neighbour moves it one place left in the layout `SiftLeft` keeps. */
  lemma SwapStep(sorted: seq<ScoredHospital>, x: ScoredHospital, rest: seq<ScoredHospital>, j: nat)
    requires 0 < j <= |sorted|
    ensures var s := sorted[..j] + [x] + sorted[j..] + rest;
            s[j - 1 := x][j := sorted[j - 1]] == sorted[..j - 1] + [x] + sorted[j - 1..] + rest
  {
    var s := sorted[..j] + [x] + sorted[j..] + rest;
    var t := sorted[..j - 1] + [x] + sorted[j - 1..] + rest;
    assert |s[j - 1 := x][j := sorted[j - 1]]| == |t|;
    forall k | 0 <= k < |t|
      ensures s[j - 1 := x][j := sorted[j - 1]][k] == t[k]
    {
      if k < j - 1 {
        assert s[k] == sorted[k] && t[k] == sorted[k];
      } else if k > j {
        assert s[k] == t[k];
      }
    }
  }

  /** `routingResults[0]`: nothing for an empty list. */
  function Best(ranked: seq<ScoredHospital>): (r: Option<ScoredHospital>)
    ensures r.None? <==> ranked == []
    ensures r.Some? ==> r.value == ranked[0]
  {
    if ranked == [] then None else Some(ranked[0])
  }

  /** `routingResults.slice(1, 3)`: the next two entries, fewer when the list is short. */
  function Alternatives(ranked: seq<ScoredHospital>): (r: seq<ScoredHospital>)
    ensures |r| == if |ranked| <= 1 then 0 else if |ranked| >= 3 then 2 else |ranked| - 1
    ensures forall k :: 0 <= k < |r| ==> r[k] == ranked[k + 1]
  {
    if |ranked| <= 1 then [] else ranked[1..if |ranked| >= 3 then 3 else |ranked|]
  }

  // ---------------------------------------------------------------------------------------------
  // Properties of the ranking

  /** `routingResults` is the scored list sorted by non-increasing score with ties in input order,
      hence a permutation of it; and it is the only list with those properties. */
  lemma RankIsStableDescendingSort(hospitals: seq<Hospital>, req: RoutingRequest, distanceKm: DistanceFn,
                                   other: seq<ScoredHospital>)
    requires forall i :: 0 <= i < |hospitals| ==> Scorable(hospitals[i])
    ensures var r := Rank(hospitals, req, distanceKm);
            SortedByScore(r) && SameTies(r, ScoreAll(hospitals, req, distanceKm))
            && multiset(r) == multiset(ScoreAll(hospitals, req, distanceKm))
    ensures SortedByScore(other) && SameTies(other, ScoreAll(hospitals, req, distanceKm))
            ==> other == Rank(hospitals, req, distanceKm)
  {
    var s := ScoreAll(hospitals, req, distanceKm);
    SortByScoreCorrect(s);
    if SortedByScore(other) && SameTies(other, s) {
      StableSortUnique(other, SortByScore(s));
    }
  }

  /** The first entry with score `v` is the first of `WithScore(s, v)`. */
  lemma {:induction false} FirstWithScore(s: seq<ScoredHospital>, v: int)
    requires WithScore(s, v) != []
    ensures exists i :: 0 <= i < |s| && s[i].score == v && WithScore(s, v)[0] == s[i]
                        && forall k :: 0 <= k < i ==> s[k].score != v
    decreases |s|
  {
    var s', l := s[..|s| - 1], s[|s| - 1];
    if WithScore(s', v) != [] {
      FirstWithScore(s', v);
      var i :| 0 <= i < |s'| && s'[i].score == v && WithScore(s', v)[0] == s'[i]
               && forall k :: 0 <= k < i ==> s'[k].score != v;
      assert s[i] == s'[i] && forall k :: 0 <= k < i ==> s[k] == s'[k];
    } else {
      WithScoreEmpty(s', v);
      assert forall k :: 0 <= k < |s| - 1 ==> s[k] == s'[k];
    }
  }

  /** The head of a stable descending sort of `s` has the top score and is the first entry of `s`
      with that score. */
  lemma SortedHeadIsFirstTop(s: seq<ScoredHospital>, r: seq<ScoredHospital>)
    requires SortedByScore(r) && SameTies(r, s) && multiset(r) == multiset(s) && r != []
    ensures forall j :: 0 <= j < |s| ==> s[j].score <= r[0].score
    ensures exists i :: 0 <= i < |s| && r[0] == s[i] && forall j :: 0 <= j < i ==> s[j].score < r[0].score
  {
    var m := r[0].score;
    forall j | 0 <= j < |s| ensures s[j].score <= m {
      assert s[j] in multiset(r);
      var k :| 0 <= k < |r| && r[k] == s[j];
      assert k == 0 || r[0].score >= r[k].score;
    }
    WithScoreEmpty(r, m);
    FirstWithScore(r, m);
    var i0 :| 0 <= i0 < |r| && r[i0].score == m && WithScore(r, m)[0] == r[i0]
              && forall k :: 0 <= k < i0 ==> r[k].score != m;
    assert i0 == 0;
    assert WithScore(s, m) == WithScore(r, m);
    FirstWithScore(s, m);
    var i :| 0 <= i < |s| && s[i].score == m && WithScore(s, m)[0] == s[i]
             && forall k :: 0 <= k < i ==> s[k].score != m;
    assert r[0] == s[i];
  }

  /** The recommended hospital exists exactly when there are hospitals; it has the top score, and
      among hospitals with that score it is the one listed first. The alternatives score no more. */
  lemma BestIsFirstTopScorer(hospitals: seq<Hospital>, req: RoutingRequest, distanceKm: DistanceFn)
    requires forall i :: 0 <= i < |hospitals| ==> Scorable(hospitals[i])
    ensures Best(Rank(hospitals, req, distanceKm)).None? <==> hospitals == []
    ensures var best := Best(Rank(hospitals, req, distanceKm));
            best.Some? ==>
              (forall j :: 0 <= j < |hospitals| ==> Scored(hospitals[j], req, distanceKm).score <= best.value.score)
              && (forall a :: a in Alternatives(Rank(hospitals, req, distanceKm)) ==> a.score <= best.value.score)
              && exists i :: 0 <= i < |hospitals| && best.value == Scored(hospitals[i], req, distanceKm)
                             && forall j :: 0 <= j < i ==> Scored(hospitals[j], req, distanceKm).score < best.value.score
  {
    var s := ScoreAll(hospitals, req, distanceKm);
    var r := Rank(hospitals, req, distanceKm);
    SortByScoreCorrect(s);
    if hospitals != [] {
      SortedHeadIsFirstTop(s, r);
      var alts := Alternatives(r);
      forall a | a in alts ensures a.score <= r[0].score {
        var k :| 0 <= k < |alts| && alts[k] == a;
        assert a == r[k + 1];
      }
    }
  }

  /** The emergency level plays no part: changing it leaves the ranking as it is. */
  lemma RankIgnoresEmergencyLevel(hospitals: seq<Hospital>, req: RoutingRequest, level: EmergencyLevel,
                                  distanceKm: DistanceFn)
    requires forall i :: 0 <= i < |hospitals| ==> Scorable(hospitals[i])
    ensures Rank(hospitals, req.(emergencyLevel := level), distanceKm) == Rank(hospitals, req, distanceKm)
  {
    assert ScoreAll(hospitals, req.(emergencyLevel := level), distanceKm) == ScoreAll(hospitals, req, distanceKm);
  }

  /** The seed hospitals, with no user location and specialty 'all', score 60, 32, 16, 59 and 59
      and rank 1, 4, 5, 2, 3: hospitals 4 and 5 tie and keep their order. */
  lemma SeedRanking(distanceKm: DistanceFn)
    ensures forall i :: 0 <= i < |MOCK_HOSPITALS| ==> Scorable(MOCK_HOSPITALS[i])
    ensures var r := Rank(MOCK_HOSPITALS, RoutingRequest(None, "all", URGENT), distanceKm);
            |r| == 5
            && (forall k :: 0 <= k < 5 ==> r[k].hospital.id == ["1", "4", "5", "2", "3"][k])
            && (forall k :: 0 <= k < 5 ==> r[k].score == [60, 59, 59, 32, 16][k])
  {
    var s := ScoreAll(MOCK_HOSPITALS, RoutingRequest(None, "all", URGENT), distanceKm);
    SeedScores(distanceKm);
    assert s == [s[0], s[1], s[2], s[3], s[4]];
    SortFive(s[0], s[1], s[2], s[3], s[4]);
  }

  /** Sorting five entries scored 60, 32, 16, 59, 59. */
  lemma SortFive(a: ScoredHospital, b: ScoredHospital, c: ScoredHospital, d: ScoredHospital, e: ScoredHospital)
    requires a.score == 60 && b.score == 32 && c.score == 16 && d.score == 59 && e.score == 59
    ensures SortByScore([a, b, c, d, e]) == [a, d, e, b, c]
  {
    assert [a, b, c, d, e][..4] == [a, b, c, d];
    assert [a, b, c, d][..3] == [a, b, c];
    assert [a, b, c][..2] == [a, b];
    assert [a, b][..1] == [a];
    assert SortByScore([a]) == [a];
    assert SortByScore([a, b]) == [a, b];
    assert SortByScore([a, b, c]) == [a, b, c];
    assert InsertByScore(d, [a]) == [a, d];
    assert InsertByScore(d, [a, b]) == [a, d, b];
    assert InsertByScore(d, [a, b, c]) == [a, d, b, c];
    assert SortByScore([a, b, c, d]) == [a, d, b, c];
    assert [a, d, b, c][..3] == [a, d, b];
    assert [a, d, b][..2] == [a, d];
    assert [a, d][..1] == [a];
    assert InsertByScore(e, [a, d]) == [a, d, e];
    assert InsertByScore(e, [a, d, b]) == [a, d, e, b];
    assert InsertByScore(e, [a, d, b, c]) == [a, d, e, b, c];
  }

  lemma SeedScores(distanceKm: DistanceFn)
    ensures forall i :: 0 <= i < |MOCK_HOSPITALS| ==> Scorable(MOCK_HOSPITALS[i])
    ensures var s := ScoreAll(MOCK_HOSPITALS, RoutingRequest(None, "all", URGENT), distanceKm);
            |s| == 5 && (forall k :: 0 <= k < 5 ==> s[k].hospital.id == ["1", "2", "3", "4", "5"][k])
            && s[0].score == 60 && s[1].score == 32 && s[2].score == 16 && s[3].score == 59 && s[4].score == 59
  {
    var hs := MOCK_HOSPITALS;
    var req := RoutingRequest(None, "all", URGENT);
    assert RawScore(hs[0], req, distanceKm) == 75.0 * 0.2 + (30.0 + 40.0 + 40.0) / 3.0 * 0.4 + 30.0;
    assert RawScore(hs[1], req, distanceKm) == 48.0 * 0.2 + (7.5 + 12.0 + 200.0 / 15.0) / 3.0 * 0.4 + 18.0;
    assert RawScore(hs[2], req, distanceKm) == 82.0 * 0.2;
    assert RawScore(hs[3], req, distanceKm) == 69.0 * 0.2 + (100.0 / 3.0 + 300.0 / 7.0 + 40.0) / 3.0 * 0.4 + 30.0;
    assert RawScore(hs[4], req, distanceKm) == 55.0 * 0.2 + (400.0 / 11.0 + 50.0 + 50.0) / 3.0 * 0.4 + 30.0;
  }
}
