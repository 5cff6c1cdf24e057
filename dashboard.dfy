/** The dashboard's hospital filter (app/page.tsx): a location search over city and address and a
    specialty choice. The emergency level the page also collects is not an input of the filter. */
module Dashboard {
  import opened MockData
  import opened Text

  /** An empty search matches everything; otherwise the search, lower-cased, must occur in the
      lower-cased city or address. */
  predicate MatchesLocation(h: Hospital, searchLocation: string) {
    searchLocation == ""
    || Includes(ToLower(h.city), ToLower(searchLocation))
    || Includes(ToLower(h.address), ToLower(searchLocation))
  }

  /** 'all' and '' match everything; any other value must be listed exactly. */
  predicate MatchesSpecialty(h: Hospital, selectedSpecialty: string) {
    selectedSpecialty == "all" || selectedSpecialty == "" || selectedSpecialty in h.specialties
  }

  predicate Matches(h: Hospital, searchLocation: string, selectedSpecialty: string) {
    MatchesLocation(h, searchLocation) && MatchesSpecialty(h, selectedSpecialty)
  }

  /** `filteredHospitals`: the hospitals that match both tests, in list order. */
  function FilterHospitals(hospitals: seq<Hospital>, searchLocation: string, selectedSpecialty: string)
    : (r: seq<Hospital>)
    ensures |r| <= |hospitals|
    ensures forall h :: h in r <==> h in hospitals && Matches(h, searchLocation, selectedSpecialty)
    decreases |hospitals|
  {
    if hospitals == [] then []
    else
      var rest := FilterHospitals(hospitals[1..], searchLocation, selectedSpecialty);
      assert forall h :: h in hospitals <==> h == hospitals[0] || h in hospitals[1..];
      (if Matches(hospitals[0], searchLocation, selectedSpecialty) then [hospitals[0]] else []) + rest
  }

  /** Filtering a concatenation filters each part and keeps the parts in order, so the result is the
      in-order subsequence of matching hospitals. */
  lemma {:induction false} FilterAppend(a: seq<Hospital>, b: seq<Hospital>, searchLocation: string, selectedSpecialty: string)
    ensures FilterHospitals(a + b, searchLocation, selectedSpecialty)
            == FilterHospitals(a, searchLocation, selectedSpecialty) + FilterHospitals(b, searchLocation, selectedSpecialty)
    decreases |a|
  {
    if a != [] {
      assert a + b == [a[0]] + (a[1..] + b);
      assert a == [a[0]] + a[1..];
      FilterAppend(a[1..], b, searchLocation, selectedSpecialty);
      FilterCons(a[0], a[1..] + b, searchLocation, selectedSpecialty);
      FilterCons(a[0], a[1..], searchLocation, selectedSpecialty);
    } else {
      assert a + b == b;
    }
  }

  /** One step of the filter: the head is kept iff it matches. */
  lemma FilterCons(h: Hospital, t: seq<Hospital>, searchLocation: string, selectedSpecialty: string)
    ensures FilterHospitals([h] + t, searchLocation, selectedSpecialty)
            == (if Matches(h, searchLocation, selectedSpecialty) then [h] else [])
               + FilterHospitals(t, searchLocation, selectedSpecialty)
  {
    assert ([h] + t)[0] == h && ([h] + t)[1..] == t;
  }

  /** With no location and specialty 'all' (the page's initial state) every hospital is shown. */
  lemma {:induction false} FilterUnconstrained(hospitals: seq<Hospital>)
    ensures FilterHospitals(hospitals, "", "all") == hospitals
    decreases |hospitals|
  {
    if hospitals != [] {
      FilterUnconstrained(hospitals[1..]);
    }
  }

  /** The empty specialty filters exactly as 'all' does. */
  lemma {:induction false} EmptySpecialtyIsAll(hospitals: seq<Hospital>, searchLocation: string)
    ensures FilterHospitals(hospitals, searchLocation, "") == FilterHospitals(hospitals, searchLocation, "all")
    decreases |hospitals|
  {
    if hospitals != [] {
      EmptySpecialtyIsAll(hospitals[1..], searchLocation);
    }
  }

  /** The location test ignores the case of the search text: searching "MUMBAI" is searching "mumbai". */
  lemma LocationCaseInsensitive(h: Hospital, searchLocation: string)
    ensures MatchesLocation(h, searchLocation) <==> MatchesLocation(h, ToLower(searchLocation))
  {
    ToLowerIdempotent(searchLocation);
    assert searchLocation == "" <==> ToLower(searchLocation) == "";
  }

  /** Searching "mumbai" finds the first seed hospital by its city "Mumbai". */
  lemma SeedSearchByCity()
    ensures MatchesLocation(MOCK_HOSPITALS[0], "mumbai")
  {
    var h0 := MOCK_HOSPITALS[0];
    assert ToLower(h0.city) == "mumbai" && ToLower("mumbai") == "mumbai";
    assert OccursAt("mumbai", "mumbai", 0);
  }

  /** Searching "Bandra" finds seed hospital 4 through its address. */
  lemma SeedSearchByAddress()
    ensures MatchesLocation(MOCK_HOSPITALS[3], "Bandra")
  {
    var h3 := MOCK_HOSPITALS[3];
    assert ToLower("Bandra") == "bandra";
    assert ToLower(h3.address)[18..24] == "bandra";
    assert OccursAt(ToLower(h3.address), "bandra", 18);
  }

  /** Searching "Pune" does not find the first seed hospital. */
  lemma SeedSearchMiss()
    ensures !MatchesLocation(MOCK_HOSPITALS[0], "Pune")
  {
    FirstSeedPlace();
    LowerFirstSeedPlace();
    NotIncludes("mumbai", "pune");
    NotIncludes("123 lbs marg, kurla", "pune");
  }

  /** The city and address of the first seed hospital. */
  lemma FirstSeedPlace()
    ensures MOCK_HOSPITALS[0].city == "Mumbai" && MOCK_HOSPITALS[0].address == "123 LBS Marg, Kurla"
  {
  }

  /** The lower-cased texts the search for "Pune" compares. */
  lemma LowerFirstSeedPlace()
    ensures ToLower("Pune") == "pune" && ToLower("Mumbai") == "mumbai"
    ensures ToLower("123 LBS Marg, Kurla") == "123 lbs marg, kurla"
  {
  }

  /** A text without the first character of `sub` does not include `sub`. */
  lemma NotIncludes(s: string, sub: string)
    requires sub != [] && sub[0] !in s
    ensures !Includes(s, sub)
  {
    assert forall i :: OccursAt(s, sub, i) ==> s[i] == sub[0];
  }
}
