# Swasth hospital dashboard — a verified model

Swasth is a Next.js dashboard for emergency care in Mumbai. It lists hospitals with their free beds,
ICU beds, ventilators and oxygen, recommends a hospital for an emergency, tracks ambulances, lets a
hospital administrator correct its availability, and shows government analytics. All data lives in
an in-memory store seeded with five hospitals and four ambulances. A timer jitters the store's bed
and oxygen counts.

This project models the logic of those pages in Dafny and proves what it promises:

- `Routing` covers the recommendation. Every hospital gets a weighted score made of four
  sub-scores (distance, availability, status, specialty). The list is sorted by descending score with
  a stable sort. The first entry is the recommendation and the next two are alternatives. The page
  maps the hospitals to scored copies and calls the built-in stable `Array.prototype.sort`. The model
  renders this as an array loop followed by an in-place insertion sort. That sort is proved equal to a
  functional stable sort, which is proved sorted, a permutation, and order-keeping among ties.
  `Routing.StableSortUnique` proves that any list with those three properties equals it, so the
  model's sort agrees with any stable descending sort, the built-in one included.
- `MockData` covers the record types and the seed data.
- `HospitalContext` covers the shared store: a class whose hospital and ambulance lists are
  replaced by every update and by every tick of the random jitter.
- `Dashboard` covers the home page's location and specialty filter.
- `Admin` covers the admin form: a class whose submit handler validates and then issues four store
  updates.
- `GovAnalytics` covers the government page's counts, occupancy, chart and pie.
- `StatsOverview` covers the summary cards.
- `AmbulancePage` covers the ambulance page's grouping loop, counts and badges.
- `Middleware` covers the `/admin` route guard.
- `Login` covers the two-step phone and OTP login.
- `Wrappers` (an `Option` type) and `Text` (`startsWith`, `includes` and ASCII `toLowerCase`) are
  helpers.

The model uses exact arithmetic:

- Numbers are Dafny `real` and `int`.
- `Math.round(x)` is `Floor(x + 0.5)`.
- `toFixed(2)` rounds the magnitude and restores the sign.
- `haversineDistance` is trigonometry on doubles, so it enters as a function parameter `distanceKm`.
  Lemmas that need it non-negative require that.
- `Math.random()`, `Date.now()` and `new Date()` are inputs.
- `setTimeout` delays are taken as elapsing at once.

## Model

| member | source | states |
|---|---|---|
| Routing.Round | app/routing/page.tsx:109 | `Math.round`: the result is within half a unit of the input, a half rounding up |
| Routing.RoundTo2 | app/routing/page.tsx:109 | `parseFloat(d.toFixed(2))` is within 0.005 of `d`, has at most two decimals, and keeps the sign of a non-negative distance |
| Routing.DistanceScore | app/routing/page.tsx:91 | `max(0, 100 − 10·d)` is never negative, is at most 100 for `d ≥ 0`, and is exactly 0 from 10 km on |
| Routing.Percent | app/routing/page.tsx:95-97 | `available / total · 100` needs only a non-zero total, as the code has no guard; it lies in [0,100] for a consistent capacity |
| Routing.AvailabilityScore | app/routing/page.tsx:95-98 | the mean of the bed, ICU and ventilator percentages lies in [0,100] when those three capacities are consistent; oxygen is not an input |
| Routing.StatusScore | app/routing/page.tsx:102 | GREEN gives 100, YELLOW 60 and RED 0, each iff |
| Routing.SpecialtyScore | app/routing/page.tsx:106 | 100 iff a specialty other than 'all' is asked for and listed exactly; 0 otherwise, including for 'all' |
| Routing.ScoreHospital | app/routing/page.tsx:86-110 | the step-by-step `score +=` accumulation equals the weighted sum `Scored`, rounded, with the displayed distance rounded to 2 decimals |
| Routing.ScoreInRange | app/routing/page.tsx:86-109 | with consistent capacities and a non-negative distance the score is an integer in [0,100] |
| Routing.OverfullBedsScoreAbove100 | app/routing/page.tsx:95-109 | without `available ≤ total` the bound fails: 104 free beds of 100 score 101 |
| Routing.ScoreUsesUnroundedDistance | app/routing/page.tsx:89-109 | the score reads the unrounded distance: 9.996 km still earns distance points although the page shows 10 km |
| Routing.DistanceScoreAntitone | app/routing/page.tsx:91 | the distance sub-score never grows with the distance |
| Routing.PercentMonotone | app/routing/page.tsx:95-97 | with the total fixed, more free units never lower the percentage |
| Routing.ScoreMonotoneInAvailability | app/routing/page.tsx:95-109 | freeing more beds, ICU beds or ventilators (total fixed) never lowers the score |
| Routing.ScoreIgnoresOxygenAndUrgency | app/routing/page.tsx:85-113 | oxygen, the ambulance fleet and the emergency level leave the score unchanged |
| Routing.ScoreAll | app/routing/page.tsx:86-110 | the mapped list has one scored entry per hospital, in input order |
| Routing.SortByScoreCorrect | app/routing/page.tsx:112 | the sort's result is in non-increasing score order, keeps every score's entries in input order, and is a permutation of the same length |
| Routing.StableSortUnique | app/routing/page.tsx:112 | two lists that are both sorted and have the same per-score order are equal, so the stable sort's result is determined |
| Routing.RankHospitals | app/routing/page.tsx:85-113 | the array loop that scores every hospital, followed by the in-place sort, yields exactly `SortByScore` of the scored list |
| Routing.SortInPlace | app/routing/page.tsx:112 | the in-place insertion sort leaves the array equal to the functional stable sort of its old contents |
| Routing.SiftLeft | app/routing/page.tsx:112 | one insertion step moves the entry left past the strictly lower scores before it and leaves the rest of the array untouched |
| Routing.Best | app/routing/page.tsx:115 | the recommendation is absent iff the list is empty, and is otherwise element 0 |
| Routing.Alternatives | app/routing/page.tsx:116 | `slice(1, 3)` gives elements 1 and 2: two entries, or fewer for a short list |
| Routing.RankIsStableDescendingSort | app/routing/page.tsx:112 | the ranking is sorted, a permutation of the scored list, and keeps ties in input order; it is the only such list |
| Routing.BestIsFirstTopScorer | app/routing/page.tsx:112-116 | the recommendation exists iff there are hospitals; it has the top score, is the first hospital listed with that score, and no alternative scores more |
| Routing.SortedHeadIsFirstTop | app/routing/page.tsx:112-115 | the head of any stable descending sort has the top score and is the first input entry with it |
| Routing.RankIgnoresEmergencyLevel | app/routing/page.tsx:85-113 | changing the emergency level leaves the ranking as it is |
| Routing.SeedScores | lib/mock-data.ts:49-165 | with no user location and specialty 'all', seed hospitals 1–5 score 60, 32, 16, 59, 59 |
| Routing.SeedRanking | lib/mock-data.ts:49-165 | the seed hospitals rank 1, 4, 5, 2, 3; the tied hospitals 4 and 5 keep their input order |
| MockData.WithResource | lib/hospital-context.tsx:42 | `{ ...h, [field]: c }` sets the named capacity and leaves every other capacity and every other field alone |
| MockData.MockAmbulances | lib/mock-data.ts:167-196 | four seed ambulances, each stamped with the load time |
| MockData.SeedCapacitiesConsistent | lib/mock-data.ts:49-165 | every seed capacity satisfies `0 ≤ available ≤ total` with `total > 0` |
| MockData.SeedIdsDistinct | lib/mock-data.ts:49-165 | the seed hospital ids are '1' to '5', pairwise distinct |
| MockData.SeedSpecialtiesKnown | lib/mock-data.ts:64-156 | every specialty a seed hospital lists is in `SPECIALTIES` |
| MockData.SeedInsurersKnown | lib/mock-data.ts:70-161 | every insurer a seed hospital accepts is in `INSURANCE_PROVIDERS` |
| MockData.SeedAmbulancesReferToHospitals | lib/mock-data.ts:167-196 | every seed ambulance names an existing hospital, and hospitals '3' and '5' have none |
| MockData.SeedHospital3Full | lib/mock-data.ts:97-118 | hospital '3' is RED with no free beds, ICU beds or ventilators |
| HospitalContext.FindById | lib/hospital-context.tsx:55-57 | `find` returns nothing iff no hospital has the id; otherwise it returns the first hospital with the id |
| HospitalContext.UpdateAvailability | lib/hospital-context.tsx:39-45 | the `map` keeps the length, the order and every id |
| HospitalContext.UpdateStatus | lib/hospital-context.tsx:47-53 | the `map` keeps the length and every ambulance's id and hospital |
| HospitalContext.Jitter | lib/hospital-context.tsx:23-33 | one tick keeps free beds non-negative and within one of the old count (if it was non-negative); oxygen never exceeds its total, never drops if it started within it, and rises by at most one; ICU beds, ventilators, status and every other field are unchanged |
| HospitalContext.JitterAll | lib/hospital-context.tsx:23-33 | a tick keeps the length, the ids and the statuses |
| HospitalContext.HospitalStore.constructor | lib/hospital-context.tsx:17-18 | the store starts with the seed hospitals and ambulances |
| HospitalContext.HospitalStore.Tick | lib/hospital-context.tsx:21-37 | one interval firing replaces the hospital list by its jittered copy and leaves the ambulances alone |
| HospitalContext.HospitalStore.UpdateHospitalAvailability | lib/hospital-context.tsx:39-45 | the hospital list becomes the updated list; ambulances are unchanged |
| HospitalContext.HospitalStore.UpdateAmbulanceStatus | lib/hospital-context.tsx:47-53 | the ambulance list becomes the updated list; hospitals are unchanged |
| HospitalContext.HospitalStore.GetHospitalById | lib/hospital-context.tsx:55-57 | the lookup answers from the store's current hospital list |
| HospitalContext.UpdateAvailabilityEffect | lib/hospital-context.tsx:39-45 | matching hospitals get `available = value` with their total kept, and nothing else of them changes, status included; other hospitals are untouched |
| HospitalContext.UpdateUnknownIdUnchanged | lib/hospital-context.tsx:40-44 | an id that no hospital has leaves the list unchanged |
| HospitalContext.UpdateStoresAnyValue | lib/hospital-context.tsx:39-45 | no validation: any value, negative or above the total, is stored |
| HospitalContext.FindAfterUpdate | lib/hospital-context.tsx:39-57 | looking the id up after an update finds the old hospital with the new value in place, or nothing if there was nothing |
| HospitalContext.UpdateStatusEffect | lib/hospital-context.tsx:47-53 | matching ambulances change only `status` and `lastUpdated`; all others are untouched |
| HospitalContext.JitterCanOverfillBeds | lib/hospital-context.tsx:27 | nothing caps free beds at the total: a full hospital that draws a freed bed goes over |
| HospitalContext.TicksPreserve | lib/hospital-context.tsx:21-37 | over any number of ticks, non-negative beds and oxygen within its total stay so; oxygen never drops; ICU beds, ventilators and statuses never change |
| Dashboard.FilterHospitals | app/page.tsx:24-32 | a hospital is in the result iff it is in the input and matches both the location and the specialty test; the result is never longer than the input |
| Dashboard.FilterAppend | app/page.tsx:25-31 | filtering a concatenation concatenates the filtered parts, so the result is the in-order subsequence of matches |
| Dashboard.FilterUnconstrained | app/page.tsx:24-32 | with location '' and specialty 'all' the result is the input list |
| Dashboard.EmptySpecialtyIsAll | app/page.tsx:29 | specialty '' filters exactly as 'all' does |
| Dashboard.LocationCaseInsensitive | app/page.tsx:26-28 | the location test ignores the case of the search text |
| Dashboard.SeedSearchByCity | app/page.tsx:26-27 | "mumbai" finds seed hospital 1 by its city "Mumbai" |
| Dashboard.SeedSearchByAddress | app/page.tsx:26-28 | "Bandra" finds seed hospital 4 through its address |
| Dashboard.SeedSearchMiss | app/page.tsx:26-28 | "Pune" matches neither the city nor the address of seed hospital 1 |
| Text.Includes | app/page.tsx:27-28 | `includes` holds iff the text occurs at some offset |
| Text.ToLower | app/page.tsx:27-28 | `toLowerCase` keeps the length and lowers each ASCII capital |
| Text.ToLowerIdempotent | app/page.tsx:27-28 | lowering twice is lowering once |
| Admin.InitialId | app/admin/page.tsx:18-19 | the initial selection is the first hospital's id, or '' when there is no hospital |
| Admin.InitialForm | app/admin/page.tsx:20-25 | the initial form never holds 0 (`||` treats 0 as absent); each field shows the first hospital's count when that is non-zero, and otherwise (or with no hospital) its own fallback: 45 beds, 12 ICU beds, 8 ventilators, 95 oxygen |
| Admin.FormOf | app/admin/page.tsx:83-88 | the refilled form holds the hospital's four available counts |
| Admin.Validate | app/admin/page.tsx:38-59 | validation passes iff no hospital was found or all four values are at most their totals; a failure names a value above its total such that every value checked before it passed |
| Admin.AdminPage.constructor | app/admin/page.tsx:18-27 | the page starts with the initial id and form, not loading, no message |
| Admin.AdminPage.HandleUpdateAvailability | app/admin/page.tsx:31-77 | an empty selection returns at once and changes nothing; a rejected value changes nothing and reports the first failing field; otherwise the four updates are applied with the form values, loading ends and the success message is set |
| Admin.AdminPage.HandleHospitalChange | app/admin/page.tsx:79-90 | the id is always taken; the form is refilled only from a hospital that exists |
| Admin.AdminPage.SetFormValue | app/admin/page.tsx:151-190 | a number input stores `parseInt(text) \|\| 0` in its field and nothing else |
| Admin.ApplyFormReadBack | app/admin/page.tsx:66-70 | after a submit the selected hospital reads back with the four form values and its old totals; an unknown id changes nothing |
| Admin.AcceptedValuesWithinTotals | app/admin/page.tsx:38-70 | values that passed validation are stored at or below their totals |
| Admin.ValidationChecksUpperBoundOnly | app/admin/page.tsx:39-54 | values equal to the totals pass, and negative values pass whenever the totals are at least −1 |
| Admin.AlertMessagesDistinct | app/admin/page.tsx:41-56 | each rejected field has its own alert |
| Admin.SeedInitialForm | app/admin/page.tsx:18-25 | on the seed store the form starts at hospital '1' with 45, 12, 8, 95 |
| Admin.ZeroCountFallsBack | app/admin/page.tsx:21 | a first hospital with 0 free beds still shows 45 |
| StatsOverview.SumAvailable | components/stats-overview.tsx:6-8 | the `reduce` sum of available counts is non-negative when every count is, and non-positive when every count is |
| StatsOverview.SumTotal | app/admin/gov/page.tsx:16 | the sum of totals is non-negative for non-negative totals, and at least the list length when every total is positive |
| StatsOverview.CountStatus | components/stats-overview.tsx:9 | the count lies between 0 and the length; it is 0 iff no hospital has the status, and the length iff all have it |
| StatsOverview.OverviewOf | components/stats-overview.tsx:6-16 | the GREEN count is at most the hospital count; an empty list gives all zeros |
| StatsOverview.SumAvailableAppend | components/stats-overview.tsx:6-8 | a sum over a concatenation is the sum of the parts |
| StatsOverview.CountStatusAppend | components/stats-overview.tsx:9 | a status count over a concatenation is the sum of the parts |
| StatsOverview.SumAvailableBounded | app/admin/gov/page.tsx:16-17 | with consistent counts the available sum lies between 0 and the total sum |
| StatsOverview.StatusCountsPartition | app/admin/gov/page.tsx:44-52 | the GREEN, YELLOW and RED counts add up to the list length |
| StatsOverview.SwapNeighboursKeepsOverview | components/stats-overview.tsx:6-9 | the cards do not depend on the order of the hospitals |
| StatsOverview.SeedOverview | components/stats-overview.tsx:6-16 | on the seed list: 3 of 5 GREEN, 200 beds, 50 ICU beds, 35 ventilators |
| GovAnalytics.OccupancyRate | app/admin/gov/page.tsx:26 | for a non-zero total the result is the rounded occupied percentage; for a zero total it is +∞, −∞ or NaN, following the sign of the free count |
| GovAnalytics.OccupancyBand | app/admin/gov/page.tsx:170-174 | red iff above 80 (or +∞), amber iff in (50, 80], emerald otherwise, NaN included |
| GovAnalytics.CountActive | app/admin/gov/page.tsx:15 | the non-RED count is at most the list length |
| GovAnalytics.StatsOf | app/admin/gov/page.tsx:13-28 | active plus critical hospitals equals the total, and the occupancy is computed from the two bed sums |
| GovAnalytics.AvailabilityHistory | app/admin/gov/page.tsx:31-42 | seven points at the fixed hours; the '08:00' point equals the current sums and every point is the sums plus its fixed offsets |
| GovAnalytics.StatusDistribution | app/admin/gov/page.tsx:44-53 | three slices, Available, Limited and Full, whose values add up to the list length |
| GovAnalytics.ActivePlusCritical | app/admin/gov/page.tsx:15-18 | every hospital is either active (not RED) or critical (RED) |
| GovAnalytics.OccupancyInRange | app/admin/gov/page.tsx:26 | with `0 ≤ available ≤ total` and `total > 0` the rate is a finite integer in [0,100] |
| GovAnalytics.OverallOccupancyInRange | app/admin/gov/page.tsx:16-26 | when every hospital's beds are consistent, the overall rate of a non-empty list is in [0,100] |
| GovAnalytics.OccupancyComplementsPercent | app/admin/gov/page.tsx:149 | a hospital's occupancy is the rounded complement of the routing page's bed percentage |
| GovAnalytics.BandMonotone | app/admin/gov/page.tsx:170-174 | the colour band never falls as the occupancy rises |
| GovAnalytics.ZeroBedHospitalBands | app/admin/gov/page.tsx:149-174 | a hospital with no beds shows emerald (NaN) with none free, and red (+∞) with a negative free count |
| GovAnalytics.HistoryTracksSums | app/admin/gov/page.tsx:31-41 | every chart point moves one for one with the current sums |
| GovAnalytics.HistoryCanGoNegative | app/admin/gov/page.tsx:38 | the chart is not clamped: below 10 free beds the 16:00 point is negative |
| GovAnalytics.DistributionAgreesWithCounts | app/admin/gov/page.tsx:18-47 | the pie's GREEN slice is the summary card's count, and its RED slice the critical count |
| GovAnalytics.SeedStats | app/admin/gov/page.tsx:13-28 | on the seed list: 5 hospitals, 4 active, 1 critical, 200 of 850 beds free, 76% occupied |
| GovAnalytics.SeedBands | app/admin/gov/page.tsx:149-174 | the seed hospitals' bars: 70% amber, 93% red, 100% red, 67% amber, 64% amber |
| AmbulancePage.OfHospital | app/ambulance/page.tsx:15-17 | a hospital's group holds exactly the fleet's ambulances with that hospital id, in fleet order |
| AmbulancePage.GroupByHospital | app/ambulance/page.tsx:13-20 | the `forEach` loop builds a map whose keys are exactly the hospital ids that occur, each mapped to that hospital's ambulances in fleet order |
| AmbulancePage.GroupOfOwnHospital | app/ambulance/page.tsx:15-18 | an ambulance is in a group iff the group is keyed by its own hospital id |
| AmbulancePage.GroupSizesSum | app/ambulance/page.tsx:14-19 | over any duplicate-free list of ids covering the fleet, the group sizes add up to the fleet size |
| AmbulancePage.SummaryOf | app/ambulance/page.tsx:56-68 | the total card is the fleet size, and the three status cards add up to at most it |
| AmbulancePage.SummaryPartitions | app/ambulance/page.tsx:56-68 | the three status cards add up to the total iff every status is one of the four declared ones |
| AmbulancePage.BadgesDistinct | app/ambulance/page.tsx:22-40 | the four statuses get four different colours and icons, none of them the default |
| AmbulancePage.BadgeDefault | app/ambulance/page.tsx:28-38 | any other status gets the gray colour and '?' |
| AmbulancePage.SeedFleet | lib/mock-data.ts:167-196 | seed groups: two ambulances for '1', one each for '2' and '4', none for '3' and '5' |
| AmbulancePage.SeedFleetIds | app/ambulance/page.tsx:13-20 | the seed grouping has the keys '1', '2' and '4' |
| Middleware.IsProtected | middleware.ts:8-9 | a path is protected iff it starts with one of the two listed routes |
| Middleware.Guard | middleware.ts:3-16 | a redirect to '/login' happens iff the path is protected and the token is missing or empty; otherwise the request passes |
| Middleware.GovRouteRedundant | middleware.ts:8-9 | the '/admin/gov' entry adds nothing beyond '/admin' |
| Middleware.NoSegmentBoundary | middleware.ts:9 | '/administrator' is guarded like '/admin' |
| Middleware.EmptyTokenIsMissing | middleware.ts:4-11 | an empty cookie value counts as no token |
| Middleware.PassThrough | middleware.ts:9-15 | a path outside '/admin' always passes, and any path passes with a non-empty token |
| Middleware.PublicPagesPass | middleware.ts:9-15 | '/', '/login', '/routing' and '/ambulance' are never redirected |
| Login.LoginPage.constructor | app/login/page.tsx:13-17 | the page starts on the phone step with empty phone, OTP and error, not loading |
| Login.LoginPage.SetPhoneNumber | app/login/page.tsx:86-91 | typing a phone number changes only the phone field and keeps the step invariant |
| Login.LoginPage.SetOtp | app/login/page.tsx:110-116 | typing an OTP of at most six characters changes only the OTP field |
| Login.LoginPage.SendOtp | app/login/page.tsx:19-40 | an empty or short phone sets the phone error and stays on the phone step; a phone of ten or more characters moves to the OTP step with no error; loading ends either way |
| Login.LoginPage.VerifyOtp | app/login/page.tsx:42-64 | an empty or short OTP sets the OTP error, ends loading and stores nothing; otherwise the mock token and the role 'PUBLIC_USER' are stored and the page goes to '/' |
| Login.LoginPage.ChangePhone | app/login/page.tsx:126-130 | back to the phone step with the error cleared, phone and OTP kept |
| Login.PhoneContentNotChecked | app/login/page.tsx:23 | only the length is checked: any ten characters pass and nine never do |
| Login.LoginRun | app/login/page.tsx:19-64 | ten or more phone characters and a four-to-six-character OTP always end logged in on '/' |
| Login.ShortPhoneRun | app/login/page.tsx:19-27 | a phone of fewer than ten characters never leaves the phone step and stores no token |

## Left out

- `haversineDistance` (app/routing/page.tsx:15-25) is double-precision trigonometry. It is a parameter of the routing functions, and no property of it (such as symmetry) is proved.
- IEEE-754 doubles are not modelled: the score arithmetic and `toFixed(2)` use exact reals. They could differ from the page only where a double rounding error moves a value across a .5 rounding boundary.
- Routing.Percent: requires a non-zero total. The source divides without a guard, so a zero total yields NaN or ±∞ in the page, and this model does not follow that path.
- Routing.ScoreInRange: holds only for consistent capacities; `Routing.OverfullBedsScoreAbove100` and `HospitalContext.JitterCanOverfillBeds` show that a tick can push a score above 100.
- The geolocation request and the call, map and ambulance-request buttons of the routing page (app/routing/page.tsx:45-83, 118-122) are browser I/O.
- The malformed remainder of app/routing/page.tsx (the unclosed component and the second default export) is not modelled. The scoring block is modelled once.
- `Math.random()`: each tick's two random comparisons per hospital are a `Draw` input.
- `setInterval` and `setTimeout`: the 800 ms admin delay and the 1 s login delay are taken as elapsing at once. The 3 s timer that clears the admin success message is not modelled.
- `new Date()` and `Date.now()` are string inputs (`now`). The seed ambulances call `new Date().toISOString()` once per record (lib/mock-data.ts:173, 180, 187, 194), so their timestamps can differ by a millisecond. `MockData.MockAmbulances` gives all four records the one `now`.
- `toLowerCase` lowers only the ASCII letters A–Z. Full Unicode case mapping is not modelled.
- String lengths count Dafny characters rather than UTF-16 code units. The login length checks can therefore differ for characters outside the Basic Multilingual Plane.
- HospitalContext.HospitalStore.UpdateHospitalAvailability: `field` is one of the five capacity fields. The source takes any string, and a name that is not a capacity is not modelled.
- AmbulancePage.GroupByHospital: the grouping is a Dafny map. A JavaScript object used as a dictionary also sees inherited keys such as `constructor`, and an ambulance whose hospital id is such a name would make the page fail. That case is not modelled.
- `sessionStorage` writes and `router.push` in the login page are fields of the page object (`authToken`, `userRole`, `navigatedTo`). The login's `catch` branches ('Failed to send OTP', 'Invalid OTP. Please try again.') are not modelled; they run only if session storage or the timer throws.
- The `matcher` configuration of middleware.ts (lines 18-20) is framework routing. The guard is modelled for any path.
- Rendering and JSX are not modelled. This includes the status labels, the stats card's "/ n" suffix, the specialty badges and all other markup.
