/** The in-memory college directory (src/services/collegeDataService.js):
    search by criteria, ranked recommendations, lookups and statistics. */
module CollegeDataService {
  import opened Common
  import opened Sorting

  /** A college of the directory, with the fields the queries read. */
  datatype College = College(
    id: int,
    name: string,
    state: string,
    stream: string,
    category: string,
    feeAmount: int,
    seats: int,
    established: int,
    ranking: int,
    marksRequired: Option<int>,
    managementType: string)

  /** Search criteria. A falsy criterion disables its filter: an empty string
      (or a missing or `null` one), a `maxFee` or `minSeats` of 0, a missing
      `maxFee` (`None`). An unbounded budget (`Infinity`) is truthy but lets
      every fee through, so it is `None` too. */
  datatype Criteria = Criteria(
    state: string,
    stream: string,
    maxFee: Option<int>,
    managementType: string,
    minSeats: int,
    sortBy: string)

  const NoCriteria := Criteria("", "", None, "", 0, "")

  predicate StateOk(c: College, cr: Criteria)
  {
    cr.state == "" || ContainsIgnoringCase(c.state, cr.state)
  }

  predicate StreamOk(c: College, cr: Criteria)
  {
    cr.stream == "" || ContainsIgnoringCase(c.stream, cr.stream) || ContainsIgnoringCase(c.category, cr.stream)
  }

  predicate FeeOk(c: College, cr: Criteria)
  {
    cr.maxFee.None? || cr.maxFee.value == 0 || c.feeAmount <= cr.maxFee.value
  }

  predicate ManagementOk(c: College, cr: Criteria)
  {
    cr.managementType == "" || ContainsIgnoringCase(c.managementType, cr.managementType)
  }

  predicate SeatsOk(c: College, cr: Criteria)
  {
    cr.minSeats == 0 || c.seats >= cr.minSeats
  }

  /** A college passes a search when it passes every active filter. */
  predicate Selected(c: College, cr: Criteria)
  {
    StateOk(c, cr) && StreamOk(c, cr) && FeeOk(c, cr) && ManagementOk(c, cr) && SeatsOk(c, cr)
  }

  predicate KnownSortKey(sortBy: string)
  {
    sortBy == "fee" || sortBy == "ranking" || sortBy == "seats" || sortBy == "established"
  }

  /** The number the comparator subtracts: ascending fee or ranking,
      descending seats or year of establishment, 0 for any other key. */
  function SortKey(sortBy: string, c: College): int
  {
    match sortBy
    case "fee" => c.feeAmount
    case "ranking" => c.ranking
    case "seats" => -c.seats
    case "established" => -c.established
    case _ => 0
  }

  /** The colleges whose sort key is `k`, in order. */
  function WithKey(s: seq<College>, sortBy: string, k: int): seq<College>
  {
    Filter(s, (c: College) => SortKey(sortBy, c) == k)
  }

  /** The ids of the directory's table, in order: 22 to 27 appear twice. */
  const TableIds: seq<int> := [
    1, 2, 3, 4, 5, 6, 7, 8, 9, 10, 11, 12, 13, 14, 15, 16, 17, 18, 19, 20,
    21, 22, 23, 24, 25, 26, 27, 22, 23, 24, 25, 26, 27, 28, 29, 30]

  /** The index `find` stops at: the first college with the id. */
  function FirstIndexOf(colleges: seq<College>, id: int): (r: Option<nat>)
    ensures r.Some? ==> r.value < |colleges| && colleges[r.value].id == id
    ensures r.Some? ==> forall j :: 0 <= j < r.value ==> colleges[j].id != id
    ensures r.None? <==> forall j :: 0 <= j < |colleges| ==> colleges[j].id != id
  {
    if colleges == [] then None
    else if colleges[0].id == id then Some(0)
    else match FirstIndexOf(colleges[1..], id)
      case None => None
      case Some(k) => Some(k + 1)
  }

  /** A college whose id already occurs earlier is never the one found. */
  lemma ShadowedEntry(colleges: seq<College>, j: nat, k: nat)
    requires j < k < |colleges| && colleges[j].id == colleges[k].id
    ensures FirstIndexOf(colleges, colleges[k].id) != Some(k)
  {
  }

  /** An example on the directory's own table, with `ShadowedEntry` as the
      general rule: the second copies of ids 22 to 27 (positions 27 to 32)
      are each preceded by an entry with the same id. */
  lemma TableDuplicatesShadowed()
    ensures |TableIds| == 36
    ensures forall k :: 27 <= k < 33 ==> TableIds[k - 6] == TableIds[k]
  {
  }

  datatype FeeStatistics =
    | FeeStats(min: int, max: int, average: int)
    /** No positive fee: `Math.min()` is `Infinity`, `Math.max()` is
        `-Infinity` and the average is `NaN`. */
    | NoFees

  /** The recommendation inputs, with the defaults applied: no preferred
      states or streams, an unbounded budget (`None`), marks 0, no
      management preference (""). */
  datatype UserProfile = UserProfile(
    preferredStates: seq<string>,
    preferredStreams: seq<string>,
    maxBudget: Option<int>,
    marks: int,
    managementPreference: string)

  /** The criteria `getRecommendations` searches with. */
  function RecommendationCriteria(profile: UserProfile): Criteria
  {
    Criteria("", "", profile.maxBudget, profile.managementPreference, 0, "ranking")
  }

  predicate StatePreferred(c: College, states: seq<string>)
  {
    |states| == 0 || exists s :: s in states && ContainsIgnoringCase(c.state, s)
  }

  predicate StreamPreferred(c: College, streams: seq<string>)
  {
    |streams| == 0 ||
    exists s :: s in streams && (ContainsIgnoringCase(c.category, s) || ContainsIgnoringCase(c.stream, s))
  }

  /** `!marksRequired || marksRequired <= marks`, checked only for marks > 0. */
  predicate MarksOk(c: College, marks: int)
  {
    marks <= 0 || c.marksRequired.None? || c.marksRequired.value == 0 || c.marksRequired.value <= marks
  }

  predicate Preferred(c: College, profile: UserProfile)
  {
    StatePreferred(c, profile.preferredStates) && StreamPreferred(c, profile.preferredStreams) &&
    MarksOk(c, profile.marks)
  }

  /** A college a profile may be recommended. */
  predicate Eligible(c: College, profile: UserProfile)
  {
    Selected(c, RecommendationCriteria(profile)) && Preferred(c, profile)
  }

  // The filters the search applies, each as the callback it passes.

  function ByState(cr: Criteria): College -> bool
  {
    (c: College) => ContainsIgnoringCase(c.state, cr.state)
  }

  function ByStream(cr: Criteria): College -> bool
  {
    (c: College) => ContainsIgnoringCase(c.stream, cr.stream) || ContainsIgnoringCase(c.category, cr.stream)
  }

  function ByFee(cr: Criteria): College -> bool
  {
    (c: College) => cr.maxFee.Some? && c.feeAmount <= cr.maxFee.value
  }

  function ByManagement(cr: Criteria): College -> bool
  {
    (c: College) => ContainsIgnoringCase(c.managementType, cr.managementType)
  }

  function BySeats(cr: Criteria): College -> bool
  {
    (c: College) => c.seats >= cr.minSeats
  }

  // What the colleges that survived the first n filters satisfy.

  function Passed1(cr: Criteria): College -> bool
  {
    (c: College) => StateOk(c, cr)
  }

  function Passed2(cr: Criteria): College -> bool
  {
    (c: College) => StateOk(c, cr) && StreamOk(c, cr)
  }

  function Passed3(cr: Criteria): College -> bool
  {
    (c: College) => StateOk(c, cr) && StreamOk(c, cr) && FeeOk(c, cr)
  }

  function Passed4(cr: Criteria): College -> bool
  {
    (c: College) => StateOk(c, cr) && StreamOk(c, cr) && FeeOk(c, cr) && ManagementOk(c, cr)
  }

  function PassedAll(cr: Criteria): College -> bool
  {
    (c: College) => Selected(c, cr)
  }

  /** One optional filter step: applied when `active`, skipped otherwise,
      the survivors are those of the combined test `after`. */
  lemma FilterStep(s: seq<College>, active: bool, f: College -> bool, before: College -> bool, after: College -> bool)
    requires forall c :: after(c) == (before(c) && (!active || f(c)))
    ensures (if active then Filter(Filter(s, before), f) else Filter(s, before)) == Filter(s, after)
  {
    if active {
      FilterFilter(s, before, f, after);
    } else {
      FilterFilter(s, before, (c: College) => true, after);
      FilterAll(Filter(s, before), (c: College) => true);
    }
  }

  lemma SearchSteps(s: seq<College>, cr: Criteria)
    ensures (if cr.state != "" then Filter(s, ByState(cr)) else s) == Filter(s, Passed1(cr))
    ensures (if cr.stream != "" then Filter(Filter(s, Passed1(cr)), ByStream(cr)) else Filter(s, Passed1(cr))) == Filter(s, Passed2(cr))
    ensures (if cr.maxFee.Some? && cr.maxFee.value != 0 then Filter(Filter(s, Passed2(cr)), ByFee(cr)) else Filter(s, Passed2(cr))) == Filter(s, Passed3(cr))
    ensures (if cr.managementType != "" then Filter(Filter(s, Passed3(cr)), ByManagement(cr)) else Filter(s, Passed3(cr))) == Filter(s, Passed4(cr))
    ensures (if cr.minSeats != 0 then Filter(Filter(s, Passed4(cr)), BySeats(cr)) else Filter(s, Passed4(cr))) == Filter(s, PassedAll(cr))
  {
    FilterStep(s, cr.state != "", ByState(cr), (c: College) => true, Passed1(cr));
    FilterAll(s, (c: College) => true);
    FilterStep(s, cr.stream != "", ByStream(cr), Passed1(cr), Passed2(cr));
    FilterStep(s, cr.maxFee.Some? && cr.maxFee.value != 0, ByFee(cr), Passed2(cr), Passed3(cr));
    FilterStep(s, cr.managementType != "", ByManagement(cr), Passed3(cr), Passed4(cr));
    FilterStep(s, cr.minSeats != 0, BySeats(cr), Passed4(cr), PassedAll(cr));
  }

  /** The comparator `(a, b) => key(a) - key(b)` as an order. */
  function KeyLeq(sortBy: string): (College, College) -> bool
  {
    (a: College, b: College) => SortKey(sortBy, a) <= SortKey(sortBy, b)
  }

  /** Sorting by a criteria key orders by that key: ascending fee or ranking,
      descending seats or year of establishment. */
  lemma SortByKeyOrdered(s: seq<College>, sortBy: string)
    ensures var r := Sort(s, KeyLeq(sortBy));
      forall i, j :: 0 <= i < j < |r| ==> SortKey(sortBy, r[i]) <= SortKey(sortBy, r[j])
  {
    var leq := KeyLeq(sortBy);
    assert TotalPreorder(leq);
    SortSorted(s, leq);
  }

  /** Ordered by the comparator's key is ordered by the named field. */
  lemma KeyOrderMeaning(r: seq<College>, sortBy: string)
    requires forall i, j :: 0 <= i < j < |r| ==> SortKey(sortBy, r[i]) <= SortKey(sortBy, r[j])
    ensures sortBy == "fee" ==> forall i, j :: 0 <= i < j < |r| ==> r[i].feeAmount <= r[j].feeAmount
    ensures sortBy == "ranking" ==> forall i, j :: 0 <= i < j < |r| ==> r[i].ranking <= r[j].ranking
    ensures sortBy == "seats" ==> forall i, j :: 0 <= i < j < |r| ==> r[i].seats >= r[j].seats
    ensures sortBy == "established" ==> forall i, j :: 0 <= i < j < |r| ==> r[i].established >= r[j].established
  {
  }

  /** Colleges with equal keys keep their original relative order. */
  lemma SortByKeyStable(s: seq<College>, sortBy: string, k: int)
    ensures WithKey(Sort(s, KeyLeq(sortBy)), sortBy, k) == WithKey(s, sortBy, k)
  {
    SortStable(s, KeyLeq(sortBy), (c: College) => SortKey(sortBy, c) == k);
  }

  /** A key the comparator does not know compares everything as equal and
      keeps the original order. */
  lemma SortByUnknownKey(s: seq<College>, sortBy: string)
    requires !KnownSortKey(sortBy)
    ensures Sort(s, KeyLeq(sortBy)) == s
  {
    SortTrivial(s, KeyLeq(sortBy));
  }

  lemma SameMembers(a: seq<College>, b: seq<College>)
    requires multiset(a) == multiset(b)
    ensures forall c :: c in a <==> c in b
  {
    assert forall c :: c in a <==> c in multiset(a);
    assert forall c :: c in b <==> c in multiset(b);
  }

  /** The optional sort at the end of a search: by the key when one is
      given, otherwise the survivors as they are. */
  method SortResults(s: seq<College>, sortBy: string) returns (r: seq<College>)
    ensures multiset(r) == multiset(s)
    ensures sortBy == "fee" ==> forall i, j :: 0 <= i < j < |r| ==> r[i].feeAmount <= r[j].feeAmount
    ensures sortBy == "ranking" ==> forall i, j :: 0 <= i < j < |r| ==> r[i].ranking <= r[j].ranking
    ensures sortBy == "seats" ==> forall i, j :: 0 <= i < j < |r| ==> r[i].seats >= r[j].seats
    ensures sortBy == "established" ==> forall i, j :: 0 <= i < j < |r| ==> r[i].established >= r[j].established
    ensures forall k :: WithKey(r, sortBy, k) == WithKey(s, sortBy, k)
    ensures !KnownSortKey(sortBy) ==> r == s
  {
    if sortBy != "" {
      r := Sort(s, KeyLeq(sortBy));
      SortPermutes(s, KeyLeq(sortBy));
      SortByKeyOrdered(s, sortBy);
      KeyOrderMeaning(r, sortBy);
      forall k ensures WithKey(r, sortBy, k) == WithKey(s, sortBy, k) {
        SortByKeyStable(s, sortBy, k);
      }
      if !KnownSortKey(sortBy) {
        SortByUnknownKey(s, sortBy);
      }
    } else {
      r := s;
    }
  }

  /** A permutation of the search's survivors holds exactly the selected
      colleges. */
  lemma SelectedMembers(colleges: seq<College>, cr: Criteria, r: seq<College>)
    requires multiset(r) == multiset(Filter(colleges, PassedAll(cr)))
    ensures forall c :: c in r <==> c in colleges && Selected(c, cr)
  {
    SameMembers(r, Filter(colleges, PassedAll(cr)));
  }

  // The preference filters of the recommendations.

  function ByPreferredState(profile: UserProfile): College -> bool
  {
    (c: College) => exists s :: s in profile.preferredStates && ContainsIgnoringCase(c.state, s)
  }

  function ByPreferredStream(profile: UserProfile): College -> bool
  {
    (c: College) =>
      exists s :: s in profile.preferredStreams && (ContainsIgnoringCase(c.category, s) || ContainsIgnoringCase(c.stream, s))
  }

  function ByMarks(profile: UserProfile): College -> bool
  {
    (c: College) => c.marksRequired.None? || c.marksRequired.value == 0 || c.marksRequired.value <= profile.marks
  }

  function Preferred1(profile: UserProfile): College -> bool
  {
    (c: College) => StatePreferred(c, profile.preferredStates)
  }

  function Preferred2(profile: UserProfile): College -> bool
  {
    (c: College) => StatePreferred(c, profile.preferredStates) && StreamPreferred(c, profile.preferredStreams)
  }

  function PreferredAll(profile: UserProfile): College -> bool
  {
    (c: College) => Preferred(c, profile)
  }

  lemma PreferenceSteps(s: seq<College>, profile: UserProfile)
    ensures (if |profile.preferredStates| > 0 then Filter(s, ByPreferredState(profile)) else s) == Filter(s, Preferred1(profile))
    ensures (if |profile.preferredStreams| > 0 then Filter(Filter(s, Preferred1(profile)), ByPreferredStream(profile)) else Filter(s, Preferred1(profile))) == Filter(s, Preferred2(profile))
    ensures (if profile.marks > 0 then Filter(Filter(s, Preferred2(profile)), ByMarks(profile)) else Filter(s, Preferred2(profile))) == Filter(s, PreferredAll(profile))
  {
    FilterStep(s, |profile.preferredStates| > 0, ByPreferredState(profile), (c: College) => true, Preferred1(profile));
    FilterAll(s, (c: College) => true);
    FilterStep(s, |profile.preferredStreams| > 0, ByPreferredStream(profile), Preferred1(profile), Preferred2(profile));
    FilterStep(s, profile.marks > 0, ByMarks(profile), Preferred2(profile), PreferredAll(profile));
  }

  predicate RankingOrdered(s: seq<College>)
  {
    forall i, j :: 0 <= i < j < |s| ==> s[i].ranking <= s[j].ranking
  }

  /** Narrowing the ranking-ordered search keeps exactly the eligible
      colleges, as many as filtering the directory itself would. */
  lemma NarrowedSearch(colleges: seq<College>, profile: UserProfile, ranked: seq<College>)
    requires multiset(ranked) == multiset(Filter(colleges, PassedAll(RecommendationCriteria(profile))))
    ensures |Filter(ranked, PreferredAll(profile))| == |Filter(colleges, (c: College) => Eligible(c, profile))|
    ensures forall c :: c in Filter(ranked, PreferredAll(profile)) <==> c in colleges && Eligible(c, profile)
  {
    var searched := Filter(colleges, PassedAll(RecommendationCriteria(profile)));
    var narrowed := Filter(ranked, PreferredAll(profile));
    FilterPermutation(ranked, searched, PreferredAll(profile));
    FilterFilter(colleges, PassedAll(RecommendationCriteria(profile)), PreferredAll(profile), (c: College) => Eligible(c, profile));
    assert |narrowed| == |multiset(narrowed)|;
    SameMembers(ranked, searched);
  }

  /** The first n of a ranking-ordered list rank no lower than any college
      after the cut. */
  lemma OrderedPrefix(s: seq<College>, n: nat)
    requires RankingOrdered(s) && n <= |s|
    ensures RankingOrdered(s[..n])
    ensures forall c, x :: c in s && c !in s[..n] && x in s[..n] ==> x.ranking <= c.ranking
  {
    forall c, x | c in s && c !in s[..n] && x in s[..n]
      ensures x.ranking <= c.ranking
    {
      var k :| 0 <= k < |s| && s[k] == c;
      var i :| 0 <= i < n && s[..n][i] == x;
      assert k >= n;
    }
  }

  /** The first ten of a ranking-ordered list narrowed by the preferences:
      their number, their eligibility, their order and that no eligible
      college left out ranks before them. */
  lemma TopTen(colleges: seq<College>, profile: UserProfile, ranked: seq<College>, recommendations: seq<College>)
    requires multiset(ranked) == multiset(Filter(colleges, PassedAll(RecommendationCriteria(profile))))
    requires RankingOrdered(ranked)
    requires recommendations == Filter(ranked, PreferredAll(profile))
    ensures var r := recommendations[..Min(10, |recommendations|)];
      |r| == Min(10, |Filter(colleges, (c: College) => Eligible(c, profile))|) &&
      (forall c :: c in r ==> c in colleges && Eligible(c, profile)) &&
      RankingOrdered(r) &&
      (forall c, x :: c in colleges && Eligible(c, profile) && c !in r && x in r ==> x.ranking <= c.ranking)
  {
    NarrowedSearch(colleges, profile, ranked);
    var byRanking := (a: College, b: College) => a.ranking <= b.ranking;
    assert Sorted(ranked, byRanking);
    FilterSorted(ranked, byRanking, PreferredAll(profile));
    OrderedPrefix(recommendations, Min(10, |recommendations|));
  }

  class CollegeDirectory {
    var colleges: seq<College>
    var initialized: bool

    constructor()
      ensures colleges == [] && !initialized
    {
      colleges := [];
      initialized := false;
    }

    /** `initialize`: loads the table once; later calls change nothing. */
    method Initialize(table: seq<College>)
      modifies this
      ensures old(initialized) ==> colleges == old(colleges) && initialized
      ensures !old(initialized) ==> colleges == table && initialized
    {
      if initialized {
        return;
      }
      colleges := table;
      initialized := true;
    }

    /** `searchColleges`: filters a copy of the directory by each active
        criterion, then sorts it when a sort key is given. */
    method SearchColleges(criteria: Criteria) returns (r: seq<College>)
      ensures forall c :: c in r <==> c in colleges && Selected(c, criteria)
      ensures multiset(r) == multiset(Filter(colleges, PassedAll(criteria)))
      ensures criteria.sortBy == "fee" ==> forall i, j :: 0 <= i < j < |r| ==> r[i].feeAmount <= r[j].feeAmount
      ensures criteria.sortBy == "ranking" ==> forall i, j :: 0 <= i < j < |r| ==> r[i].ranking <= r[j].ranking
      ensures criteria.sortBy == "seats" ==> forall i, j :: 0 <= i < j < |r| ==> r[i].seats >= r[j].seats
      ensures criteria.sortBy == "established" ==> forall i, j :: 0 <= i < j < |r| ==> r[i].established >= r[j].established
      ensures forall k :: WithKey(r, criteria.sortBy, k) == WithKey(Filter(colleges, PassedAll(criteria)), criteria.sortBy, k)
      ensures !KnownSortKey(criteria.sortBy) ==> r == Filter(colleges, PassedAll(criteria))
      ensures criteria == NoCriteria ==> r == colleges
    {
      var cr := criteria;
      SearchSteps(colleges, cr);
      var filtered := colleges;
      if cr.state != "" {
        filtered := Filter(filtered, ByState(cr));
      }
      if cr.stream != "" {
        filtered := Filter(filtered, ByStream(cr));
      }
      if cr.maxFee.Some? && cr.maxFee.value != 0 {
        filtered := Filter(filtered, ByFee(cr));
      }
      if cr.managementType != "" {
        filtered := Filter(filtered, ByManagement(cr));
      }
      if cr.minSeats != 0 {
        filtered := Filter(filtered, BySeats(cr));
      }
      assert filtered == Filter(colleges, PassedAll(cr));

      r := SortResults(filtered, cr.sortBy);
      SelectedMembers(colleges, cr, r);
    }

    /** `getRecommendations`: the ranking-ordered search under the budget and
        management preference, narrowed to the preferred states, streams and
        marks, cut to the first ten. */
    method GetRecommendations(profile: UserProfile) returns (r: seq<College>)
      ensures |r| == Min(10, |Filter(colleges, (c: College) => Eligible(c, profile))|)
      ensures forall c :: c in r ==> c in colleges && Eligible(c, profile)
      ensures RankingOrdered(r)
      ensures forall c, x :: c in colleges && Eligible(c, profile) && c !in r && x in r ==> x.ranking <= c.ranking
    {
      var recommendations := SearchColleges(RecommendationCriteria(profile));
      ghost var ranked := recommendations;
      PreferenceSteps(ranked, profile);
      if |profile.preferredStates| > 0 {
        recommendations := Filter(recommendations, ByPreferredState(profile));
      }
      if |profile.preferredStreams| > 0 {
        recommendations := Filter(recommendations, ByPreferredStream(profile));
      }
      if profile.marks > 0 {
        recommendations := Filter(recommendations, ByMarks(profile));
      }
      TopTen(colleges, profile, ranked, recommendations);
      r := recommendations[..Min(10, |recommendations|)];
    }

    /** `getCollegeById`: the first college with the id, if any. */
    function GetCollegeById(id: int): (r: Option<College>)
      reads this
      ensures r.Some? <==> exists c :: c in colleges && c.id == id
      ensures r.Some? ==> r.value.id == id
      ensures r.Some? ==>
        exists i :: 0 <= i < |colleges| && colleges[i] == r.value && forall j :: 0 <= j < i ==> colleges[j].id != id
    {
      match FirstIndexOf(colleges, id)
      case None => None
      case Some(i) => Some(colleges[i])
    }

    /** `getStates`: each state of the directory once, in ascending order. */
    function GetStates(): (r: seq<string>)
      reads this
      ensures Sorted(r, StrLeq) && Distinct(r)
      ensures forall s :: s in r <==> exists c :: c in colleges && c.state == s
    {
      var cs := colleges;
      var states := seq(|cs|, i requires 0 <= i < |cs| => cs[i].state);
      assert forall s :: s in states <==> exists c :: c in colleges && c.state == s by {
        forall s ensures s in states <==> exists c :: c in colleges && c.state == s {
          if exists c :: c in colleges && c.state == s {
            var c :| c in colleges && c.state == s;
            var i :| 0 <= i < |colleges| && colleges[i] == c;
            assert states[i] == s;
          }
        }
      }
      UniqueSorted(states)
    }

    /** `getStreams`: each category of the directory once, in ascending order. */
    function GetStreams(): (r: seq<string>)
      reads this
      ensures Sorted(r, StrLeq) && Distinct(r)
      ensures forall s :: s in r <==> exists c :: c in colleges && c.category == s
    {
      var cs := colleges;
      var categories := seq(|cs|, i requires 0 <= i < |cs| => cs[i].category);
      assert forall s :: s in categories <==> exists c :: c in colleges && c.category == s by {
        forall s ensures s in categories <==> exists c :: c in colleges && c.category == s {
          if exists c :: c in colleges && c.category == s {
            var c :| c in colleges && c.category == s;
            var i :| 0 <= i < |colleges| && colleges[i] == c;
            assert categories[i] == s;
          }
        }
      }
      UniqueSorted(categories)
    }

    /** The positive fees of the directory, in order. */
    function PositiveFees(): (fees: seq<int>)
      reads this
      ensures forall f :: f in fees <==> f > 0 && exists c :: c in colleges && c.feeAmount == f
    {
      var cs := colleges;
      var all := seq(|cs|, i requires 0 <= i < |cs| => cs[i].feeAmount);
      assert forall f :: f in all <==> exists c :: c in colleges && c.feeAmount == f by {
        forall f ensures f in all <==> exists c :: c in colleges && c.feeAmount == f {
          if exists c :: c in colleges && c.feeAmount == f {
            var c :| c in colleges && c.feeAmount == f;
            var i :| 0 <= i < |colleges| && colleges[i] == c;
            assert all[i] == f;
          }
        }
      }
      Filter(all, f => f > 0)
    }

    /** `getFeeStatistics`: least, greatest and rounded mean positive fee. */
    function GetFeeStatistics(): (r: FeeStatistics)
      reads this
      ensures r.NoFees? <==> forall c :: c in colleges ==> c.feeAmount <= 0
      ensures r.FeeStats? ==> 0 < r.min <= r.average <= r.max
      ensures r.FeeStats? ==> forall c :: c in colleges && c.feeAmount > 0 ==> r.min <= c.feeAmount <= r.max
      ensures r.FeeStats? ==> exists c :: c in colleges && c.feeAmount == r.min
      ensures r.FeeStats? ==> exists c :: c in colleges && c.feeAmount == r.max
      ensures r.FeeStats? ==> RoundsMean(r.average, PositiveFees())
    {
      var fees := PositiveFees();
      if fees == [] then
        assert forall c :: c in colleges ==> c.feeAmount <= 0 by {
          forall c | c in colleges ensures c.feeAmount <= 0 {
            assert c.feeAmount > 0 ==> c.feeAmount in fees;
          }
        }
        NoFees
      else
        MeanBetween(fees);
        RoundedMean(fees);
        assert fees[0] in fees;
        assert forall c :: c in colleges && c.feeAmount > 0 ==> c.feeAmount in fees;
        FeeStats(SeqMin(fees), SeqMax(fees), RoundedQuotient(Sum(fees), |fees|))
    }
  }
}
