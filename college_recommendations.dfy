/** The recommendation panel (src/components/CollegeRecommendations.jsx):
    the user's preferences, the handlers that change them and the match
    percentage shown on each recommended college. */
module CollegeRecommendations {
  import opened Common
  import opened CollegeDataService

  datatype Preferences = Preferences(
    preferredStates: seq<string>,
    preferredStreams: seq<string>,
    maxBudget: int,
    marks: int,
    managementPreference: string)

  /** No preferred states or streams, a budget of 10 lakh rupees, marks 0,
      no management preference. */
  const DefaultPreferences := Preferences([], [], 1000000, 0, "")

  /** An `updatePreferences(key, value)` call: the key and its new value. */
  datatype PreferenceUpdate =
    | PreferredStates(states: seq<string>)
    | PreferredStreams(streams: seq<string>)
    | MaxBudget(budget: int)
    | Marks(marks: int)
    | ManagementPreference(preference: string)

  /** `{...prev, [key]: value}`: the named preference takes the value, the
      others are kept. */
  function Update(p: Preferences, u: PreferenceUpdate): (r: Preferences)
    ensures r.preferredStates == (if u.PreferredStates? then u.states else p.preferredStates)
    ensures r.preferredStreams == (if u.PreferredStreams? then u.streams else p.preferredStreams)
    ensures r.maxBudget == (if u.MaxBudget? then u.budget else p.maxBudget)
    ensures r.marks == (if u.Marks? then u.marks else p.marks)
    ensures r.managementPreference == (if u.ManagementPreference? then u.preference else p.managementPreference)
  {
    match u
    case PreferredStates(states) => p.(preferredStates := states)
    case PreferredStreams(streams) => p.(preferredStreams := streams)
    case MaxBudget(budget) => p.(maxBudget := budget)
    case Marks(marks) => p.(marks := marks)
    case ManagementPreference(preference) => p.(managementPreference := preference)
  }

  /** An update applied twice is applied once, and the last of two updates
      of the same preference wins. */
  lemma UpdateOverwrites(p: Preferences, u: PreferenceUpdate, v: PreferenceUpdate)
    requires u.PreferredStates? == v.PreferredStates? && u.PreferredStreams? == v.PreferredStreams?
    requires u.MaxBudget? == v.MaxBudget? && u.Marks? == v.Marks?
    ensures Update(Update(p, u), u) == Update(p, u)
    ensures Update(Update(p, u), v) == Update(p, v)
  {
  }

  /** The outcome of each criterion `getMatchPercentage` counts, in its order:
      the state (only with preferred states, by exact equality), the stream
      category (only with preferred streams, by exact equality), the budget
      (always), the management type (only with a preference, ignoring case,
      as a substring). */
  function Outcomes(p: Preferences, c: College): (r: seq<bool>)
    ensures 1 <= |r| <= 4
  {
    StateOutcome(p, c) + StreamOutcome(p, c) + [c.feeAmount <= p.maxBudget] + ManagementOutcome(p, c)
  }

  function StateOutcome(p: Preferences, c: College): seq<bool>
  {
    if |p.preferredStates| > 0 then [c.state in p.preferredStates] else []
  }

  function StreamOutcome(p: Preferences, c: College): seq<bool>
  {
    if |p.preferredStreams| > 0 then [c.category in p.preferredStreams] else []
  }

  function ManagementOutcome(p: Preferences, c: College): seq<bool>
  {
    if p.managementPreference != "" then [ContainsIgnoringCase(c.managementType, p.managementPreference)] else []
  }

  /** How many of the outcomes are matches. */
  function Matches(outcomes: seq<bool>): (n: nat)
    ensures n <= |outcomes|
  {
    if outcomes == [] then 0
    else (if outcomes[0] then 1 else 0) + Matches(outcomes[1..])
  }

  /** Every outcome is a match exactly when all of them are counted. */
  lemma {:induction false} MatchesAll(outcomes: seq<bool>)
    ensures Matches(outcomes) == |outcomes| <==> forall i :: 0 <= i < |outcomes| ==> outcomes[i]
  {
    if outcomes != [] {
      MatchesAll(outcomes[1..]);
      assert forall i :: 1 <= i < |outcomes| ==> outcomes[i] == outcomes[1..][i - 1];
    }
  }

  lemma {:induction false} MatchesAppend(a: seq<bool>, b: seq<bool>)
    ensures Matches(a + b) == Matches(a) + Matches(b)
  {
    if a == [] {
      assert a + b == b;
    } else {
      assert (a + b)[0] == a[0];
      assert (a + b)[1..] == a[1..] + b;
      MatchesAppend(a[1..], b);
    }
  }

  /** The percentage shown: matched criteria over counted ones, rounded. */
  function MatchPercentage(p: Preferences, c: College): (pct: nat)
    ensures pct <= 100
    ensures pct == 100 <==> forall i :: 0 <= i < |Outcomes(p, c)| ==> Outcomes(p, c)[i]
  {
    var o := Outcomes(p, c);
    MatchesAll(o);
    RoundedPercentBounds(Matches(o), |o|);
    if Matches(o) < |o| then
      RoundedPercentBelowWhole(Matches(o), |o|);
      RoundedPercent(Matches(o), |o|)
    else
      RoundedPercent(Matches(o), |o|)
  }

  /** The percentage computed from counts that agree with the outcomes. */
  lemma PercentOfCounts(p: Preferences, c: College, matched: nat, total: nat)
    requires matched == Matches(Outcomes(p, c)) && total == |Outcomes(p, c)|
    ensures 0 < total && RoundedPercent(matched, total) == MatchPercentage(p, c)
  {
  }

  /** One outcome counts one match when it is a match. */
  lemma MatchesOne(x: bool)
    ensures Matches([x]) == if x then 1 else 0
  {
    assert [x][1..] == [];
  }

  /** The matches and criteria, criterion by criterion. */
  lemma OutcomeCounts(p: Preferences, c: College)
    ensures Matches(Outcomes(p, c)) == Matches(StateOutcome(p, c)) + Matches(StreamOutcome(p, c)) +
      Matches([c.feeAmount <= p.maxBudget]) + Matches(ManagementOutcome(p, c))
    ensures |Outcomes(p, c)| == |StateOutcome(p, c)| + |StreamOutcome(p, c)| + 1 + |ManagementOutcome(p, c)|
  {
    var a, b, d, e := StateOutcome(p, c), StreamOutcome(p, c), [c.feeAmount <= p.maxBudget], ManagementOutcome(p, c);
    MatchesAppend(a + b + d, e);
    MatchesAppend(a + b, d);
    MatchesAppend(a, b);
  }

  /** The counting of `getMatchPercentage`: each criterion that applies
      adds one to `totalCriteria`, and one to `matchScore` when it matches. */
  method CountCriteria(p: Preferences, college: College) returns (matchScore: nat, totalCriteria: nat)
    ensures matchScore == Matches(Outcomes(p, college))
    ensures totalCriteria == |Outcomes(p, college)|
  {
    matchScore, totalCriteria := 0, 0;
    if |p.preferredStates| > 0 {
      totalCriteria := totalCriteria + 1;
      var matched := college.state in p.preferredStates;
      if matched {
        matchScore := matchScore + 1;
      }
      MatchesOne(matched);
    }
    ghost var statePart := matchScore;
    assert statePart == Matches(StateOutcome(p, college)) && totalCriteria == |StateOutcome(p, college)|;
    if |p.preferredStreams| > 0 {
      totalCriteria := totalCriteria + 1;
      var matched := college.category in p.preferredStreams;
      if matched {
        matchScore := matchScore + 1;
      }
      MatchesOne(matched);
    }
    ghost var streamPart := matchScore - statePart;
    assert streamPart == Matches(StreamOutcome(p, college));
    totalCriteria := totalCriteria + 1;
    var affordable := college.feeAmount <= p.maxBudget;
    if affordable {
      matchScore := matchScore + 1;
    }
    MatchesOne(affordable);
    ghost var counted := matchScore;
    if p.managementPreference != "" {
      totalCriteria := totalCriteria + 1;
      var matched := ContainsIgnoringCase(college.managementType, p.managementPreference);
      if matched {
        matchScore := matchScore + 1;
      }
      MatchesOne(matched);
    }
    assert matchScore - counted == Matches(ManagementOutcome(p, college));
    OutcomeCounts(p, college);
  }

  /** More matches never lower the percentage: with the same criteria
      counted, a college matching a superset of them scores at least as
      high. */
  lemma MoreMatchesScoreHigher(p: Preferences, c: College, d: College)
    requires |Outcomes(p, c)| == |Outcomes(p, d)|
    requires Matches(Outcomes(p, c)) <= Matches(Outcomes(p, d))
    ensures MatchPercentage(p, c) <= MatchPercentage(p, d)
  {
    RoundedPercentMonotone(Matches(Outcomes(p, c)), Matches(Outcomes(p, d)), |Outcomes(p, c)|);
  }

  /** With only the default preferences, a college scores 100 when it fits
      the budget and 0 when it does not. */
  lemma DefaultsJudgeBudgetOnly(c: College)
    ensures MatchPercentage(DefaultPreferences, c) == (if c.feeAmount <= 1000000 then 100 else 0)
  {
    assert Outcomes(DefaultPreferences, c) == [c.feeAmount <= 1000000];
    assert Matches([c.feeAmount <= 1000000]) == (if c.feeAmount <= 1000000 then 1 else 0);
  }

  /** The panel's preference state. */
  class Panel {
    var preferences: Preferences

    constructor()
      ensures preferences == DefaultPreferences
    {
      preferences := DefaultPreferences;
    }

    /** `updatePreferences`. */
    method UpdatePreferences(u: PreferenceUpdate)
      modifies this
      ensures preferences == Update(old(preferences), u)
    {
      preferences := Update(preferences, u);
    }

    /** `handleStateToggle`: the state is dropped if preferred, added last
        otherwise; the other preferences are kept. */
    method HandleStateToggle(stateName: string)
      modifies this
      ensures preferences == old(preferences).(preferredStates := Toggle(old(preferences).preferredStates, stateName))
      ensures stateName in preferences.preferredStates <==> stateName !in old(preferences).preferredStates
    {
      ToggleFlips(preferences.preferredStates, stateName);
      preferences := preferences.(preferredStates := Toggle(preferences.preferredStates, stateName));
    }

    /** `handleStreamToggle`: likewise for the preferred streams. */
    method HandleStreamToggle(stream: string)
      modifies this
      ensures preferences == old(preferences).(preferredStreams := Toggle(old(preferences).preferredStreams, stream))
      ensures stream in preferences.preferredStreams <==> stream !in old(preferences).preferredStreams
    {
      ToggleFlips(preferences.preferredStreams, stream);
      preferences := preferences.(preferredStreams := Toggle(preferences.preferredStreams, stream));
    }

    /** `getMatchPercentage`. The budget is always counted, so the fallback
        of 85 for no criteria is never returned. */
    method GetMatchPercentage(college: College) returns (pct: int)
      ensures pct == MatchPercentage(preferences, college)
      ensures 0 <= pct <= 100
    {
      var matchScore, totalCriteria := CountCriteria(preferences, college);
      PercentOfCounts(preferences, college, matchScore, totalCriteria);
      if totalCriteria > 0 {
        pct := RoundedPercent(matchScore, totalCriteria);
      } else {
        assert false;
        pct := 85;
      }
    }
  }
}
