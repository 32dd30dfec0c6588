/** Quiz scoring, the stream recommendation and the progress badge
    (src/utils/quizUtils.js). */
module QuizUtils {
  import opened Common

  /** The three streams, in the order the `scores` object lists them. */
  datatype Category = Science | Commerce | Arts

  /** Position in the fixed order science, commerce, arts. */
  function Rank(c: Category): nat
  {
    match c
    case Science => 0
    case Commerce => 1
    case Arts => 2
  }

  /** One recorded answer. `response` is whatever the page stored; only the
      exact string "yes" scores. */
  datatype Answer = Answer(questionId: int, response: string, category: Category, weight: int)

  datatype Scores = Scores(science: int, commerce: int, arts: int)
  {
    function Of(c: Category): int
    {
      match c
      case Science => science
      case Commerce => commerce
      case Arts => arts
    }
  }

  datatype QuizResult = QuizResult(
    scores: Scores,
    recommendedStream: Option<Category>,
    tiedStreams: Option<seq<Category>>,
    completed: bool)

  const ZeroScores := Scores(0, 0, 0)

  // ---------------------------------------------------------------------
  // calculateQuizResults

  /** What one answer adds to the score of category `c`. */
  function Contribution(a: Answer, c: Category): int
  {
    if a.response == "yes" && a.category == c then a.weight else 0
  }

  /** The sum of the weights of the "yes" answers in category `c`. */
  function Tally(answers: seq<Answer>, c: Category): int
  {
    if answers == [] then 0
    else Tally(answers[..|answers| - 1], c) + Contribution(answers[|answers| - 1], c)
  }

  function ScoresOf(answers: seq<Answer>): Scores
  {
    Scores(Tally(answers, Science), Tally(answers, Commerce), Tally(answers, Arts))
  }

  function MaxScore(s: Scores): (m: int)
    ensures s.science <= m && s.commerce <= m && s.arts <= m
    ensures m == s.science || m == s.commerce || m == s.arts
  {
    var sc := if s.science >= s.commerce then s.science else s.commerce;
    if sc >= s.arts then sc else s.arts
  }

  /** The recommendation: none without a positive score, otherwise the first
      category in science, commerce, arts order that reaches the maximum. */
  function Recommend(s: Scores): (r: Option<Category>)
    ensures r.None? <==> MaxScore(s) <= 0
    ensures r.Some? ==> s.Of(r.value) == MaxScore(s)
    ensures r.Some? ==> forall c :: Rank(c) < Rank(r.value) ==> s.Of(c) < MaxScore(s)
  {
    var maxScore := MaxScore(s);
    if maxScore > 0 then
      if s.science == maxScore then Some(Science)
      else if s.commerce == maxScore then Some(Commerce)
      else Some(Arts)
    else None
  }

  /** Categories whose score equals the maximum and is positive, in order. */
  function TopCategories(s: Scores): (r: seq<Category>)
    ensures forall c :: c in r <==> s.Of(c) == MaxScore(s) > 0
    ensures forall i, j :: 0 <= i < j < |r| ==> Rank(r[i]) < Rank(r[j])
  {
    var m := MaxScore(s);
    (if s.science == m && m > 0 then [Science] else []) +
    (if s.commerce == m && m > 0 then [Commerce] else []) +
    (if s.arts == m && m > 0 then [Arts] else [])
  }

  /** The tie report: the tied categories when at least two share a positive
      maximum, otherwise none. */
  function Ties(s: Scores): (r: Option<seq<Category>>)
    ensures r.Some? <==> exists a, b :: a != b && s.Of(a) == s.Of(b) == MaxScore(s) > 0
    ensures r.Some? ==> forall c :: c in r.value <==> s.Of(c) == MaxScore(s)
    ensures r.Some? ==> forall i, j :: 0 <= i < j < |r.value| ==> Rank(r.value[i]) < Rank(r.value[j])
  {
    var tied := TopCategories(s);
    if |tied| > 1 then
      assert Rank(tied[0]) < Rank(tied[1]) && s.Of(tied[0]) == MaxScore(s) && s.Of(tied[1]) == MaxScore(s);
      Some(tied)
    else
      assert forall a, b :: a in tied && b in tied ==> a == b;
      None
  }

  /** The value `calculateQuizResults` returns for `answers`. */
  function QuizResultOf(answers: seq<Answer>): QuizResult
  {
    var s := ScoresOf(answers);
    QuizResult(s, Recommend(s), Ties(s), true)
  }

  /** `calculateQuizResults`: accumulates the scores in one pass over the
      answers, then picks the recommendation and reports ties. */
  method CalculateQuizResults(answers: seq<Answer>) returns (r: QuizResult)
    ensures forall c :: r.scores.Of(c) == Tally(answers, c)
    ensures r.recommendedStream == Recommend(r.scores) && r.tiedStreams == Ties(r.scores)
    ensures r.completed
    ensures r == QuizResultOf(answers)
  {
    var scores := ZeroScores;
    var i := 0;
    while i < |answers|
      invariant 0 <= i <= |answers|
      invariant scores == ScoresOf(answers[..i])
    {
      var answer := answers[i];
      if answer.response == "yes" {
        match answer.category
        case Science => scores := scores.(science := scores.science + answer.weight);
        case Commerce => scores := scores.(commerce := scores.commerce + answer.weight);
        case Arts => scores := scores.(arts := scores.arts + answer.weight);
      }
      assert answers[..i + 1][..i] == answers[..i];
      i := i + 1;
    }
    assert answers[..i] == answers;
    r := QuizResult(scores, Recommend(scores), Ties(scores), true);
  }

  // ---------------------------------------------------------------------
  // Properties of the scoring

  lemma {:induction false} TallyConcat(u: seq<Answer>, v: seq<Answer>, c: Category)
    ensures Tally(u + v, c) == Tally(u, c) + Tally(v, c)
    decreases |v|
  {
    if v != [] {
      var v' := v[..|v| - 1];
      assert (u + v)[..|u + v| - 1] == u + v';
      TallyConcat(u, v', c);
    } else {
      assert u + v == u;
    }
  }

  function RemoveAt<T>(b: seq<T>, j: int): (r: seq<T>)
    requires 0 <= j < |b|
    ensures multiset(r) == multiset(b) - multiset{b[j]}
  {
    assert b == b[..j] + [b[j]] + b[j + 1..];
    b[..j] + b[j + 1..]
  }

  /** Removing the answer at `j` removes exactly its contribution. */
  lemma TallyRemove(b: seq<Answer>, j: int, c: Category)
    requires 0 <= j < |b|
    ensures Tally(b, c) == Tally(b[..j] + b[j + 1..], c) + Contribution(b[j], c)
  {
    assert b == b[..j] + [b[j]] + b[j + 1..];
    TallyConcat(b[..j] + [b[j]], b[j + 1..], c);
    TallyConcat(b[..j], [b[j]], c);
    TallyConcat(b[..j], b[j + 1..], c);
    assert [b[j]][..0] == [];
  }

  /** Scores do not depend on the order of the answers. */
  lemma {:induction false} TallyPermutation(a: seq<Answer>, b: seq<Answer>, c: Category)
    requires multiset(a) == multiset(b)
    ensures Tally(a, c) == Tally(b, c)
    decreases |a|
  {
    if a == [] {
      assert |b| == |multiset(b)| == 0;
    } else {
      var x := a[|a| - 1];
      var a' := a[..|a| - 1];
      assert a == a' + [x];
      assert multiset(a) == multiset(a') + multiset{x};
      assert x in multiset(b);
      var j :| 0 <= j < |b| && b[j] == x;
      var b' := RemoveAt(b, j);
      assert multiset(a') == multiset(b');
      TallyPermutation(a', b', c);
      TallyRemove(b, j, c);
      assert Tally(b, c) == Tally(a', c) + Contribution(x, c);
      assert Tally(a, c) == Tally(a', c) + Contribution(x, c);
    }
  }

  /** Permuting the answers gives the same scores and the same result. */
  lemma ResultIgnoresOrder(a: seq<Answer>, b: seq<Answer>)
    requires multiset(a) == multiset(b)
    ensures QuizResultOf(a) == QuizResultOf(b)
  {
    TallyPermutation(a, b, Science);
    TallyPermutation(a, b, Commerce);
    TallyPermutation(a, b, Arts);
  }

  predicate NoYes(answers: seq<Answer>)
  {
    forall i :: 0 <= i < |answers| ==> answers[i].response != "yes"
  }

  lemma {:induction false} NoYesTalliesZero(answers: seq<Answer>, c: Category)
    requires NoYes(answers)
    ensures Tally(answers, c) == 0
    decreases |answers|
  {
    if answers != [] {
      NoYesTalliesZero(answers[..|answers| - 1], c);
    }
  }

  /** Without a single "yes" (in particular with no answers) there is neither a
      recommendation nor a tie, and the result is still marked completed. */
  lemma NoSignalNoRecommendation(answers: seq<Answer>)
    requires NoYes(answers)
    ensures QuizResultOf(answers).recommendedStream == None
    ensures QuizResultOf(answers).tiedStreams == None
    ensures QuizResultOf(answers).completed
  {
    NoYesTalliesZero(answers, Science);
    NoYesTalliesZero(answers, Commerce);
    NoYesTalliesZero(answers, Arts);
  }

  /** A three-way tie goes to science and reports all three streams. */
  lemma ThreeWayTie(s: Scores)
    requires s.science == s.commerce == s.arts > 0
    ensures Recommend(s) == Some(Science)
    ensures Ties(s) == Some([Science, Commerce, Arts])
  {
    assert MaxScore(s) == s.science;
    assert TopCategories(s) == [Science, Commerce, Arts];
  }

  /** The recommended stream is always among the reported ties. */
  lemma RecommendationAmongTies(s: Scores)
    requires Ties(s).Some?
    ensures Recommend(s).Some? && Recommend(s).value in Ties(s).value
  {
  }

  /** An example run illustrating `CalculateQuizResults`: science 2+1,
      commerce 2 (one "no" ignored), arts 0. */
  lemma WorkedExample()
    ensures var a := [Answer(1, "yes", Science, 2), Answer(2, "yes", Science, 1),
                      Answer(3, "yes", Commerce, 2), Answer(4, "no", Commerce, 2),
                      Answer(5, "no", Arts, 2)];
            QuizResultOf(a) == QuizResult(Scores(3, 2, 0), Some(Science), None, true)
  {
    var x1, x2, x3 := Answer(1, "yes", Science, 2), Answer(2, "yes", Science, 1), Answer(3, "yes", Commerce, 2);
    var x4, x5 := Answer(4, "no", Commerce, 2), Answer(5, "no", Arts, 2);
    ScoresSnoc([], x1);
    ScoresSnoc([x1], x2);
    ScoresSnoc([x1, x2], x3);
    ScoresSnoc([x1, x2, x3], x4);
    ScoresSnoc([x1, x2, x3, x4], x5);
    assert [] + [x1] == [x1] && [x1] + [x2] == [x1, x2] && [x1, x2] + [x3] == [x1, x2, x3];
    assert [x1, x2, x3] + [x4] == [x1, x2, x3, x4] && [x1, x2, x3, x4] + [x5] == [x1, x2, x3, x4, x5];
    var s := Scores(3, 2, 0);
    assert ScoresOf([x1, x2, x3, x4, x5]) == s;
    assert MaxScore(s) == 3 && TopCategories(s) == [Science];
  }

  lemma ScoresSnoc(u: seq<Answer>, x: Answer)
    ensures ScoresOf(u + [x]) == Scores(
      ScoresOf(u).science + Contribution(x, Science),
      ScoresOf(u).commerce + Contribution(x, Commerce),
      ScoresOf(u).arts + Contribution(x, Arts))
  {
    assert (u + [x])[..|u|] == u;
  }

  // ---------------------------------------------------------------------
  // getStreamRecommendation, getCareerPaths

  /** A recommendation banner: its title and colour. The banner's
      `description` text is not modelled. */
  datatype Message = Message(title: string, color: string)

  const DefaultMessage := Message("Take the quiz to get recommendations!", "text-gray-600")

  /** The banner for a recommended stream, or the invitation to take the quiz. */
  function GetStreamRecommendation(stream: Option<Category>): (r: Message)
    ensures r == DefaultMessage <==> stream.None?
  {
    match stream
    case Some(Science) => Message("Science Stream Recommended! \U{1F52C}", "text-blue-600")
    case Some(Commerce) => Message("Commerce Stream Recommended! \U{1F4BC}", "text-green-600")
    case Some(Arts) => Message("Arts/Humanities Stream Recommended! \U{1F3A8}", "text-purple-600")
    case None => DefaultMessage
  }

  /** Distinct streams get distinct banners. */
  lemma StreamRecommendationInjective(a: Option<Category>, b: Option<Category>)
    requires GetStreamRecommendation(a) == GetStreamRecommendation(b)
    ensures a == b
  {
  }

  function CategoryKey(c: Category): string
  {
    match c
    case Science => "science"
    case Commerce => "commerce"
    case Arts => "arts"
  }

  /** `careerData.streams[stream] || null`: the entry for the stream, if any. */
  function GetCareerPaths<P>(streams: map<string, P>, stream: Option<Category>): (r: Option<P>)
    ensures r.Some? <==> stream.Some? && CategoryKey(stream.value) in streams
    ensures r.Some? ==> r.value == streams[CategoryKey(stream.value)]
  {
    match stream
    case Some(c) => if CategoryKey(c) in streams then Some(streams[CategoryKey(c)]) else None
    case None => None
  }

  // ---------------------------------------------------------------------
  // filterCollegesByStream

  /** An entry of the static college list of the career data. */
  datatype CareerCollege = CareerCollege(id: int, name: string, streams: seq<string>)

  predicate OffersStream(college: CareerCollege, stream: Option<string>)
  {
    (stream.Some? && stream.value in college.streams) || "all" in college.streams
  }

  /** The colleges offering `stream` or marked "all", in their original order.
      The stream may be null (no recommendation yet): then only "all" matches. */
  function FilterCollegesByStream(colleges: seq<CareerCollege>, stream: Option<string>): (r: seq<CareerCollege>)
    ensures forall c :: c in r <==> c in colleges && OffersStream(c, stream)
    ensures IsSubsequence(r, colleges)
  {
    FilterIsSubsequence(colleges, c => OffersStream(c, stream));
    Filter(colleges, c => OffersStream(c, stream))
  }

  // ---------------------------------------------------------------------
  // getUserProgress, getUserBadge

  /** Profile 30, completed quiz 50, a recommendation 20, capped at 100. */
  function GetUserProgress(user: Record, q: QuizResult): (r: int)
    ensures r == (if Truthy(Get(user, "name")) && Truthy(Get(user, "class")) then 30 else 0)
               + (if q.completed then 50 else 0)
               + (if q.recommendedStream.Some? then 20 else 0)
    ensures 0 <= r <= 100
  {
    var progress := 0;
    var progress := if Truthy(Get(user, "name")) && Truthy(Get(user, "class")) then progress + 30 else progress;
    var progress := if q.completed then progress + 50 else progress;
    var progress := if q.recommendedStream.Some? then progress + 20 else progress;
    Min(progress, 100)
  }

  datatype Badge = NewUser | Beginner | QuizMaster | PathFinder | CareerExplorer
  {
    /** Tiers in increasing order. */
    function Tier(): nat
    {
      match this
      case NewUser => 0
      case Beginner => 1
      case QuizMaster => 2
      case PathFinder => 3
      case CareerExplorer => 4
    }

    function Name(): string
    {
      match this
      case NewUser => "New User"
      case Beginner => "Beginner"
      case QuizMaster => "Quiz Master"
      case PathFinder => "Path Finder"
      case CareerExplorer => "Career Explorer"
    }
  }

  /** The first threshold among 100, 70, 40, 20 that the progress reaches. */
  function GetUserBadge(progress: int): (b: Badge)
    ensures b == CareerExplorer <==> progress >= 100
    ensures b == NewUser <==> progress < 20
    ensures b.Tier() >= 3 <==> progress >= 70
    ensures b.Tier() >= 2 <==> progress >= 40
  {
    if progress >= 100 then CareerExplorer
    else if progress >= 70 then PathFinder
    else if progress >= 40 then QuizMaster
    else if progress >= 20 then Beginner
    else NewUser
  }

  /** More progress never gives a lower badge. */
  lemma BadgeMonotone(p: int, q: int)
    requires p <= q
    ensures GetUserBadge(p).Tier() <= GetUserBadge(q).Tier()
  {
  }

  /** The top badge needs a filled-in profile, a completed quiz and a
      recommendation. */
  lemma TopBadgeNeedsEverything(user: Record, q: QuizResult)
    requires GetUserBadge(GetUserProgress(user, q)) == CareerExplorer
    ensures Truthy(Get(user, "name")) && Truthy(Get(user, "class"))
    ensures q.completed && q.recommendedStream.Some?
  {
  }
}
