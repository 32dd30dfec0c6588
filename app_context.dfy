/** The application state, its reducer and the provider's action creators
    (src/context/AppContext.jsx). */
module AppContext {
  import opened Common
  import opened QuizUtils

  /** The user record of the initial state: an empty profile, login method
      "email", not logged in. */
  const InitialUser: Record := map[
    "name" := Text(""), "class" := Text(""), "interests" := TextList([]),
    "email" := Text(""), "dateOfBirth" := Text(""), "education" := Text(""),
    "location" := Text(""), "mobile" := Text(""), "profilePicture" := Text(""),
    "loginMethod" := Text("email"), "isLoggedIn" := Flag(false)]

  /** Zero scores, no recommendation, not completed. The initial record has no
      `tiedStreams` key; an absent key and `null` read the same, so both are
      `None`. */
  const InitialQuizResults := QuizResult(ZeroScores, None, None, false)

  datatype AppState = AppState(user: Record, quizResults: QuizResult, currentPage: string)

  const InitialState := AppState(InitialUser, InitialQuizResults, "welcome")

  predicate LoggedIn(user: Record)
  {
    Truthy(Get(user, "isLoggedIn"))
  }

  /** A `setQuizResults` payload: each field is absent (`None`) or present
      with a value, which may itself be `null`. */
  datatype QuizPatch = QuizPatch(
    scores: Option<Scores>,
    recommendedStream: Option<Option<Category>>,
    tiedStreams: Option<Option<seq<Category>>>,
    completed: Option<bool>)

  /** The payload the quiz page sends: the whole `calculateQuizResults` value,
      every key present. */
  function PatchOf(r: QuizResult): QuizPatch
  {
    QuizPatch(Some(r.scores), Some(r.recommendedStream), Some(r.tiedStreams), Some(r.completed))
  }

  /** The payload of "retake quiz" on the results page: it carries no
      `tiedStreams` key. */
  const RetakePatch := QuizPatch(Some(ZeroScores), Some(None), None, Some(false))

  function Pick<T>(patch: Option<T>, current: T): T
  {
    if patch.Some? then patch.value else current
  }

  /** `{...quizResults, ...payload}`: present fields replace, absent ones stay. */
  function MergeQuiz(q: QuizResult, p: QuizPatch): (r: QuizResult)
    ensures p.scores.Some? ==> r.scores == p.scores.value
    ensures p.scores.None? ==> r.scores == q.scores
    ensures p.recommendedStream.Some? ==> r.recommendedStream == p.recommendedStream.value
    ensures p.recommendedStream.None? ==> r.recommendedStream == q.recommendedStream
    ensures p.tiedStreams.Some? ==> r.tiedStreams == p.tiedStreams.value
    ensures p.tiedStreams.None? ==> r.tiedStreams == q.tiedStreams
    ensures p.completed.Some? ==> r.completed == p.completed.value
    ensures p.completed.None? ==> r.completed == q.completed
  {
    QuizResult(
      Pick(p.scores, q.scores),
      Pick(p.recommendedStream, q.recommendedStream),
      Pick(p.tiedStreams, q.tiedStreams),
      Pick(p.completed, q.completed))
  }

  /** `{...user, ...payload, isLoggedIn: true}`. */
  function MergeUser(user: Record, payload: Record): (r: Record)
    ensures r.Keys == user.Keys + payload.Keys + {"isLoggedIn"}
    ensures r["isLoggedIn"] == Flag(true)
    ensures forall k :: k in payload && k != "isLoggedIn" ==> r[k] == payload[k]
    ensures forall k :: k in user && k !in payload && k != "isLoggedIn" ==> r[k] == user[k]
  {
    user + payload + map["isLoggedIn" := Flag(true)]
  }

  /** The action types `appReducer` has a case for. */
  const HandledTypes: set<string> := {"SET_USER_INFO", "SET_QUIZ_RESULTS", "SET_CURRENT_PAGE", "RESET_STATE"}

  /** Any other action type; these fall to the reducer's default case. */
  type UnhandledType = t: string | t !in HandledTypes witness ""

  datatype Action =
    | SetUserInfo(userInfo: Record)
    | SetQuizResults(results: QuizPatch)
    | SetCurrentPage(page: string)
    | ResetState
    /** An action whose `type` is none of the four the reducer handles. */
    | Unrecognised(actionType: UnhandledType)

  /** `appReducer`. */
  function Reduce(state: AppState, action: Action): (r: AppState)
    ensures action.SetUserInfo? ==>
      r.user == MergeUser(state.user, action.userInfo) &&
      r.quizResults == state.quizResults && r.currentPage == state.currentPage
    ensures action.SetQuizResults? ==>
      r.quizResults == MergeQuiz(state.quizResults, action.results) &&
      r.user == state.user && r.currentPage == state.currentPage
    ensures action.SetCurrentPage? ==>
      r.currentPage == action.page && r.user == state.user && r.quizResults == state.quizResults
    ensures action.ResetState? ==>
      !LoggedIn(r.user) && r.quizResults.scores == ZeroScores &&
      r.quizResults.recommendedStream.None? && !r.quizResults.completed && r.currentPage == "welcome"
    ensures action.Unrecognised? ==> r == state
  {
    match action
    case SetUserInfo(payload) => state.(user := MergeUser(state.user, payload))
    case SetQuizResults(payload) => state.(quizResults := MergeQuiz(state.quizResults, payload))
    case SetCurrentPage(page) => state.(currentPage := page)
    case ResetState => InitialState
    case Unrecognised(_) => state
  }

  /** Setting the user always logs in, whatever the payload says about
      `isLoggedIn`. */
  lemma SetUserInfoLogsIn(state: AppState, payload: Record)
    ensures LoggedIn(Reduce(state, SetUserInfo(payload)).user)
    ensures "isLoggedIn" in payload && payload["isLoggedIn"] == Flag(false) ==>
      LoggedIn(Reduce(state, SetUserInfo(payload)).user)
  {
  }

  /** A full result payload replaces the stored result outright. */
  lemma FullPatchReplaces(q: QuizResult, r: QuizResult)
    ensures MergeQuiz(q, PatchOf(r)) == r
  {
  }

  /** The retake payload keeps whatever `tiedStreams` was stored before, while
      clearing the recommendation it was reported against. */
  lemma RetakeKeepsStaleTies(state: AppState)
    ensures Reduce(state, SetQuizResults(RetakePatch)).quizResults ==
      QuizResult(ZeroScores, None, state.quizResults.tiedStreams, false)
  {
  }

  /** Both a page change and a reset are idempotent. */
  lemma ReduceIdempotent(state: AppState, action: Action)
    requires action.SetCurrentPage? || action.ResetState?
    ensures Reduce(Reduce(state, action), action) == Reduce(state, action)
  {
  }

  /** Reset forgets everything: any two states reset to the same one. */
  lemma ResetForgets(s: AppState, t: AppState)
    ensures Reduce(s, ResetState) == Reduce(t, ResetState) == InitialState
  {
  }

  /** The provider: holds the state and replaces it through `dispatch`. */
  class AppStore {
    var state: AppState

    constructor()
      ensures state == InitialState
    {
      state := InitialState;
    }

    method Dispatch(action: Action)
      modifies this
      ensures state == Reduce(old(state), action)
    {
      state := Reduce(state, action);
    }

    method SetUserInfo(userInfo: Record)
      modifies this
      ensures state == Reduce(old(state), Action.SetUserInfo(userInfo))
      ensures LoggedIn(state.user)
    {
      Dispatch(Action.SetUserInfo(userInfo));
    }

    method SetQuizResults(results: QuizPatch)
      modifies this
      ensures state == Reduce(old(state), Action.SetQuizResults(results))
    {
      Dispatch(Action.SetQuizResults(results));
    }

    method SetCurrentPage(page: string)
      modifies this
      ensures state == Reduce(old(state), Action.SetCurrentPage(page))
    {
      Dispatch(Action.SetCurrentPage(page));
    }

    method ResetState()
      modifies this
      ensures state == InitialState
    {
      Dispatch(Action.ResetState);
    }
  }

  /** `useApp`: the provided context, or the error raised outside a provider. */
  function UseApp(context: Option<AppStore>): (r: Result<AppStore>)
    ensures r.Ok? <==> context.Some?
    ensures r.Ok? ==> r.value == context.value
    ensures r.Err? ==> r.message == "useApp must be used within an AppProvider"
  {
    match context
    case None => Err("useApp must be used within an AppProvider")
    case Some(c) => Ok(c)
  }
}
