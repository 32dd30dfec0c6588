/** Page routing (src/App.jsx). */
module App {
  import opened AppContext

  /** The pages the router can render. */
  datatype Page = WelcomePage | ProfilePage | QuizPage | ResultsPage | DashboardPage

  /** The page id that selects each page. */
  function PageId(p: Page): string
  {
    match p
    case WelcomePage => "welcome"
    case ProfilePage => "profile"
    case QuizPage => "quiz"
    case ResultsPage => "results"
    case DashboardPage => "dashboard"
  }

  /** `renderCurrentPage`: the five known ids select their page, every other
      id falls back to Welcome. */
  function RenderCurrentPage(state: AppState): (p: Page)
    ensures state.currentPage == PageId(p) ||
      (p == WelcomePage && state.currentPage !in {"profile", "quiz", "results", "dashboard"})
  {
    match state.currentPage
    case "welcome" => WelcomePage
    case "profile" => ProfilePage
    case "quiz" => QuizPage
    case "results" => ResultsPage
    case "dashboard" => DashboardPage
    case _ => WelcomePage
  }

  /** Routing to a page's own id renders that page. */
  lemma RenderPageId(state: AppState, p: Page)
    ensures RenderCurrentPage(state.(currentPage := PageId(p))) == p
  {
  }

  /** The ids other screens navigate to but the router does not know. */
  lemma UnroutedIdsRenderWelcome(state: AppState)
    requires state.currentPage == "auth" || state.currentPage == "profileEdit"
    ensures RenderCurrentPage(state) == WelcomePage
  {
  }

  /** Only the page id matters, not the user or the quiz results. */
  lemma RenderDependsOnlyOnPage(s: AppState, t: AppState)
    requires s.currentPage == t.currentPage
    ensures RenderCurrentPage(s) == RenderCurrentPage(t)
  {
  }
}
