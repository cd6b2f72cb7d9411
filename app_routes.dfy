/** The route table and its gate: which screen a path shows, given the session's
    loading and authentication flags. */
module AppRoutes {
  import opened Common

  datatype PageName = Dashboard | Users | Lessons | Quizzes | QuizAnswers | GenerateTopics

  /** What the router renders: the "Loading..." placeholder, a `<Navigate replace>`, the
      login page, or a page inside the admin layout. */
  datatype Screen =
    | LoadingPlaceholder
    | Redirect(to: string)
    | LoginScreen
    | InLayout(page: PageName)

  /** The six protected paths. */
  function ProtectedPage(path: string): (r: Option<PageName>)
    ensures r == Some(Dashboard) <==> path == "/dashboard"
    ensures r == Some(Users) <==> path == "/users"
    ensures r == Some(Lessons) <==> path == "/lessons"
    ensures r == Some(Quizzes) <==> path == "/quizzes"
    ensures r == Some(QuizAnswers) <==> path == "/quiz-answers"
    ensures r == Some(GenerateTopics) <==> path == "/generate-topics"
    ensures r.Some? ==> path != "/login" && path != "/"
  {
    if path == "/dashboard" then Some(Dashboard)
    else if path == "/users" then Some(Users)
    else if path == "/lessons" then Some(Lessons)
    else if path == "/quizzes" then Some(Quizzes)
    else if path == "/quiz-answers" then Some(QuizAnswers)
    else if path == "/generate-topics" then Some(GenerateTopics)
    else None
  }

  /** `ProtectedRoute`: the placeholder while loading, a redirect to `/login` when signed
      out, the page in the layout otherwise. */
  function Gate(isLoading: bool, isAuthenticated: bool, page: PageName): (s: Screen)
    ensures s == InLayout(page) <==> !isLoading && isAuthenticated
    ensures s == LoadingPlaceholder <==> isLoading
    ensures s == Redirect("/login") <==> !isLoading && !isAuthenticated
  {
    if isLoading then LoadingPlaceholder
    else if !isAuthenticated then Redirect("/login")
    else InLayout(page)
  }

  /** The screen for a path.  `/login` is never gated; `/` and every unknown path
      redirect to `/dashboard` without consulting the session. */
  function Resolve(path: string, isLoading: bool, isAuthenticated: bool): (s: Screen)
    ensures path == "/login" ==> s == LoginScreen
    ensures s.InLayout? <==> ProtectedPage(path).Some? && !isLoading && isAuthenticated
    ensures s.InLayout? ==> Some(s.page) == ProtectedPage(path)
    ensures s.LoadingPlaceholder? <==> ProtectedPage(path).Some? && isLoading
    ensures s.Redirect? ==> s.to == "/login" || s.to == "/dashboard"
    ensures s == Redirect("/dashboard") <==> path != "/login" && ProtectedPage(path).None?
  {
    if path == "/login" then LoginScreen
    else match ProtectedPage(path)
      case Some(page) => Gate(isLoading, isAuthenticated, page)
      case None => Redirect("/dashboard")
  }

  /** Following redirects settles after at most two of them, on the dashboard, the
      placeholder or the login page. */
  lemma RedirectsSettle(path: string, isLoading: bool, isAuthenticated: bool)
    ensures var s1 := Resolve(path, isLoading, isAuthenticated);
            s1.Redirect? ==>
              var s2 := Resolve(s1.to, isLoading, isAuthenticated);
              s2.Redirect? ==>
                Resolve(s2.to, isLoading, isAuthenticated) == LoginScreen
    ensures var s1 := Resolve(path, isLoading, isAuthenticated);
            s1.Redirect? ==>
              var s2 := Resolve(s1.to, isLoading, isAuthenticated);
              s2 in {LoadingPlaceholder, LoginScreen, InLayout(Dashboard), Redirect("/login")}
  {
    var s1 := Resolve(path, isLoading, isAuthenticated);
    if s1.Redirect? {
      assert s1.to == "/login" || s1.to == "/dashboard";
      if s1.to == "/dashboard" {
        assert ProtectedPage(s1.to) == Some(Dashboard);
      }
    }
  }

}
