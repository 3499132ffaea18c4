/**
 * The route guard and the route table (src/components/Routing.tsx). Routes are named
 * by their patterns; how the router matches a URL against the patterns is not part
 * of this model.
 */
module Routing {
  import opened Types

  /** What `PrivateRoute` renders. */
  datatype GuardView = Placeholder | RedirectToLogin | Children

  /** The pages the table can show. */
  datatype Page = LoginPage | SignupPage | DashboardPage | IssueListPage | CreateIssuePage | IssueDetailPage | ProfilePage

  /** A route's element: a page shown as is, a page behind the guard, or a redirect. */
  datatype Element = Public(page: Page) | Private(page: Page) | Redirect(target: Path)

  datatype Route = Route(pattern: Path, element: Element)

  /** What a visit to a route shows. */
  datatype Screen = Shows(page: Page) | Loading | GoesTo(target: Path) | NoMatch

  /** The patterns the table declares. */
  datatype Path = LoginPath | SignupPath | RootPath | IssuesPath | NewIssuePath | IssueByTitlePath | ProfilePath | DashboardPath

  /** A pattern as written in the table. */
  function PathText(p: Path): (text: string)
    ensures |text| >= 1 && text[0] == '/'
  {
    match p
    case LoginPath => "/login"
    case SignupPath => "/signup"
    case RootPath => "/"
    case IssuesPath => "/issues"
    case NewIssuePath => "/issues/new"
    case IssueByTitlePath => "/issues/:title"
    case ProfilePath => "/profile"
    case DashboardPath => "/dashboard"
  }

  /**
   * Distinct patterns are spelled differently, so naming a route by its `Path` loses
   * nothing of the table.
   */
  lemma PathTextInjective(p: Path, q: Path)
    ensures PathText(p) == PathText(q) <==> p == q
  {
    if p != q {
      var a, b := PathText(p), PathText(q);
      if |a| == |b| {
        assert a[1] != b[1] || a[2] != b[2] || a[|a| - 1] != b[|b| - 1];
      }
    }
  }

  /** The guard: a placeholder while the session loads, then the login redirect or the children. */
  function PrivateRoute(isLoading: bool, user: Option<User>): (v: GuardView)
    ensures v == Placeholder <==> isLoading
    ensures v == RedirectToLogin <==> !isLoading && user.None?
    ensures v == Children <==> !isLoading && user.Some?
  {
    if isLoading then Placeholder
    else if user.None? then RedirectToLogin
    else Children
  }

  /** The table, in declaration order. */
  const Routes: seq<Route> := [
    Route(LoginPath, Public(LoginPage)),
    Route(SignupPath, Public(SignupPage)),
    Route(RootPath, Private(DashboardPage)),
    Route(IssuesPath, Private(IssueListPage)),
    Route(NewIssuePath, Private(CreateIssuePage)),
    Route(IssueByTitlePath, Private(IssueDetailPage)),
    Route(ProfilePath, Private(ProfilePage)),
    Route(DashboardPath, Redirect(RootPath))
  ]

  /** The element of the first route declared with this pattern. */
  function ElementOf(routes: seq<Route>, pattern: Path): Option<Element>
  {
    if routes == [] then None
    else if routes[0].pattern == pattern then Some(routes[0].element)
    else ElementOf(routes[1..], pattern)
  }

  /** The element found is that of the first route declared with the pattern; none is found only if no route has it. */
  lemma {:induction false} ElementOfIsFirstMatch(routes: seq<Route>, pattern: Path)
    ensures ElementOf(routes, pattern).None? ==> forall j :: 0 <= j < |routes| ==> routes[j].pattern != pattern
    ensures ElementOf(routes, pattern).Some? ==>
      exists i :: 0 <= i < |routes| && routes[i] == Route(pattern, ElementOf(routes, pattern).value) &&
                  (forall j :: 0 <= j < i ==> routes[j].pattern != pattern)
    decreases |routes|
  {
    if routes != [] && routes[0].pattern != pattern {
      ElementOfIsFirstMatch(routes[1..], pattern);
      if ElementOf(routes, pattern).Some? {
        var i :| 0 <= i < |routes[1..]| && routes[1..][i] == Route(pattern, ElementOf(routes, pattern).value) &&
                 (forall j :: 0 <= j < i ==> routes[1..][j].pattern != pattern);
        assert routes[i + 1] == routes[1..][i];
        assert forall j :: 1 <= j < i + 1 ==> routes[j] == routes[1..][j - 1];
      } else {
        assert forall j :: 1 <= j < |routes| ==> routes[j] == routes[1..][j - 1];
      }
    } else if routes != [] {
      assert routes[0] == Route(pattern, ElementOf(routes, pattern).value);
    }
  }

  /** One visit to a route, given the session's loading flag and user. */
  function Visit(pattern: Path, isLoading: bool, user: Option<User>): (screen: Screen)
    ensures screen != NoMatch
    ensures screen == Loading <==> isLoading && IsPrivate(pattern)
  {
    match ElementOf(Routes, pattern)
    case None => NoMatch
    case Some(Public(p)) => Shows(p)
    case Some(Redirect(t)) => GoesTo(t)
    case Some(Private(p)) =>
      match PrivateRoute(isLoading, user)
      case Placeholder => Loading
      case RedirectToLogin => GoesTo(LoginPath)
      case Children => Shows(p)
  }

  /** Follow redirects, at most `hops` of them. */
  function Settle(pattern: Path, isLoading: bool, user: Option<User>, hops: nat): (screen: Screen)
    ensures screen != NoMatch
    ensures screen == Loading ==> isLoading
    decreases hops
  {
    match Visit(pattern, isLoading, user)
    case GoesTo(t) => if hops == 0 then GoesTo(t) else Settle(t, isLoading, user, hops - 1)
    case other => other
  }

  predicate IsPrivate(pattern: Path)
  {
    ElementOf(Routes, pattern).Some? && ElementOf(Routes, pattern).value.Private?
  }

  /** Which patterns are behind the guard, which are not, and where /dashboard points. */
  lemma RouteTable()
    ensures forall p :: IsPrivate(p) <==> p in {RootPath, IssuesPath, NewIssuePath, IssueByTitlePath, ProfilePath}
    ensures ElementOf(Routes, LoginPath) == Some(Public(LoginPage))
    ensures ElementOf(Routes, SignupPath) == Some(Public(SignupPage))
    ensures ElementOf(Routes, DashboardPath) == Some(Redirect(RootPath))
    ensures forall p :: ElementOf(Routes, p).Some?
  {
  }

  /** A private route: loading shows the placeholder, no user goes to /login, a user sees the page. */
  lemma PrivateRouteVisits(pattern: Path, isLoading: bool, user: Option<User>)
    requires IsPrivate(pattern)
    ensures isLoading ==> Visit(pattern, isLoading, user) == Loading
    ensures !isLoading && user.None? ==> Visit(pattern, isLoading, user) == GoesTo(LoginPath)
    ensures !isLoading && user.Some? ==> Visit(pattern, isLoading, user) == Shows(ElementOf(Routes, pattern).value.page)
  {
  }

  /**
   * Once the session has loaded, every route of the table settles on a page within two
   * redirects: without a user every private route and /dashboard end on the login page;
   * with one, /dashboard ends on the dashboard.
   */
  lemma EveryRouteSettles(isLoading: bool, user: Option<User>)
    requires !isLoading
    ensures forall p :: Settle(p, isLoading, user, 2).Shows?
    ensures user.None? ==> forall p :: IsPrivate(p) || p == DashboardPath ==> Settle(p, isLoading, user, 2) == Shows(LoginPage)
    ensures user.Some? ==> Settle(DashboardPath, isLoading, user, 2) == Shows(DashboardPage)
  {
    RouteTable();
    forall p
      ensures Settle(p, isLoading, user, 2).Shows?
      ensures user.None? && (IsPrivate(p) || p == DashboardPath) ==> Settle(p, isLoading, user, 2) == Shows(LoginPage)
    {
      assert Visit(LoginPath, isLoading, user) == Shows(LoginPage);
    }
  }
}
