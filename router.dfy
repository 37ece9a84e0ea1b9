/**
 * The route table and the global `beforeEach` guard. The guard is a pure
 * decision over whether the user is logged in and the target location.
 */
module Router {
  import opened Wrappers

  /** The route names of the table: a closed set, so a name is one of these. */
  datatype RouteName =
    | Home | Profile | Timeline | Music | Course | Dashboard | Login | CourseList
    | Unauthorized | Forbidden | ServerErrorPage | PaymentScan | Payment | PaymentResult | NotFound

  /** The name as written in the table. */
  function NameText(n: RouteName): string {
    match n
    case Home => "home"
    case Profile => "profile"
    case Timeline => "timeline"
    case Music => "music"
    case Course => "course"
    case Dashboard => "dashboard"
    case Login => "login"
    case CourseList => "course-list"
    case Unauthorized => "unauthorized"
    case Forbidden => "forbidden"
    case ServerErrorPage => "server-error"
    case PaymentScan => "payment-scan"
    case Payment => "payment"
    case PaymentResult => "payment-result"
    case NotFound => "not-found"
  }

  datatype Route = Route(path: string, name: RouteName, requiresAuth: bool)

  /** The route table in declaration order; only `requiresAuth` of each route's meta matters here. */
  const Routes: seq<Route> := [
    Route("/", Home, false),
    Route("/profile", Profile, false),
    Route("/timeline", Timeline, false),
    Route("/music", Music, false),
    Route("/course", Course, false),
    Route("/dashboard", Dashboard, true),
    Route("/login", Login, false),
    Route("/course/:id", CourseList, true),
    Route("/401", Unauthorized, false),
    Route("/403", Forbidden, false),
    Route("/500", ServerErrorPage, false),
    Route("/payment/scan", PaymentScan, false),
    Route("/payment", Payment, true),
    Route("/payment/result", PaymentResult, true),
    Route("/:pathMatch(.*)*", NotFound, false)
  ]

  /** The names of the routes that require authentication. */
  function ProtectedNames(routes: seq<Route>): set<RouteName> {
    set k | 0 <= k < |routes| && routes[k].requiresAuth :: routes[k].name
  }

  /** The position of the first route with the given name, or the table's length when none has it. */
  function FirstNamed(routes: seq<Route>, name: RouteName): (k: nat)
    ensures k <= |routes|
    ensures k < |routes| ==> routes[k].name == name
    ensures forall j :: 0 <= j < k ==> routes[j].name != name
  {
    if routes == [] then 0
    else if routes[0].name == name then 0
    else
      var k := FirstNamed(routes[1..], name);
      assert forall j :: 1 <= j < k + 1 ==> routes[j] == routes[1..][j - 1];
      k + 1
  }

  /** The route named navigation resolves a name to: the first one declared with it. */
  function FindByName(routes: seq<Route>, name: RouteName): (r: Option<Route>)
    ensures r.Some? ==> r.value in routes && r.value.name == name
    ensures r.None? ==> forall k :: 0 <= k < |routes| ==> routes[k].name != name
  {
    var k := FirstNamed(routes, name);
    if k < |routes| then Some(routes[k]) else None
  }

  /** The `to` location the guard inspects. */
  datatype Location = Location(name: Option<RouteName>, fullPath: string, requiresAuth: bool)

  /** The location a route is reached at. */
  function At(route: Route, fullPath: string): Location {
    Location(Some(route.name), fullPath, route.requiresAuth)
  }

  /** What the guard passes to `next`: nothing, or a named route with an optional redirect query. */
  datatype Next = Proceed | Redirect(name: RouteName, redirectQuery: Option<string>)

  /** The guard's decision and whether it shows the "please log in" error. */
  datatype Decision = Decision(next: Next, loginNotice: bool)

  /**
   * The `beforeEach` guard. A logged-in user heading to "login" goes to
   * "dashboard" (checked first); an anonymous user heading to a route that
   * requires auth goes to "login" carrying the target's full path, with an
   * error notice; everything else proceeds.
   */
  function BeforeEach(isLoggedIn: bool, to: Location): (d: Decision)
    ensures isLoggedIn && to.name == Some(Login) ==> d.next == Redirect(Dashboard, None)
    ensures !(isLoggedIn && to.name == Some(Login)) && to.requiresAuth && !isLoggedIn ==>
              d.next == Redirect(Login, Some(to.fullPath))
    ensures d.next == Proceed <==>
              !(isLoggedIn && to.name == Some(Login)) && !(to.requiresAuth && !isLoggedIn)
    ensures d.loginNotice <==> d.next.Redirect? && d.next.name == Login
    ensures to.requiresAuth && !isLoggedIn ==> d.next != Proceed
  {
    if isLoggedIn && to.name == Some(Login) then
      Decision(Redirect(Dashboard, None), false)
    else if to.requiresAuth && !isLoggedIn then
      Decision(Redirect(Login, Some(to.fullPath)), true)
    else
      Decision(Proceed, false)
  }

  /** Exactly dashboard, course-list, payment and payment-result require auth; payment-scan is public. */
  lemma ProtectedRoutes()
    ensures ProtectedNames(Routes) == {Dashboard, CourseList, Payment, PaymentResult}
    ensures PaymentScan !in ProtectedNames(Routes)
  {
    var expected := {Dashboard, CourseList, Payment, PaymentResult};
    assert forall k :: 0 <= k < |Routes| && Routes[k].requiresAuth ==> Routes[k].name in expected;
    assert Routes[5].requiresAuth && Routes[5].name == Dashboard;
    assert Routes[7].requiresAuth && Routes[7].name == CourseList;
    assert Routes[12].requiresAuth && Routes[12].name == Payment;
    assert Routes[13].requiresAuth && Routes[13].name == PaymentResult;
  }

  lemma DashboardResolves()
    ensures FindByName(Routes, Dashboard) == Some(Routes[5])
  {
    assert Routes[5].name == Dashboard;
    assert FirstNamed(Routes, Dashboard) == 5;
  }

  lemma LoginResolves()
    ensures FindByName(Routes, Login) == Some(Routes[6])
  {
    assert Routes[6].name == Login;
    assert FirstNamed(Routes, Login) == 6;
  }

  /**
   * A redirect issued by the guard names a route of the table, and the guard
   * lets the same user through to that route: one redirect always settles.
   */
  lemma RedirectSettles(isLoggedIn: bool, to: Location, fullPath: string)
    requires BeforeEach(isLoggedIn, to).next.Redirect?
    ensures FindByName(Routes, BeforeEach(isLoggedIn, to).next.name).Some?
    ensures BeforeEach(isLoggedIn, At(FindByName(Routes, BeforeEach(isLoggedIn, to).next.name).value, fullPath)).next == Proceed
  {
    if isLoggedIn {
      DashboardResolves();
    } else {
      LoginResolves();
    }
  }
}
