/**
 * Properties that span components: the guard and the login panel's
 * redirect, the response interceptor and the session store, the store and
 * the request interceptor, and the interceptor's error pages and the route
 * table.
 */
module Flows {
  import opened Wrappers
  import opened Types
  import opened Storage
  import opened Api
  import opened Router
  import opened UserStore
  import LoginForm

  /**
   * What an awaited call gives the store once the response interceptor has
   * run: the envelope when it resolved, a thrown error when it rejected.
   */
  function Awaited(env: Envelope<User>): (r: ApiResult)
    ensures r.Returned? <==> IsSuccessCode(env.code)
    ensures r.Returned? ==> r == Returned(env.code, env.message, env.data)
  {
    if OnResponse(env).result.Resolved? then Returned(env.code, env.message, env.data) else Threw
  }

  /**
   * `fetchUserInfo` through the interceptor: code 200 updates the user, any
   * other 2xx code changes nothing, and every other code logs the user out.
   */
  lemma FetchByBackendCode(w: World, env: Envelope<User>)
    ensures env.code == 200 ==> AfterFetch(w, Awaited(env)) == AfterUpdate(w, env.data)
    ensures IsSuccessCode(env.code) && env.code != 200 ==> AfterFetch(w, Awaited(env)) == w
    ensures !IsSuccessCode(env.code) ==> AfterFetch(w, Awaited(env)) == AfterLogout(w)
  {
  }

  /**
   * `login` through the interceptor: it logs in only on code 200; another
   * 2xx code is refused with the server's message; any other code reaches
   * the store as a thrown error, and the session is left as it was.
   */
  lemma LoginByBackendCode(w: World, env: Envelope<User>)
    ensures LoginOutcomeOf(Awaited(env)).LoggedIn? <==> env.code == 200
    ensures LoginOutcomeOf(Awaited(env)).Refused? <==> IsSuccessCode(env.code) && env.code != 200
    ensures env.code != 200 ==> AfterLogin(w, Awaited(env)) == w
  {
  }

  /**
   * After a successful login every request carries the new token; after a
   * logout no request gets an Authorization header from the interceptor.
   */
  lemma TokenReachesRequests(w: World, r: ApiResult, headers: map<string, string>)
    ensures IsOk(r) && r.data.token != "" ==>
              var h := Authorize(headers, GetText(AfterLogin(w, r).items, TokenKey));
              "Authorization" in h && h["Authorization"] == BearerPrefix + r.data.token
    ensures Authorize(headers, GetText(AfterLogout(w).items, TokenKey)) == headers
  {
    if IsOk(r) && r.data.token != "" {
      assert GetText(AfterLogin(w, r).items, TokenKey) == Some(r.data.token);
    }
    assert TokenKey !in AfterLogout(w).items;
  }

  /**
   * The way back from the login page: an anonymous visit to a protected
   * page is sent to login carrying the page's full path; once the login
   * succeeds the panel navigates to exactly that path, and the guard, now
   * reading the logged-in session, lets the user through.
   */
  lemma ProtectedPageRoundTrip(w: World, r: ApiResult, route: Route, fullPath: string)
    requires route in Routes && route.requiresAuth
    requires fullPath != ""
    requires IsOk(r)
    ensures BeforeEach(false, At(route, fullPath)).next == Redirect(Login, Some(fullPath))
    ensures LoginForm.Destination(BeforeEach(false, At(route, fullPath)).next.redirectQuery) == fullPath
    ensures AfterLogin(w, r).session.isLoggedIn
    ensures BeforeEach(AfterLogin(w, r).session.isLoggedIn, At(route, fullPath)).next == Proceed
  {
    assert route.name != Login by {
      var k :| 0 <= k < |Routes| && Routes[k] == route;
    }
  }

  /** After a logout every protected page sends the user to login, and the login page is reachable. */
  lemma LogoutLocksProtectedPages(w: World, to: Location)
    ensures to.requiresAuth ==> BeforeEach(AfterLogout(w).session.isLoggedIn, to).next == Redirect(Login, Some(to.fullPath))
    ensures !to.requiresAuth ==> BeforeEach(AfterLogout(w).session.isLoggedIn, to).next == Proceed
  {
  }

  /**
   * The interceptor's error pages are public: every route declared at
   * "/401" or "/403" needs no login, and no route is declared at "/404",
   * which therefore falls to the public catch-all route.
   */
  lemma ErrorPagesArePublic(env: Envelope<User>)
    requires OnResponse(env).navigate.Some?
    ensures forall k :: 0 <= k < |Routes| && Routes[k].path == OnResponse(env).navigate.value ==> !Routes[k].requiresAuth
    ensures OnResponse(env).navigate == Some("/404") ==> forall k :: 0 <= k < |Routes| ==> Routes[k].path != "/404"
    ensures Routes[|Routes| - 1].name == RouteName.NotFound && !Routes[|Routes| - 1].requiresAuth
  {
  }
}
