/**
 * The application's routes: the two guards that decide, from the sign-in
 * state, whether a page is shown, a spinner, or a redirect, and the route
 * table that places them. The router compares a path with a route pattern
 * ignoring ASCII case and any run of trailing slashes.
 */
module Routes {
  import opened Optional
  import opened Text
  import opened Auth

  /** The pages behind the routes. */
  datatype Page = Landing | SignInPage | TaskList

  /** What a route renders: the spinner, its page, or a redirect (which replaces the history entry). */
  datatype Screen = Spinner | Show(page: Page) | Redirect(to: string)

  /** The guard of the signed-in pages: the spinner while loading, the page when signed in, else back home. */
  function ProtectedRoute(loading: bool, authenticated: bool, page: Page): (s: Screen)
    ensures loading ==> s == Spinner
    ensures !loading ==> (s == Show(page) <==> authenticated)
    ensures !loading && !authenticated ==> s == Redirect("/")
  {
    if loading then Spinner
    else if authenticated then Show(page)
    else Redirect("/")
  }

  /** The guard of the public pages: the spinner while loading, the page when signed out, else to the task list. */
  function PublicRoute(loading: bool, authenticated: bool, page: Page): (s: Screen)
    ensures loading ==> s == Spinner
    ensures !loading ==> (s == Show(page) <==> !authenticated)
    ensures !loading && authenticated ==> s == Redirect("/app")
  {
    if loading then Spinner
    else if !authenticated then Show(page)
    else Redirect("/app")
  }

  /** Once the sign-in state is settled, exactly one of the two guards shows its page. */
  lemma GuardsExclusive(authenticated: bool, p: Page, q: Page)
    ensures ProtectedRoute(false, authenticated, p).Show? != PublicRoute(false, authenticated, q).Show?
  {
  }

  /** The path with its run of trailing slashes removed. */
  function StripTrailingSlashes(path: string): (r: string)
    ensures |r| <= |path| && r == path[..|r|]
    ensures forall i :: |r| <= i < |path| ==> path[i] == '/'
    ensures r == [] || r[|r| - 1] != '/'
  {
    if |path| > 0 && path[|path| - 1] == '/' then StripTrailingSlashes(path[..|path| - 1]) else path
  }

  /**
   * What the router compares with a route pattern: the path without its
   * trailing slashes, ASCII letters lower-cased. The pattern "/" compares as
   * the empty key.
   */
  function RouteKey(path: string): string {
    Lower(StripTrailingSlashes(path))
  }

  /** The route table: two public pages, one protected page, and every other path sent home. */
  function Route(path: string, loading: bool, authenticated: bool): (s: Screen)
    ensures RouteKey(path) == "" ==> s == PublicRoute(loading, authenticated, Landing)
    ensures RouteKey(path) == "/auth" ==> s == PublicRoute(loading, authenticated, SignInPage)
    ensures RouteKey(path) == "/app" ==> s == ProtectedRoute(loading, authenticated, TaskList)
    ensures RouteKey(path) !in {"", "/auth", "/app"} ==> s == Redirect("/")
  {
    var key := RouteKey(path);
    if key == "" then PublicRoute(loading, authenticated, Landing)
    else if key == "/auth" then PublicRoute(loading, authenticated, SignInPage)
    else if key == "/app" then ProtectedRoute(loading, authenticated, TaskList)
    else Redirect("/")
  }

  /** One more trailing slash never changes where a path leads. */
  lemma TrailingSlashIgnored(path: string, loading: bool, authenticated: bool)
    ensures Route(path + "/", loading, authenticated) == Route(path, loading, authenticated)
  {
    assert (path + "/")[..|path|] == path;
  }

  /** Lower-casing commutes with removing trailing slashes. */
  lemma {:induction false} StripLower(path: string)
    ensures StripTrailingSlashes(Lower(path)) == Lower(StripTrailingSlashes(path))
    decreases |path|
  {
    if |path| > 0 {
      assert Lower(path)[..|path| - 1] == Lower(path[..|path| - 1]);
      if path[|path| - 1] == '/' {
        StripLower(path[..|path| - 1]);
      }
    }
  }

  /** The case of ASCII letters in a path never changes where it leads. */
  lemma RouteIgnoresCase(path: string, loading: bool, authenticated: bool)
    ensures Route(Lower(path), loading, authenticated) == Route(path, loading, authenticated)
  {
    StripLower(path);
    var r := StripTrailingSlashes(path);
    assert Lower(Lower(r)) == Lower(r);
  }

  /** Two spellings the router accepts for the sign-in page. */
  lemma SignInSpellings()
    ensures Route("/auth/", false, false) == Show(SignInPage)
    ensures Route("/AUTH", false, false) == Show(SignInPage)
  {
    assert StripTrailingSlashes("/auth/") == "/auth";
    assert Lower("/auth") == "/auth";
    assert Lower("/AUTH") == "/auth";
  }

  /** The two redirect targets are themselves routes of the table. */
  lemma RedirectTargets()
    ensures RouteKey("/") == ""
    ensures RouteKey("/app") == "/app"
  {
    assert StripTrailingSlashes("/") == "";
    assert Lower("/app") == "/app";
  }

  /** The page reached from a path by following at most `hops` redirects, with the sign-in state settled. */
  function Follow(path: string, authenticated: bool, hops: nat): Option<Page>
    decreases hops
  {
    match Route(path, false, authenticated)
    case Show(p) => Some(p)
    case Redirect(to) => if hops == 0 then None else Follow(to, authenticated, hops - 1)
    case Spinner => None
  }

  /**
   * With the sign-in state settled, every path reaches a page within two
   * redirects; it is the task list exactly when signed in, and a signed-out
   * visitor who asked for the sign-in page, in any spelling the router
   * accepts, gets it.
   */
  lemma {:induction false} EveryPathLands(path: string, authenticated: bool)
    ensures Follow(path, authenticated, 2).Some?
    ensures Follow(path, authenticated, 2).value == TaskList <==> authenticated
    ensures !authenticated && RouteKey(path) == "/auth" ==> Follow(path, authenticated, 2) == Some(SignInPage)
    ensures !authenticated && RouteKey(path) != "/auth" ==> Follow(path, authenticated, 2) == Some(Landing)
  {
    RedirectTargets();
    if authenticated {
      assert Follow("/app", authenticated, 0) == Some(TaskList);
      assert Follow("/", authenticated, 1) == Some(TaskList);
    } else {
      assert Follow("/", authenticated, 0) == Some(Landing);
      assert Follow("/", authenticated, 1) == Some(Landing);
    }
  }

  /** While the sign-in state loads, every guarded route shows the spinner. */
  lemma LoadingShowsSpinner(path: string, authenticated: bool)
    requires RouteKey(path) in {"", "/auth", "/app"}
    ensures Route(path, true, authenticated) == Spinner
  {
  }

  /**
   * The task list is shown exactly when the session gate has finished
   * loading and holds a user.
   */
  lemma TaskListNeedsUser(gate: AuthProvider, path: string)
    requires RouteKey(path) == "/app"
    ensures Route(path, gate.loading, gate.IsAuthenticated()) == Show(TaskList) <==>
      !gate.loading && gate.user.Some?
  {
  }
}
