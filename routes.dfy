/** The route guards and the route table of the application shell
    (frontend/src/App.js): what each path shows for a given session state,
    and where the chain of redirects ends. */
module Routes {

  /** What a guard renders: the loading screen, its children, or a redirect. */
  datatype Guard = LoadingScreen | Children | Navigate(to: string)

  /** `ProtectedRoute`: only a signed-in user sees the children; anyone else goes to /login. */
  function ProtectedRoute(loading: bool, isAuthenticated: bool): (g: Guard)
    ensures g == LoadingScreen <==> loading
    ensures !loading ==> (g == Children <==> isAuthenticated)
    ensures g.Navigate? ==> g.to == "/login"
  {
    if loading then LoadingScreen
    else if isAuthenticated then Children
    else Navigate("/login")
  }

  /** `PublicRoute`: only a signed-out user sees the children; a signed-in one goes to /.
      Once loading is over, exactly one of the two guards renders its children. */
  function PublicRoute(loading: bool, isAuthenticated: bool): (g: Guard)
    ensures g == LoadingScreen <==> loading
    ensures !loading ==> (g == Children <==> !isAuthenticated)
    ensures g.Navigate? ==> g.to == "/"
    ensures !loading ==> (g == Children <==> ProtectedRoute(loading, isAuthenticated) != Children)
  {
    if loading then LoadingScreen
    else if isAuthenticated then Navigate("/")
    else Children
  }

  datatype Page = HomePage | LoginPage | SignupPage

  /** What the router shows at a path. */
  datatype View = Loading | Render(page: Page) | Redirect(to: string)

  /** The paths the table names; every other path falls to the catch-all route. */
  predicate IsKnownPath(path: string) {
    path == "/" || path == "/login" || path == "/signup"
  }

  function PageAt(path: string): Page
    requires IsKnownPath(path)
  {
    if path == "/" then HomePage else if path == "/login" then LoginPage else SignupPage
  }

  /** A guarded element as a view. */
  function Guarded(g: Guard, page: Page): View {
    match g
    case LoadingScreen => Loading
    case Children => Render(page)
    case Navigate(to) => Redirect(to)
  }

  /** The route table of `AppContent`: / under `ProtectedRoute`, /login and
      /signup under `PublicRoute`, and every other path redirected to /, even
      while loading. A page renders exactly when the path is known, loading is
      over, and the path is / for a signed-in user or another known path for a
      signed-out one. */
  function Route(path: string, loading: bool, isAuthenticated: bool): (v: View)
    ensures !IsKnownPath(path) ==> v == Redirect("/")
    ensures v == Loading <==> IsKnownPath(path) && loading
    ensures v.Render? <==> IsKnownPath(path) && !loading && (path == "/" <==> isAuthenticated)
    ensures v.Render? ==> v.page == PageAt(path)
    ensures v.Redirect? ==> (v.to == "/login" <==> path == "/") && (v.to == "/" || v.to == "/login")
  {
    if path == "/" then Guarded(ProtectedRoute(loading, isAuthenticated), HomePage)
    else if path == "/login" then Guarded(PublicRoute(loading, isAuthenticated), LoginPage)
    else if path == "/signup" then Guarded(PublicRoute(loading, isAuthenticated), SignupPage)
    else Redirect("/")
  }

  /** Following redirects from `path`, at most `hops` times: the path reached and what it shows. */
  function Follow(path: string, loading: bool, isAuthenticated: bool, hops: nat): (r: (string, View))
    decreases hops
  {
    var v := Route(path, loading, isAuthenticated);
    if v.Redirect? && hops > 0 then Follow(v.to, loading, isAuthenticated, hops - 1) else (path, v)
  }

  /** Where a visitor to `path` ends up once loading is over: / when signed in;
      /signup when signed out and already there; /login otherwise. */
  function Destination(path: string, isAuthenticated: bool): string {
    if isAuthenticated then "/" else if path == "/signup" then "/signup" else "/login"
  }

  /** Once loading is over, every path reaches a rendered page within two
      redirects, and that page is the destination's. */
  lemma {:induction false} RedirectsSettle(path: string, isAuthenticated: bool)
    ensures Follow(path, false, isAuthenticated, 2).0 == Destination(path, isAuthenticated)
    ensures Follow(path, false, isAuthenticated, 2).1 == Render(PageAt(Destination(path, isAuthenticated)))
  {
  }

  /** Two redirects are needed: a signed-out visitor to an unknown path goes
      to /, then to /login. */
  lemma UnknownPathTakesTwoHops(path: string)
    requires !IsKnownPath(path)
    ensures Follow(path, false, false, 1) == ("/", Redirect("/login"))
    ensures Follow(path, false, false, 2) == ("/login", Render(LoginPage))
  {
    RedirectsSettle(path, false);
  }

  /** A rendered view is a fixed point: following more redirects changes nothing,
      so no redirect loop exists once loading is over. */
  lemma {:induction false} FollowStable(path: string, isAuthenticated: bool, hops: nat)
    requires hops >= 2
    ensures Follow(path, false, isAuthenticated, hops) == Follow(path, false, isAuthenticated, 2)
  {
    RedirectsSettle(path, isAuthenticated);
    var v := Route(path, false, isAuthenticated);
    if v.Redirect? {
      var u := v.to;
      var w := Route(u, false, isAuthenticated);
      if w.Redirect? {
        RenderedStays(w.to, isAuthenticated, hops - 2);
      } else {
        RenderedStays(u, isAuthenticated, hops - 1);
        RenderedStays(u, isAuthenticated, 1);
      }
    } else {
      RenderedStays(path, isAuthenticated, hops);
      RenderedStays(path, isAuthenticated, 2);
    }
  }

  /** Following from a path that does not redirect stays there. */
  lemma RenderedStays(path: string, isAuthenticated: bool, hops: nat)
    requires !Route(path, false, isAuthenticated).Redirect?
    ensures Follow(path, false, isAuthenticated, hops) == (path, Route(path, false, isAuthenticated))
  {
  }

  /** While loading, every path reaches the loading screen within one redirect. */
  lemma LoadingSettles(path: string, isAuthenticated: bool)
    ensures Follow(path, true, isAuthenticated, 1).1 == Loading
  {
  }
}
