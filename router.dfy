/**
 * The route table and navigation guard of src/router/index.ts: where a
 * navigation ends up given the target route's meta flags and whether the
 * store holds a current user.
 */
module Router {
  import opened ChatTypes
  import Store

  datatype RouteName = Login | Chat

  /** The meta flags of a route; a flag the record leaves out is false. */
  datatype RouteMeta = RouteMeta(requiresAuth: bool, requiresGuest: bool)

  datatype RouteRecord = RouteRecord(path: string, name: RouteName, meta: RouteMeta)

  /** The declared routes: '/' is the guest-only login page, '/chat' needs a user. */
  const Routes: seq<RouteRecord> := [
    RouteRecord("/", Login, RouteMeta(false, true)),
    RouteRecord("/chat", Chat, RouteMeta(true, false))
  ]

  /** What the guard tells the router: go on, or go to a named route instead. */
  datatype Decision = Proceed | Redirect(target: RouteName)

  /**
   * The beforeEach guard. A route that needs a user sends a visitor without one
   * to Login; a guest-only route sends a logged-in user to Chat; everything
   * else proceeds. The two redirect conditions exclude each other, so checking
   * requiresAuth first decides nothing.
   */
  function Guard(meta: RouteMeta, isAuthenticated: bool): (d: Decision)
    ensures d == Redirect(Login) <==> meta.requiresAuth && !isAuthenticated
    ensures d == Redirect(Chat) <==> meta.requiresGuest && isAuthenticated
    ensures d == Proceed <==> (!meta.requiresAuth || isAuthenticated) && (!meta.requiresGuest || !isAuthenticated)
  {
    if meta.requiresAuth && !isAuthenticated then Redirect(Login)
    else if meta.requiresGuest && isAuthenticated then Redirect(Chat)
    else Proceed
  }

  /** The declared route of a name (a redirect names its target). */
  function RouteNamed(n: RouteName): (r: RouteRecord)
    ensures r in Routes && r.name == n
  {
    match n
    case Login => Routes[0]
    case Chat => Routes[1]
  }

  /** The declared route of a path, if any. */
  function RouteAt(path: string): (r: Option<RouteRecord>)
    ensures r.Some? ==> r.value in Routes && r.value.path == path
    ensures r.None? ==> forall i :: 0 <= i < |Routes| ==> Routes[i].path != path
  {
    if path == "/" then Some(Routes[0])
    else if path == "/chat" then Some(Routes[1])
    else None
  }

  /**
   * Navigate to a route, following the guard's redirects for at most `hops`
   * further navigations; None when the redirects do not settle within them.
   */
  function Navigate(r: RouteRecord, isAuthenticated: bool, hops: nat): (d: Option<RouteName>)
    ensures Guard(r.meta, isAuthenticated) == Proceed ==> d == Some(r.name)
    ensures d.Some? && Guard(r.meta, isAuthenticated) != Proceed ==>
      Guard(RouteNamed(d.value).meta, isAuthenticated) == Proceed
    ensures hops == 0 ==> (d.Some? <==> Guard(r.meta, isAuthenticated) == Proceed)
    decreases hops
  {
    match Guard(r.meta, isAuthenticated)
    case Proceed => Some(r.name)
    case Redirect(n) => if hops == 0 then None else Navigate(RouteNamed(n), isAuthenticated, hops - 1)
  }

  /** No declared route redirects to itself. */
  lemma NoSelfRedirect(r: RouteRecord, isAuthenticated: bool)
    requires r in Routes
    ensures Guard(r.meta, isAuthenticated) != Redirect(r.name)
  {
  }

  /**
   * With the declared table, every navigation to a declared route settles
   * after at most one redirect, on Chat for a logged-in user and on Login otherwise.
   */
  lemma NavigationSettles(r: RouteRecord, isAuthenticated: bool)
    requires r in Routes
    ensures Navigate(r, isAuthenticated, 1) == Some(if isAuthenticated then Chat else Login)
  {
  }

  /**
   * The guard reads isAuthenticated from the store: after logout a visit to
   * '/chat' ends on Login, and after setCurrentUser a visit to '/' ends on Chat.
   */
  lemma StoreDecidesDestination(s: Store.StoreState, arg: Store.UserArg, now: nat)
    ensures Navigate(RouteAt("/chat").value, Store.Authenticated(Store.Initial), 1) == Some(Login)
    ensures Navigate(RouteAt("/").value,
                     Store.Authenticated(s.(currentUser := Some(Store.InstalledUser(arg, now)))), 1) == Some(Chat)
  {
  }
}
