/**
 * The guard in front of the pages that need a signed-in user.  It reads
 * the session from the authentication context and picks one of three
 * views.
 */
module ProtectedRoute {
  import opened Wrappers
  import opened AuthContext

  /** Where the router currently is; only its path matters here. */
  datatype Location = Location(pathname: string)

  /** The three things the guard can render. */
  datatype RouteView =
    | LoadingView
    | Redirect(to: string, replace: bool, from: Location)
    | RenderChildren

  const LoginPath := "/login"

  /** Which view the guard renders for the session and the current location. */
  function Decide(loading: bool, isAuthenticated: bool, location: Location): (r: RouteView)
    ensures loading <==> r.LoadingView?
    ensures !loading && !isAuthenticated <==> r.Redirect?
    ensures !loading && isAuthenticated <==> r.RenderChildren?
    ensures r.Redirect? ==> r == Redirect(LoginPath, true, location)
  {
    if loading then LoadingView
    else if !isAuthenticated then Redirect(LoginPath, true, location)
    else RenderChildren
  }

  /** The guard applied to a session. */
  function Guard(s: AuthState, location: Location): (r: RouteView)
    ensures r.LoadingView? <==> s.loading
    ensures r.RenderChildren? <==> !s.loading && s.user.Some?
    ensures r.Redirect? <==> !s.loading && s.user.None?
    ensures r.Redirect? ==> r.to == LoginPath && r.replace && r.from == location
  {
    Decide(s.loading, IsAuthenticated(s), location)
  }

  /** While loading, the loading view is shown whether or not someone is signed in. */
  lemma LoadingIgnoresUser(u1: Option<User>, u2: Option<User>, location: Location)
    ensures Guard(AuthState(u1, true), location) == Guard(AuthState(u2, true), location) == LoadingView
  {
  }

  /**
   * The provider renders its children only once loading is over, so a guard
   * placed inside it never shows its own loading view: it either redirects
   * or renders the page.
   */
  lemma LoadingViewUnreachableInsideProvider(s: AuthState, location: Location)
    requires RendersChildren(s)
    ensures Guard(s, location) != LoadingView
    ensures Guard(s, location).RenderChildren? <==> s.user.Some?
  {
  }

  /** From the start, a page behind the guard is shown exactly when the events so far include an auth change and the session holds a user. */
  lemma PageShownAfterEvents(events: seq<AuthEvent>, location: Location)
    ensures Guard(Replay(Initial, events), location).RenderChildren? <==>
      HasAuthChange(events) && Replay(Initial, events).user.Some?
  {
    LoadingUntilFirstAuthChange(events);
  }
}
