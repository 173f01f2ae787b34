/**
 * The authentication session shared through the application's context: the
 * signed-in user and whether the first answer of the identity provider is
 * still awaited.  The provider's answers (the auth-change events, the
 * outcome of a sign-in or sign-out) are parameters.
 */
module AuthContext {
  import opened Wrappers

  /** A signed-in user, as far as this application looks at one. */
  datatype User = User(uid: string, email: string)

  /** The session as a value: `user` (`None` is null) and `loading`. */
  datatype AuthState = AuthState(user: Option<User>, loading: bool)

  const Initial := AuthState(None, true)

  /** What can reach the session: an auth-change event, or the answer to a sign-in or sign-out. */
  datatype AuthEvent =
    | AuthChanged(current: Option<User>)
    | LoginAnswered(answer: Result<User>)
    | LogoutAnswered(outcome: Outcome)

  /** `isAuthenticated: !!user`. */
  predicate IsAuthenticated(s: AuthState) {
    s.user.Some?
  }

  /** `{!loading && children}`: the provider shows the application only once loading is over. */
  predicate RendersChildren(s: AuthState) {
    !s.loading
  }

  /** The effect of one event on the session. */
  function Step(s: AuthState, e: AuthEvent): (r: AuthState)
    ensures e.AuthChanged? ==> r == AuthState(e.current, false)
    ensures e.LoginAnswered? ==> r.loading == s.loading
    ensures e.LoginAnswered? && e.answer.Ok? ==> r.user == Some(e.answer.value)
    ensures e.LogoutAnswered? ==> r.loading == s.loading
    ensures e.LogoutAnswered? && e.outcome.Succeeded? ==> r.user == None
    ensures (e.LoginAnswered? && e.answer.Err?) || (e.LogoutAnswered? && e.outcome.Failed?) ==> r == s
  {
    match e
    case AuthChanged(current) => AuthState(current, false)
    case LoginAnswered(answer) => if answer.Ok? then s.(user := Some(answer.value)) else s
    case LogoutAnswered(outcome) => if outcome.Succeeded? then s.(user := None) else s
  }

  /** The session after a run of events, oldest first. */
  function Replay(s: AuthState, events: seq<AuthEvent>): (r: AuthState)
    ensures events != [] && events[|events| - 1].AuthChanged? ==>
      r == AuthState(events[|events| - 1].current, false)
    decreases |events|
  {
    if events == [] then s else Replay(Step(s, events[0]), events[1..])
  }

  predicate HasAuthChange(events: seq<AuthEvent>) {
    exists i :: 0 <= i < |events| && events[i].AuthChanged?
  }

  /** Once loading is over it never starts again. */
  lemma {:induction false} LoadingStaysOver(s: AuthState, events: seq<AuthEvent>)
    requires !s.loading
    ensures !Replay(s, events).loading
    decreases |events|
  {
    if events != [] {
      LoadingStaysOver(Step(s, events[0]), events[1..]);
    }
  }

  /**
   * The application stays hidden exactly until the first auth-change event:
   * signing in or out before it does not end loading.
   */
  lemma {:induction false} LoadingUntilFirstAuthChange(events: seq<AuthEvent>)
    ensures Replay(Initial, events).loading <==> !HasAuthChange(events)
  {
    LoadingUntilAuthChangeFrom(Initial.user, events);
  }

  lemma {:induction false} LoadingUntilAuthChangeFrom(user: Option<User>, events: seq<AuthEvent>)
    ensures Replay(AuthState(user, true), events).loading <==> !HasAuthChange(events)
    decreases |events|
  {
    if events != [] {
      var s := AuthState(user, true);
      var next := Step(s, events[0]);
      if events[0].AuthChanged? {
        assert HasAuthChange(events) by { assert events[0].AuthChanged?; }
        LoadingStaysOver(next, events[1..]);
      } else {
        LoadingUntilAuthChangeFrom(next.user, events[1..]);
        if HasAuthChange(events) {
          var i :| 0 <= i < |events| && events[i].AuthChanged?;
          assert events[1..][i - 1].AuthChanged?;
        }
        if HasAuthChange(events[1..]) {
          var j :| 0 <= j < |events[1..]| && events[1..][j].AuthChanged?;
          assert events[j + 1].AuthChanged?;
        }
      }
    }
  }

  /** A successful sign-in authenticates the session with that user; a successful sign-out afterwards ends it. */
  lemma SignInThenOutLeavesNoUser(s: AuthState, u: User)
    ensures var signedIn := Step(s, LoginAnswered(Ok(u)));
      && IsAuthenticated(signedIn) && signedIn.user == Some(u)
      && !IsAuthenticated(Step(signedIn, LogoutAnswered(Succeeded)))
  {
  }

  /** The provider component's state, updated in place by its callbacks. */
  class AuthProvider {
    var user: Option<User>
    var loading: bool

    constructor()
      ensures State() == Initial
    {
      user := None;
      loading := true;
    }

    function State(): AuthState
      reads this
    {
      AuthState(user, loading)
    }

    /** The `onAuthChange` listener. */
    method OnAuthChange(currentUser: Option<User>)
      modifies this
      ensures State() == Step(old(State()), AuthChanged(currentUser))
      ensures user == currentUser && !loading
    {
      user := currentUser;
      loading := false;
    }

    /** `login`: on success the user is stored and returned; a failure is passed on and nothing changes. */
    method Login(answer: Result<User>) returns (r: Result<User>)
      modifies this`user
      ensures State() == Step(old(State()), LoginAnswered(answer))
      ensures r == answer
      ensures answer.Ok? ==> user == Some(answer.value)
      ensures answer.Err? ==> user == old(user)
    {
      if answer.Ok? {
        user := Some(answer.value);
      }
      r := answer;
    }

    /** `logout`: on success the user is cleared; a failure is passed on and nothing changes. */
    method Logout(outcome: Outcome) returns (r: Outcome)
      modifies this`user
      ensures State() == Step(old(State()), LogoutAnswered(outcome))
      ensures r == outcome
      ensures outcome.Succeeded? ==> user == None
      ensures outcome.Failed? ==> user == old(user)
    {
      if outcome.Succeeded? {
        user := None;
      }
      r := outcome;
    }
  }
}
