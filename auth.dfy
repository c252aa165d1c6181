/**
 * The authentication status (src/context/AuthContext.jsx): the reducer that
 * the identity-service calls drive, and the `ProtectedRoute` decision.
 */
module Auth {
  import opened Wrappers

  /** The identity service's user object; only its identity is kept here. */
  datatype User = User(id: string, email: string)

  datatype AuthState = AuthState(isAuthenticated: bool, user: Option<User>, loading: bool, error: Option<string>)

  datatype AuthAction =
    | LoginStart
    | LoginSuccess(user: User)
    | LoginFailure(message: string)
    | Logout
    | RegisterStart
    | RegisterSuccess(user: User)
    | RegisterFailure(message: string)
    | ClearError
    | SetLoading(loading: bool)
    | Unrecognised(kind: string)

  /** Not authenticated, no user, loading while the session is looked up. */
  function Initial(): (s: AuthState)
    ensures !s.isAuthenticated && s.user == None && s.loading && s.error == None
  {
    AuthState(false, None, true, None)
  }

  /** A signed-out state never holds a user. */
  predicate NoUserWhenSignedOut(s: AuthState)
  {
    !s.isAuthenticated ==> s.user == None
  }

  /** `authReducer`. */
  function Reduce(s: AuthState, a: AuthAction): (r: AuthState)
    ensures NoUserWhenSignedOut(s) ==> NoUserWhenSignedOut(r)
    ensures r.isAuthenticated <==>
      (a.LoginSuccess? || a.RegisterSuccess?) ||
      (s.isAuthenticated && !(a.LoginFailure? || a.RegisterFailure? || a.Logout?))
    ensures r.error.Some? ==> a.LoginFailure? || a.RegisterFailure? || (s.error == r.error && !(a.LoginStart? || a.RegisterStart?))
  {
    match a
    case LoginStart => s.(loading := true, error := None)
    case RegisterStart => s.(loading := true, error := None)
    case LoginSuccess(u) => s.(isAuthenticated := true, user := Some(u), loading := false, error := None)
    case RegisterSuccess(u) => s.(isAuthenticated := true, user := Some(u), loading := false, error := None)
    case LoginFailure(m) => s.(isAuthenticated := false, user := None, loading := false, error := Some(m))
    case RegisterFailure(m) => s.(isAuthenticated := false, user := None, loading := false, error := Some(m))
    case Logout => s.(isAuthenticated := false, user := None, loading := false, error := None)
    case ClearError => s.(error := None)
    case SetLoading(b) => s.(loading := b)
    case Unrecognised(_) => s
  }

  lemma StartSetsLoading(s: AuthState)
    ensures Reduce(s, LoginStart) == AuthState(s.isAuthenticated, s.user, true, None)
    ensures Reduce(s, RegisterStart) == AuthState(s.isAuthenticated, s.user, true, None)
  {
  }

  lemma SuccessSignsIn(s: AuthState, u: User)
    ensures Reduce(s, LoginSuccess(u)) == AuthState(true, Some(u), false, None)
    ensures Reduce(s, RegisterSuccess(u)) == AuthState(true, Some(u), false, None)
  {
  }

  lemma FailureSignsOut(s: AuthState, m: string)
    ensures Reduce(s, LoginFailure(m)) == AuthState(false, None, false, Some(m))
    ensures Reduce(s, RegisterFailure(m)) == AuthState(false, None, false, Some(m))
  {
  }

  lemma LogoutSignsOut(s: AuthState)
    ensures Reduce(s, Logout) == AuthState(false, None, false, None)
  {
  }

  /** CLEAR_ERROR empties the error only, and a second one changes nothing. */
  lemma ClearErrorIsIdempotent(s: AuthState)
    ensures Reduce(s, ClearError) == s.(error := None)
    ensures Reduce(Reduce(s, ClearError), ClearError) == Reduce(s, ClearError)
  {
  }

  /** SET_LOADING changes only the loading flag; an unrecognised action changes nothing. */
  lemma SetLoadingIsLocal(s: AuthState, b: bool, kind: string)
    ensures Reduce(s, SetLoading(b)) == s.(loading := b)
    ensures Reduce(s, Unrecognised(kind)) == s
  {
  }

  /** A failed login leaves the user signed out with the message; clearing it keeps them signed out. */
  lemma FailedLoginThenClear(s: AuthState, m: string)
    ensures var f := Reduce(s, LoginFailure(m));
      && !f.isAuthenticated && f.error == Some(m)
      && Reduce(f, ClearError).error == None
      && Reduce(f, ClearError).isAuthenticated == f.isAuthenticated
      && Reduce(f, ClearError).user == f.user
  {
  }

  function Run(s: AuthState, actions: seq<AuthAction>): AuthState
    decreases |actions|
  {
    if actions == [] then s else Run(Reduce(s, actions[0]), actions[1..])
  }

  /** From the initial state, whatever the identity service reports, no signed-out state holds a user. */
  lemma {:induction false} RunKeepsNoUserWhenSignedOut(s: AuthState, actions: seq<AuthAction>)
    requires NoUserWhenSignedOut(s)
    ensures NoUserWhenSignedOut(Run(s, actions))
    decreases |actions|
  {
    if actions != [] {
      RunKeepsNoUserWhenSignedOut(Reduce(s, actions[0]), actions[1..]);
    }
  }

  lemma ReachableHasNoUserWhenSignedOut(actions: seq<AuthAction>)
    ensures NoUserWhenSignedOut(Run(Initial(), actions))
  {
    RunKeepsNoUserWhenSignedOut(Initial(), actions);
  }

  /** What `ProtectedRoute` renders. */
  datatype Screen = Spinner | Children | Nothing

  /** `ProtectedRoute`: the spinner while loading, else the children exactly when signed in. */
  function ProtectedRoute(s: AuthState): (v: Screen)
    ensures v == Spinner <==> s.loading
    ensures v == Children <==> !s.loading && s.isAuthenticated
    ensures v == Nothing <==> !s.loading && !s.isAuthenticated
  {
    if s.loading then Spinner
    else if s.isAuthenticated then Children
    else Nothing
  }

  /** After a logout the protected content is gone. */
  lemma LogoutHidesContent(s: AuthState)
    ensures ProtectedRoute(Reduce(s, Logout)) == Nothing
  {
  }
}
