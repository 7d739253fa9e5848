/** The session state of the authentication hook, its reducer and the three
    queries the screens ask of it. */
module AuthState {
  import opened Wrappers
  import opened Json

  /** A signed-in user. The id, name, email and phone are whatever the token
      payload or the sign-in form supplied, so they are kept as JSON values;
      an absent email or phone is None. */
  datatype User = User(id: Json, name: Json, email: Option<Json>, phone: Option<Json>, role: string)

  /** `{user, token, userType, isLoading}`; null is None. */
  datatype AuthState = AuthState(user: Option<User>, token: Option<string>, userType: Option<string>, isLoading: bool)

  datatype AuthAction =
    | SetLoading(loading: bool)
    | SetUser(newUser: User, newToken: string, newUserType: string)
    | SetToken(tokenValue: string)
    | ClearUser

  /** The state before the stored session has been looked at. */
  const InitialState := AuthState(None, None, None, true)

  /** The state after CLEAR_USER. */
  const SignedOut := AuthState(None, None, None, false)

  /** `authReducer(state, action)`. */
  function Reduce(s: AuthState, a: AuthAction): (r: AuthState)
    ensures a.SetLoading? ==>
              r.user == s.user && r.token == s.token && r.userType == s.userType && r.isLoading == a.loading
    ensures a.SetToken? ==>
              r.user == s.user && r.token == Some(a.tokenValue) && r.userType == s.userType && r.isLoading == s.isLoading
    ensures a.SetUser? ==>
              r.user == Some(a.newUser) && r.token == Some(a.newToken) && r.userType == Some(a.newUserType) && !r.isLoading
    ensures a.ClearUser? ==> r.user.None? && r.token.None? && r.userType.None? && !r.isLoading
  {
    match a
    case SetLoading(b) => s.(isLoading := b)
    case SetUser(u, t, ut) => s.(user := Some(u), token := Some(t), userType := Some(ut), isLoading := false)
    case SetToken(t) => s.(token := Some(t))
    case ClearUser => SignedOut
  }

  /** `isAuthenticated()`: a user and a non-empty token. */
  predicate IsAuthenticated(s: AuthState)
    ensures IsAuthenticated(s) ==> s.user.Some? && s.token.Some? && |s.token.value| > 0
  {
    s.user.Some? && s.token.Some? && s.token.value != ""
  }

  /** `isAdmin()`. */
  predicate IsAdmin(s: AuthState)
    ensures IsAdmin(s) ==> !IsCustomer(s)
  {
    s.user.Some? && s.user.value.role == "admin"
  }

  /** `isCustomer()`. */
  predicate IsCustomer(s: AuthState)
    ensures IsCustomer(s) ==> s.user.Some? && s.user.value.role != "admin"
  {
    s.user.Some? && s.user.value.role == "customer"
  }

  /** The initial state is loading and holds no session. */
  lemma InitialStateLoading()
    ensures InitialState.isLoading && !IsAuthenticated(InitialState)
    ensures !IsAdmin(InitialState) && !IsCustomer(InitialState)
  {
  }

  /** CLEAR_USER forgets everything, whatever came before, so applying it
      twice is applying it once; afterwards no query holds. */
  lemma ClearUserForgets(s: AuthState)
    ensures Reduce(s, ClearUser) == SignedOut
    ensures Reduce(Reduce(s, ClearUser), ClearUser) == Reduce(s, ClearUser)
    ensures !IsAuthenticated(Reduce(s, ClearUser))
    ensures !IsAdmin(Reduce(s, ClearUser)) && !IsCustomer(Reduce(s, ClearUser))
  {
  }

  /** The sign-out the 401 callback starts and the `SET_LOADING false` of a
      failed sign-in end in the same state in either order. */
  lemma ClearUserCommutesWithLoadingOff(s: AuthState)
    ensures Reduce(Reduce(s, ClearUser), SetLoading(false)) == Reduce(Reduce(s, SetLoading(false)), ClearUser)
  {
  }

  /** After SET_USER the session is authenticated exactly when the token is
      non-empty, and its role decides `isAdmin` and `isCustomer`. */
  lemma SetUserQueries(s: AuthState, u: User, t: string, ut: string)
    ensures IsAuthenticated(Reduce(s, SetUser(u, t, ut))) <==> t != ""
    ensures IsAdmin(Reduce(s, SetUser(u, t, ut))) <==> u.role == "admin"
    ensures IsCustomer(Reduce(s, SetUser(u, t, ut))) <==> u.role == "customer"
  {
  }

  /** No state is both an admin and a customer session. */
  lemma RolesExclusive(s: AuthState)
    ensures !(IsAdmin(s) && IsCustomer(s))
  {
  }
}
