/** Which root screen the application shows for an authentication state. */
module AppNavigator {
  import opened AuthState

  /** The loading overlay, the sign-in screens, or the admin screens; there
      are no customer screens. */
  datatype RootScreen = Loading | AuthStack | AdminStack

  /** `AppNavigator`: loading first, then the sign-in screens unless the
      session is authenticated, then the admin screens for an admin, and the
      sign-in screens for any other role. */
  function SelectScreen(s: AuthState): (r: RootScreen)
    ensures r == Loading <==> s.isLoading
    ensures r == AdminStack <==> !s.isLoading && IsAuthenticated(s) && IsAdmin(s)
    ensures r == AuthStack <==> !s.isLoading && !(IsAuthenticated(s) && IsAdmin(s))
  {
    if s.isLoading then Loading
    else if !IsAuthenticated(s) then AuthStack
    else if IsAdmin(s) then AdminStack
    else if IsCustomer(s) then AuthStack
    else AuthStack
  }

  /** A signed-in customer is sent back to the sign-in screens. */
  lemma CustomerSeesSignIn(s: AuthState)
    requires !s.isLoading && IsCustomer(s)
    ensures SelectScreen(s) == AuthStack
  {
    RolesExclusive(s);
  }

  /** After a sign-out, whatever the state was, the admin screens are gone. */
  lemma SignOutLeavesAdmin(s: AuthState)
    ensures SelectScreen(Reduce(s, ClearUser)) != AdminStack
  {
    ClearUserForgets(s);
  }

  /** Once loading is over, an admin signed in with a non-empty token sees
      the admin screens, and with an empty token the sign-in screens. */
  lemma AdminSignInShowsAdmin(s: AuthState, u: User, t: string, ut: string)
    requires u.role == "admin"
    ensures var after := Reduce(Reduce(s, SetUser(u, t, ut)), SetLoading(false));
            SelectScreen(after) == (if t != "" then AdminStack else AuthStack)
  {
    var signedIn := Reduce(s, SetUser(u, t, ut));
    SetUserQueries(s, u, t, ut);
    assert Reduce(signedIn, SetLoading(false)) == signedIn.(isLoading := false);
  }
}
