/** The authentication provider: it owns the session state and runs the
    startup restore, the two sign-ins and the sign-out step by step against
    the shared client and its store. */
module Session {
  import opened Wrappers
  import opened JsText
  import opened Json
  import opened Jwt
  import opened Config
  import opened ProxyUrl
  import opened Storage
  import opened Api
  import opened AuthState
  import opened AuthFlow

  /** The store lookups `initializeAuth` makes, decided: an unavailable
      store throws at the first read, which ends like a missing session. */
  function StartupDecision(entries: map<string, string>, available: bool, parse: string -> Option<Json>): (d: Restore)
    ensures !available ==> d == NoSession
    ensures d.Resumed? ==> JwtStorageKey in entries && entries[JwtStorageKey] == d.token
                           && UserTypeKey in entries && entries[UserTypeKey] == d.userType
                           && d.user.role == d.userType
  {
    if !available then NoSession
    else
      RestoreDecision(if JwtStorageKey in entries then Some(entries[JwtStorageKey]) else None,
                      if UserTypeKey in entries then Some(entries[UserTypeKey]) else None,
                      parse)
  }

  /** The entries `clearStoredAuth` leaves: both keys gone when the store
      is available, nothing changed otherwise. */
  function ClearedEntries(entries: map<string, string>, available: bool): (r: map<string, string>)
    ensures JwtStorageKey !in r || !available
    ensures UserTypeKey !in r || !available
    ensures forall k :: k in r <==> k in entries && (!available || (k != JwtStorageKey && k != UserTypeKey))
    ensures forall k :: k in r ==> r[k] == entries[k]
  {
    if available then entries - {JwtStorageKey, UserTypeKey} else entries
  }

  /** The entries a sign-in that was accepted leaves: the token under the
      JWT key and the user type under its key. */
  function SignedInEntries(entries: map<string, string>, token: string, userType: string): map<string, string> {
    entries[JwtStorageKey := token][UserTypeKey := userType]
  }

  /** Clearing twice clears no more than once. */
  lemma ClearedEntriesIdempotent(entries: map<string, string>, available: bool)
    ensures ClearedEntries(ClearedEntries(entries, available), available) == ClearedEntries(entries, available)
  {
  }

  /** A session written by a sign-in and then cleared leaves only the
      entries that were there under the other keys. */
  lemma ClearAfterSignIn(entries: map<string, string>, token: string, userType: string)
    ensures ClearedEntries(SignedInEntries(entries, token, userType), true) == ClearedEntries(entries, true)
  {
    var a := ClearedEntries(SignedInEntries(entries, token, userType), true);
    var b := ClearedEntries(entries, true);
    assert a.Keys == b.Keys;
  }

  /** The entries an accepted sign-in writes do not depend on what the
      login call stored before: both keys are overwritten. */
  lemma SignedInAfterLogin(entries: map<string, string>, outcome: HttpOutcome, parse: string -> Option<Json>)
    ensures forall t, ut :: SignedInEntries(EntriesAfterLogin(entries, true, outcome, parse), t, ut)
                            == SignedInEntries(entries, t, ut)
  {
    forall t, ut
      ensures SignedInEntries(EntriesAfterLogin(entries, true, outcome, parse), t, ut) == SignedInEntries(entries, t, ut)
    {
      var a := SignedInEntries(EntriesAfterLogin(entries, true, outcome, parse), t, ut);
      assert a.Keys == SignedInEntries(entries, t, ut).Keys;
    }
  }

  class AuthProvider {
    var state: AuthState
    const api: ApiClient

    /** The provider mounts with the initial state; its effect installs the
        401 callback. */
    constructor(api: ApiClient)
      ensures state == InitialState && this.api == api
    {
      state := InitialState;
      this.api := api;
    }

    /** The effect that hands `signOut` to the client as its 401 callback. */
    method InstallUnauthorizedCallback()
      modifies api`hasUnauthorizedCallback
      ensures api.hasUnauthorizedCallback
    {
      api.SetUnauthorizedCallback();
    }

    /** `clearStoredAuth()`: drop the header and the JWT, then delete both
        keys; a failed delete is swallowed. */
    method ClearStoredAuth()
      modifies api`authorization, api.store`entries
      ensures api.authorization == None
      ensures api.store.entries == ClearedEntries(old(api.store.entries), api.store.available)
    {
      api.ClearToken();
      var deleted := api.store.DeleteItem(UserTypeKey);
      if deleted.Ok? {
        var _ := api.store.DeleteItem(JwtStorageKey);
      }
    }

    /** `signOut()`: never throws, and ends signed out with both keys gone
        whatever the state before, so a second call changes nothing. */
    method SignOut()
      modifies this`state, api`authorization, api.store`entries
      ensures state == SignedOut
      ensures api.authorization == None
      ensures api.store.entries == ClearedEntries(old(api.store.entries), api.store.available)
    {
      ClearStoredAuth();
      state := Reduce(state, ClearUser);
    }

    /** What the client's interceptor does with a rejected request: a 401
        with a callback installed signs out. */
    method HandleRejected(e: HttpError)
      modifies this`state, api`authorization, api.store`entries
      ensures api.FiresUnauthorized(e) ==>
                state == SignedOut && api.authorization == None
                && api.store.entries == ClearedEntries(old(api.store.entries), api.store.available)
      ensures !api.FiresUnauthorized(e) ==>
                state == old(state) && api.authorization == old(api.authorization)
                && api.store.entries == old(api.store.entries)
    {
      if api.FiresUnauthorized(e) {
        SignOut();
      }
    }

    /** `initializeAuth()`: read both keys; resume a session whose token's
        role is the stored user type, wipe one that is not, and end signed
        out when a key is missing or the store throws. */
    method InitializeAuth(parse: string -> Option<Json>)
      modifies this`state, api`authorization, api.store`entries
      ensures var d := StartupDecision(old(api.store.entries), api.store.available, parse);
              && (d.Resumed? ==>
                    state == Reduce(old(state), SetUser(d.user, d.token, d.userType))
                    && api.store.entries == old(api.store.entries)
                    && api.authorization == BearerHeader(Some(d.token)))
              && (d.InvalidSession? ==>
                    state == SignedOut && api.authorization == None
                    && api.store.entries == ClearedEntries(old(api.store.entries), api.store.available))
              && (d.NoSession? ==>
                    state == SignedOut && api.authorization == old(api.authorization)
                    && api.store.entries == old(api.store.entries))
    {
      state := Reduce(state, SetLoading(true));
      var token := api.store.GetItem(JwtStorageKey);
      if token.Err? {
        state := Reduce(state, ClearUser);
        return;
      }
      // the store answered the first read, so it answers the second
      var userType := api.store.GetItem(UserTypeKey);
      if userType.Ok? && token.value.Some? && token.value.value != "" && userType.value.Some? && userType.value.value != "" {
        RestoreSession(token.value.value, userType.value.value, parse);
      } else {
        state := Reduce(state, ClearUser);
      }
    }

    /** The rest of `initializeAuth` once both keys were read as non-empty
        strings: decode the token and resume the session when its role is
        the stored user type, or wipe both keys and sign out. */
    method RestoreSession(t: string, ut: string, parse: string -> Option<Json>)
      requires t != "" && ut != ""
      requires api.store.available && JwtStorageKey in api.store.entries && api.store.entries[JwtStorageKey] == t
      modifies this`state, api`authorization, api.store`entries
      ensures var d := RestoreDecision(Some(t), Some(ut), parse);
              && (d.Resumed? ==>
                    state == Reduce(old(state), SetUser(d.user, t, ut))
                    && api.store.entries == old(api.store.entries)
                    && api.authorization == BearerHeader(Some(t)))
              && (d.InvalidSession? ==>
                    state == SignedOut && api.authorization == None
                    && api.store.entries == ClearedEntries(old(api.store.entries), true))
              && !d.NoSession?
    {
      var payload := DecodeJwtPayload(t, parse);
      if payload.Some? && HasRole(payload.value, ut) {
        var user := RestoredUser(payload.value, ut);
        api.SetToken(JStr(t));
        assert api.store.entries == old(api.store.entries);
        state := Reduce(state, SetUser(user, t, ut));
      } else {
        ClearStoredAuth();
        state := Reduce(state, ClearUser);
      }
    }

    /** The precedence chain of `signInAdmin`, reassigning its `token`. */
    static method SettleAdminToken(response: Json, parse: string -> Option<Json>) returns (token: Option<Json>)
      ensures token == AdminTokenCandidate(response, parse)
    {
      token := None;
      var message := Get(response, "message");
      var upstream := Get(response, "upstreamBody");
      if TruthyOpt(Get(response, "token")) {
        token := Get(response, "token");
      } else if message.Some? && message.value.JStr? {
        token := ParsedToken(message.value.s, parse);
      } else if upstream.Some? && upstream.value.JStr? {
        token := ParsedToken(upstream.value.s, parse);
      }
      assert token == WrappedToken(response, parse);
      // the stored-token step reads a getter the client does not have
      var data := Get(response, "data");
      if !TruthyOpt(token) && data.Some? && Truthy(data.value) && TypeofObject(data.value) {
        var maybe := Get(data.value, "token");
        if maybe.Some? && maybe.value.JStr? {
          token := maybe;
        }
      }
    }

    /** The end of an accepted admin sign-in: install the token, write both
        keys (a failed write is swallowed and skips the second one), set the
        user. */
    method StoreAdminSession(user: User, t: string)
      modifies this`state, api`authorization, api.store`entries
      ensures state == Reduce(old(state), SetUser(user, t, "admin"))
      ensures api.store.available ==>
                api.store.entries == SignedInEntries(old(api.store.entries), t, "admin")
                && api.authorization == BearerHeader(Some(t))
      ensures !api.store.available ==>
                api.store.entries == old(api.store.entries) && api.authorization == old(api.authorization)
    {
      api.SetToken(JStr(t));
      var written := api.store.SetItem(JwtStorageKey, JStr(t));
      if written.Ok? {
        var _ := api.store.SetItem(UserTypeKey, JStr("admin"));
      }
      state := Reduce(state, SetUser(user, t, "admin"));
    }

    /** The end of an accepted customer sign-in: install the token, then
        write both keys, where a failed write resets the loading flag and
        fails the sign-in. */
    method StoreCustomerSession(user: User, t: string) returns (r: Result<(), Thrown>)
      modifies this`state, api`authorization, api.store`entries
      ensures r.Ok? <==> api.store.available
      ensures r.Err? ==> r.error == StoreFailure(Unavailable)
      ensures api.store.available ==>
                state == Reduce(old(state), SetUser(user, t, "customer"))
                && api.store.entries == SignedInEntries(old(api.store.entries), t, "customer")
                && api.authorization == BearerHeader(Some(t))
      ensures !api.store.available ==>
                state == old(state).(isLoading := false)
                && api.store.entries == old(api.store.entries) && api.authorization == old(api.authorization)
    {
      api.SetToken(JStr(t));
      var written := api.store.SetItem(JwtStorageKey, JStr(t));
      if written.Err? {
        state := Reduce(state, SetLoading(false));
        return Err(StoreFailure(written.error));
      }
      // the store took the first write, so it takes the second
      written := api.store.SetItem(UserTypeKey, JStr("customer"));
      state := Reduce(state, SetUser(user, t, "customer"));
      return Ok(());
    }

    /** What `signInAdmin` does once the login call has replied: settle on a
        token, check that it is a three-part JWT whose payload says
        `role: "admin"`, then store it and set the user. On any failure only
        the loading flag is reset (after the 401 callback's sign-out, when
        it fires) and the error is passed on. */
    method AdminAttempt(reply: LoginReply, email: string, parse: string -> Option<Json>)
      returns (r: Result<(), Thrown>)
      modifies this`state, api`authorization, api.store`entries
      ensures var d := AdminSignIn(reply, email, parse);
              var avail := api.store.available;
              && (r.Ok? <==> d.Ok?)
              && (d.Err? ==> r == Err(d.error))
              && (d.Ok? ==>
                    state == Reduce(old(state), SetUser(d.value.user, d.value.token, "admin"))
                    && api.store.entries == (if avail then SignedInEntries(old(api.store.entries), d.value.token, "admin")
                                             else old(api.store.entries))
                    && api.authorization == (if avail then BearerHeader(Some(d.value.token)) else old(api.authorization)))
              && (d.Err? && !(reply.Rejected? && api.FiresUnauthorized(reply.error)) ==>
                    state == old(state).(isLoading := false)
                    && api.store.entries == old(api.store.entries) && api.authorization == old(api.authorization))
              && (reply.Rejected? && api.FiresUnauthorized(reply.error) ==>
                    state == SignedOut && api.authorization == None
                    && api.store.entries == ClearedEntries(old(api.store.entries), avail))
    {
      if reply.Rejected? {
        HandleRejected(reply.error);
        state := Reduce(state, SetLoading(false));
        return Err(HttpFailure(reply.error));
      }
      if reply.BadProxyResponse? {
        state := Reduce(state, SetLoading(false));
        return Err(Failure(BadProxyMessage));
      }
      var token := SettleAdminToken(reply.value, parse);
      if !TruthyOpt(token) {
        state := Reduce(state, SetLoading(false));
        return Err(Failure(AdminTokenMissing));
      }
      var shape := AdminTokenShape(token.value);
      if shape.Err? {
        state := Reduce(state, SetLoading(false));
        return Err(shape.error);
      }
      var t := shape.value;
      var payload := DecodeJwtPayload(t, parse);
      if !(payload.Some? && HasRole(payload.value, "admin")) {
        state := Reduce(state, SetLoading(false));
        return Err(Failure(AdminTokenInvalid));
      }
      StoreAdminSession(AdminUser(payload.value, email), t);
      return Ok(());
    }

    /** `signInAdmin(email, password)`: set the loading flag, log in through
        the client (which stores any token it finds), then decide. */
    method SignInAdmin(email: string, password: string, post: Transport, parse: string -> Option<Json>)
      returns (r: Result<(), Thrown>)
      modifies this`state, api`authorization, api.store`entries
      ensures var outcome := post(BuildProxyUrl(Some(api.adminLoginPath)), AdminPayload(email, password));
              var reply := LoginResult(outcome, parse);
              var d := AdminSignIn(reply, email, parse);
              var avail := api.store.available;
              && (r.Ok? <==> d.Ok?)
              && (d.Err? ==> r == Err(d.error))
              && (d.Ok? ==>
                    state == Reduce(old(state), SetUser(d.value.user, d.value.token, "admin"))
                    && api.store.entries == (if avail then SignedInEntries(old(api.store.entries), d.value.token, "admin")
                                             else old(api.store.entries))
                    && api.authorization == (if avail then BearerHeader(Some(d.value.token)) else old(api.authorization)))
              && (d.Err? && !(reply.Rejected? && api.FiresUnauthorized(reply.error)) ==>
                    state == old(state).(isLoading := false)
                    && api.store.entries == EntriesAfterLogin(old(api.store.entries), avail, outcome, parse)
                    && api.authorization == HeaderAfterLogin(old(api.authorization), avail, outcome, parse))
              && (reply.Rejected? && api.FiresUnauthorized(reply.error) ==>
                    state == SignedOut && api.authorization == None
                    && api.store.entries == ClearedEntries(old(api.store.entries), avail))
    {
      state := Reduce(state, SetLoading(true));
      var reply := api.Login(api.adminLoginPath, AdminPayload(email, password), post, parse);
      ghost var outcome := post(BuildProxyUrl(Some(api.adminLoginPath)), AdminPayload(email, password));
      LoginFailureStoresNothing(outcome, parse);
      SignedInAfterLogin(old(api.store.entries), outcome, parse);
      r := AdminAttempt(reply, email, parse);
    }

    /** What `signInCustomer` does once the login call has replied: as the
        admin sign-in with the customer's token rules, except that a failed
        store write is not caught and fails the sign-in after the header was
        set. */
    method CustomerAttempt(reply: LoginReply, name: string, email: Option<string>, phone: Option<string>,
                           parse: string -> Option<Json>)
      returns (r: Result<(), Thrown>)
      modifies this`state, api`authorization, api.store`entries
      ensures var d := CustomerSignIn(reply, name, email, phone, parse);
              var avail := api.store.available;
              && (r.Ok? <==> d.Ok? && avail)
              && (d.Err? ==> r == Err(d.error))
              && (d.Ok? && !avail ==> r == Err(StoreFailure(Unavailable)))
              && (d.Ok? && avail ==>
                    state == Reduce(old(state), SetUser(d.value.user, d.value.token, "customer"))
                    && api.store.entries == SignedInEntries(old(api.store.entries), d.value.token, "customer")
                    && api.authorization == BearerHeader(Some(d.value.token)))
              && (!(d.Ok? && avail) && !(reply.Rejected? && api.FiresUnauthorized(reply.error)) ==>
                    state == old(state).(isLoading := false)
                    && api.store.entries == old(api.store.entries) && api.authorization == old(api.authorization))
              && (reply.Rejected? && api.FiresUnauthorized(reply.error) ==>
                    state == SignedOut && api.authorization == None
                    && api.store.entries == ClearedEntries(old(api.store.entries), avail))
    {
      if reply.Rejected? {
        HandleRejected(reply.error);
        state := Reduce(state, SetLoading(false));
        return Err(HttpFailure(reply.error));
      }
      if reply.BadProxyResponse? {
        state := Reduce(state, SetLoading(false));
        return Err(Failure(BadProxyMessage));
      }
      var candidate := CustomerTokenCandidate(reply.value);
      if candidate.Err? {
        state := Reduce(state, SetLoading(false));
        return Err(candidate.error);
      }
      var token := candidate.value;
      if !TruthyOpt(token) {
        state := Reduce(state, SetLoading(false));
        return Err(Failure(CustomerTokenInvalid));
      }
      var payload: Option<Json> := None;
      if token.value.JStr? {
        payload := DecodeJwtPayload(token.value.s, parse);
      }
      if !(payload.Some? && HasRole(payload.value, "customer")) {
        state := Reduce(state, SetLoading(false));
        return Err(Failure(CustomerTokenInvalid));
      }
      r := StoreCustomerSession(CustomerUser(payload.value, name, email, phone), token.value.s);
    }

    /** `signInCustomer(name, email?, phone?)`. */
    method SignInCustomer(name: string, email: Option<string>, phone: Option<string>,
                          post: Transport, parse: string -> Option<Json>)
      returns (r: Result<(), Thrown>)
      modifies this`state, api`authorization, api.store`entries
      ensures var outcome := post(BuildProxyUrl(Some(api.customerLoginPath)), CustomerPayload(name, email, phone));
              var reply := LoginResult(outcome, parse);
              var d := CustomerSignIn(reply, name, email, phone, parse);
              var avail := api.store.available;
              && (r.Ok? <==> d.Ok? && avail)
              && (d.Err? ==> r == Err(d.error))
              && (d.Ok? && !avail ==> r == Err(StoreFailure(Unavailable)))
              && (d.Ok? && avail ==>
                    state == Reduce(old(state), SetUser(d.value.user, d.value.token, "customer"))
                    && api.store.entries == SignedInEntries(old(api.store.entries), d.value.token, "customer")
                    && api.authorization == BearerHeader(Some(d.value.token)))
              && (!(d.Ok? && avail) && !(reply.Rejected? && api.FiresUnauthorized(reply.error)) ==>
                    state == old(state).(isLoading := false)
                    && api.store.entries == EntriesAfterLogin(old(api.store.entries), avail, outcome, parse)
                    && api.authorization == HeaderAfterLogin(old(api.authorization), avail, outcome, parse))
              && (reply.Rejected? && api.FiresUnauthorized(reply.error) ==>
                    state == SignedOut && api.authorization == None
                    && api.store.entries == ClearedEntries(old(api.store.entries), avail))
    {
      state := Reduce(state, SetLoading(true));
      var reply := api.Login(api.customerLoginPath, CustomerPayload(name, email, phone), post, parse);
      ghost var outcome := post(BuildProxyUrl(Some(api.customerLoginPath)), CustomerPayload(name, email, phone));
      LoginFailureStoresNothing(outcome, parse);
      SignedInAfterLogin(old(api.store.entries), outcome, parse);
      r := CustomerAttempt(reply, name, email, phone, parse);
    }
  }
}
