/** The HTTP client service: the shared client's Authorization header and
    401 callback, the reading of the proxy's response envelope, the recursive
    token search and the two login calls. The transport is a function from
    the request (URL and JSON body) to what came back. */
module Api {
  import opened Wrappers
  import opened Json
  import opened Config
  import opened ProxyUrl
  import opened Storage

  /** A response the client received: HTTP status and body. */
  datatype HttpResponse = HttpResponse(status: int, data: Json)

  /** A rejected request as the client reports it: the response when the
      server answered, the error code and the message. */
  datatype HttpError = HttpError(response: Option<HttpResponse>, code: Option<string>, message: string)

  /** What one request gave back. */
  datatype HttpOutcome = Received(data: Json) | Failed(error: HttpError)

  /** The POST transport: URL and JSON body to outcome. */
  type Transport = (string, Json) -> HttpOutcome

  // ---------------------------------------------------------------------
  // the proxy envelope
  // ---------------------------------------------------------------------

  datatype ProxyResult = ProxyResult(ok: bool, parsed: Json)

  /** `{raw: text}`: a body that is not JSON. */
  function RawBody(text: string): Json {
    JObj([Field("raw", JStr(text))])
  }

  /** `parseProxyResponse(data)`: a direct truthy `token` keeps the data; a
      string `upstreamBody` is parsed (or wrapped as `raw`); a truthy object
      `upstreamBody` is unwrapped; anything else is kept. */
  function ParseProxyResponse(data: Json, parse: string -> Option<Json>): (r: ProxyResult)
    ensures r.ok <==> !data.JNull?
    ensures !r.ok ==> r.parsed == JNull
    ensures TruthyOpt(Get(data, "token")) ==> r == ProxyResult(true, data)
    ensures r.parsed != data ==> Get(data, "upstreamBody").Some?
    ensures !data.JNull? && !TruthyOpt(Get(data, "token")) && Get(data, "upstreamBody").Some? ==>
              var u := Get(data, "upstreamBody").value;
              && (u.JStr? ==> r.parsed == (if parse(u.s).Some? then parse(u.s).value else RawBody(u.s)))
              && (Truthy(u) && TypeofObject(u) ==> r.parsed == u)
              && (!u.JStr? && !(Truthy(u) && TypeofObject(u)) ==> r.parsed == data)
  {
    if data.JNull? then ProxyResult(false, JNull)
    else if TruthyOpt(Get(data, "token")) then ProxyResult(true, data)
    else
      match Get(data, "upstreamBody")
      case Some(JStr(u)) =>
        ProxyResult(true, match parse(u) case Some(p) => p case None => RawBody(u))
      case Some(u) =>
        if Truthy(u) && TypeofObject(u) then ProxyResult(true, u) else ProxyResult(true, data)
      case None => ProxyResult(true, data)
  }

  // ---------------------------------------------------------------------
  // findToken
  // ---------------------------------------------------------------------

  /** The token a node carries itself: the `token` property of an object,
      when it is a non-empty string. */
  function OwnToken(v: Json): (r: Option<string>)
    ensures r.Some? ==> r.value != ""
  {
    match Get(v, "token")
    case Some(JStr(s)) => if s != "" then Some(s) else None
    case _ => None
  }

  predicate HasOwnToken(v: Json) {
    OwnToken(v).Some?
  }

  /** The node carries `t` itself. */
  function CarriesToken(t: string): Json -> bool {
    v => OwnToken(v) == Some(t)
  }

  /** `findToken(obj)`: None for anything but an array or object; the node's
      own token first; then its children in key order, the first hit
      winning. */
  function FindToken(v: Json): (r: Option<string>)
    ensures r.Some? ==> r.value != ""
    ensures OwnToken(v).Some? ==> r == OwnToken(v)
    ensures !(v.JArr? || v.JObj?) ==> r.None?
    decreases v, 1
  {
    if !(v.JArr? || v.JObj?) then None
    else if OwnToken(v).Some? then OwnToken(v)
    else FindTokenFrom(v, 0)
  }

  /** The first token found under the children of `v` from the `i`-th on. */
  function FindTokenFrom(v: Json, i: nat): (r: Option<string>)
    requires i <= Count(v)
    ensures r.Some? ==> r.value != ""
    decreases v, 0, Count(v) - i
  {
    if i == Count(v) then None
    else
      var found :=
        if v.JArr? then FindToken(v.elems[i])
        else
          assert v.fields[i] in v.fields;
          FindToken(v.fields[i].value);
      if found.Some? then found else FindTokenFrom(v, i + 1)
  }

  /** A token is found exactly when some array or object node under `v`
      carries one of its own. */
  lemma {:induction false} FindTokenComplete(v: Json)
    ensures FindToken(v).Some? <==> SomeNode(v, HasOwnToken)
    decreases v, 1
  {
    if (v.JArr? || v.JObj?) && OwnToken(v).None? {
      FindTokenFromComplete(v, 0);
      assert FindToken(v) == FindTokenFrom(v, 0);
      var p := HasOwnToken;
      assert !p(v);
      assert SomeNode(v, p) <==> exists j :: 0 <= j < Count(v) && SomeNodeChild(v, j, p);
    } else if v.JArr? || v.JObj? {
      assert HasOwnToken(v);
    } else {
      assert OwnToken(v).None? && Count(v) == 0;
      assert SomeNode(v, HasOwnToken) == HasOwnToken(v);
    }
  }

  lemma {:induction false} FindTokenFromComplete(v: Json, i: nat)
    requires i <= Count(v)
    ensures FindTokenFrom(v, i).Some? ==>
            exists j :: i <= j < Count(v) && SomeNodeChild(v, j, HasOwnToken)
    ensures (exists j :: i <= j < Count(v) && SomeNodeChild(v, j, HasOwnToken)) ==>
            FindTokenFrom(v, i).Some?
    decreases v, 0, Count(v) - i
  {
    if i < Count(v) {
      var found: Option<string>;
      if v.JArr? {
        FindTokenComplete(v.elems[i]);
        found := FindToken(v.elems[i]);
      } else {
        assert v.fields[i] in v.fields;
        FindTokenComplete(v.fields[i].value);
        found := FindToken(v.fields[i].value);
      }
      assert found.Some? <==> SomeNodeChild(v, i, HasOwnToken);
      FindTokenFromComplete(v, i + 1);
      if found.None? {
        assert FindTokenFrom(v, i) == FindTokenFrom(v, i + 1);
        if FindTokenFrom(v, i).None? {
          forall j | i <= j < Count(v)
            ensures !SomeNodeChild(v, j, HasOwnToken)
          {
          }
        } else {
          var j :| i + 1 <= j < Count(v) && SomeNodeChild(v, j, HasOwnToken);
        }
      }
    }
  }

  /** The token found is one that some node under `v` carries. */
  lemma {:induction false} FindTokenSound(v: Json)
    ensures FindToken(v).Some? ==> SomeNode(v, CarriesToken(FindToken(v).value))
    decreases v, 1
  {
    if (v.JArr? || v.JObj?) && OwnToken(v).None? {
      FindTokenFromSound(v, 0);
      if FindToken(v).Some? {
        var j :| 0 <= j < Count(v) && SomeNodeChild(v, j, CarriesToken(FindToken(v).value));
      }
    }
  }

  lemma {:induction false} FindTokenFromSound(v: Json, i: nat)
    requires i <= Count(v)
    ensures FindTokenFrom(v, i).Some? ==>
            exists j :: i <= j < Count(v) && SomeNodeChild(v, j, CarriesToken(FindTokenFrom(v, i).value))
    decreases v, 0, Count(v) - i
  {
    if i < Count(v) {
      var found;
      if v.JArr? {
        found := FindToken(v.elems[i]);
        FindTokenSound(v.elems[i]);
      } else {
        assert v.fields[i] in v.fields;
        found := FindToken(v.fields[i].value);
        FindTokenSound(v.fields[i].value);
      }
      if found.Some? {
        assert SomeNodeChild(v, i, CarriesToken(found.value));
      } else {
        FindTokenFromSound(v, i + 1);
      }
    }
  }

  /** Children are searched in key order: when child `j` is the first from
      the `i`-th on under which some node carries a token, the search from
      `i` gives what the search of child `j` gives. (When no such child
      exists the search gives None, by `FindTokenFromComplete`.) */
  lemma {:induction false} FindTokenFromFirstHit(v: Json, i: nat, j: nat)
    requires i <= j < Count(v)
    requires SomeNodeChild(v, j, HasOwnToken)
    requires forall k :: i <= k < j ==> !SomeNodeChild(v, k, HasOwnToken)
    ensures FindTokenFrom(v, i) == FindToken(Child(v, j))
    ensures FindTokenFrom(v, i).Some?
    decreases j - i
  {
    assert v.JObj? ==> v.fields[i] in v.fields;
    FindTokenComplete(Child(v, i));
    assert FindToken(Child(v, i)).Some? <==> SomeNodeChild(v, i, HasOwnToken);
    if i < j {
      FindTokenFromFirstHit(v, i + 1, j);
    }
  }

  /** A token two objects deep is found. */
  lemma FindTokenNested()
    ensures FindToken(JObj([Field("a", JObj([Field("b", JObj([Field("token", JStr("z"))]))]))])) == Some("z")
  {
    var inner := JObj([Field("token", JStr("z"))]);
    var mid := JObj([Field("b", inner)]);
    var outer := JObj([Field("a", mid)]);
    assert OwnToken(inner) == Some("z");
    assert |"b"| != |"token"| && |"a"| != |"token"|;
    LookupAbsent(mid.fields, "token");
    LookupAbsent(outer.fields, "token");
    assert FindTokenFrom(mid, 1).None?;
    assert FindTokenFrom(outer, 1).None?;
  }

  // ---------------------------------------------------------------------
  // the login calls
  // ---------------------------------------------------------------------

  /** What `adminLogin`/`customerLogin` give their caller: the request was
      rejected (after the interceptor saw it), the proxy answer was empty
      ("Bad response from proxy"), or a value was returned. */
  datatype LoginReply = Rejected(error: HttpError) | BadProxyResponse | Returned(value: Json)

  /** `{token: t}`. */
  function TokenObject(t: string): Json {
    JObj([Field("token", JStr(t))])
  }

  /** The body of the admin login request. */
  function AdminPayload(email: string, password: string): Json {
    JObj([Field("email", JStr(email)), Field("password", JStr(password))])
  }

  /** The body of the customer login request; an absent email or phone is
      left out of the JSON text. */
  function CustomerPayload(name: string, email: Option<string>, phone: Option<string>): Json {
    JObj([Field("name", JStr(name))]
         + (if email.Some? then [Field("email", JStr(email.value))] else [])
         + (if phone.Some? then [Field("phone", JStr(phone.value))] else []))
  }

  /** The reply of a login call whose request came back as `outcome`. */
  function LoginResult(outcome: HttpOutcome, parse: string -> Option<Json>): (r: LoginReply)
    ensures r.Rejected? <==> outcome.Failed?
    ensures outcome.Failed? ==> r == Rejected(outcome.error)
    ensures r.BadProxyResponse? <==> outcome.Received? && outcome.data.JNull?
    ensures r.Returned? && FindToken(ParseProxyResponse(outcome.data, parse).parsed).Some? ==>
              TruthyOpt(Get(r.value, "token"))
    ensures outcome.Received? && !outcome.data.JNull? ==>
              var p := ParseProxyResponse(outcome.data, parse).parsed;
              && (TruthyOpt(Get(p, "token")) ==> r == Returned(p))
              && (!TruthyOpt(Get(p, "token")) && FindToken(p).Some? ==> r == Returned(TokenObject(FindToken(p).value)))
              && (!TruthyOpt(Get(p, "token")) && FindToken(p).None? ==> r == Returned(p))
  {
    match outcome
    case Failed(e) => Rejected(e)
    case Received(data) =>
      var pr := ParseProxyResponse(data, parse);
      if !pr.ok then BadProxyResponse
      else if TruthyOpt(Get(pr.parsed, "token")) then Returned(pr.parsed)
      else
        match FindToken(pr.parsed)
        case Some(t) => Returned(TokenObject(t))
        case None => Returned(pr.parsed)
  }

  /** The value a login call hands to `setToken`, if any. */
  function LoginToken(outcome: HttpOutcome, parse: string -> Option<Json>): (r: Option<Json>)
    ensures r.Some? ==> Truthy(r.value) && outcome.Received? && !outcome.data.JNull?
    ensures outcome.Received? && !outcome.data.JNull? && FindToken(ParseProxyResponse(outcome.data, parse).parsed).Some? ==> r.Some?
    ensures outcome.Received? && !outcome.data.JNull? ==>
              var p := ParseProxyResponse(outcome.data, parse).parsed;
              && (TruthyOpt(Get(p, "token")) ==> r == Get(p, "token"))
              && (!TruthyOpt(Get(p, "token")) && FindToken(p).Some? ==> r == Some(JStr(FindToken(p).value)))
              && (!TruthyOpt(Get(p, "token")) && FindToken(p).None? ==> r.None?)
  {
    match outcome
    case Failed(_) => None
    case Received(data) =>
      var pr := ParseProxyResponse(data, parse);
      if !pr.ok then None
      else if TruthyOpt(Get(pr.parsed, "token")) then Get(pr.parsed, "token")
      else
        match FindToken(pr.parsed)
        case Some(t) => Some(JStr(t))
        case None => None
  }

  /** A token is stored exactly when the returned value carries a truthy
      `token`, and it is that very value. */
  lemma LoginStoresReturnedToken(outcome: HttpOutcome, parse: string -> Option<Json>)
    ensures var reply := LoginResult(outcome, parse);
            var stored := LoginToken(outcome, parse);
            && (stored.Some? ==> reply.Returned? && Get(reply.value, "token") == stored && Truthy(stored.value))
            && (reply.Returned? && TruthyOpt(Get(reply.value, "token")) ==> stored.Some?)
  {
    if outcome.Received? {
      var pr := ParseProxyResponse(outcome.data, parse);
      if pr.ok && !TruthyOpt(Get(pr.parsed, "token")) {
        match FindToken(pr.parsed)
        case Some(t) =>
          assert Get(TokenObject(t), "token") == Some(JStr(t));
        case None =>
      }
    }
  }

  /** A rejected request or an empty proxy answer stores no token. */
  lemma LoginFailureStoresNothing(outcome: HttpOutcome, parse: string -> Option<Json>)
    ensures !LoginResult(outcome, parse).Returned? ==> LoginToken(outcome, parse).None?
  {
  }

  /** `Bearer <token>` for a non-empty token; no header otherwise. */
  function BearerHeader(token: Option<string>): (h: Option<string>)
    ensures h.Some? <==> token.Some? && token.value != ""
    ensures h.Some? ==> |h.value| > 7 && h.value[..7] == "Bearer " && h.value[7..] == token.value
  {
    if token.Some? && token.value != "" then Some("Bearer " + token.value) else None
  }

  /** The stored entries after `setToken(token)`: the JWT key holds the
      token when the store is available and the token is a string. */
  function EntriesAfterSetToken(entries: map<string, string>, available: bool, token: Json): (r: map<string, string>)
    ensures r.Keys == if available && token.JStr? then entries.Keys + {JwtStorageKey} else entries.Keys
    ensures forall k :: k in r && k != JwtStorageKey ==> r[k] == entries[k]
  {
    if available && token.JStr? then entries[JwtStorageKey := token.s] else entries
  }

  /** The Authorization header after `setToken(token)`. */
  function HeaderAfterSetToken(header: Option<string>, available: bool, token: Json): Option<string> {
    if available && token.JStr? then BearerHeader(Some(token.s)) else header
  }

  /** The stored entries after a login call whose request came back as
      `outcome`. */
  function EntriesAfterLogin(entries: map<string, string>, available: bool, outcome: HttpOutcome,
                             parse: string -> Option<Json>): map<string, string>
  {
    match LoginToken(outcome, parse)
    case Some(t) => EntriesAfterSetToken(entries, available, t)
    case None => entries
  }

  /** The Authorization header after a login call. */
  function HeaderAfterLogin(header: Option<string>, available: bool, outcome: HttpOutcome,
                            parse: string -> Option<Json>): Option<string>
  {
    match LoginToken(outcome, parse)
    case Some(t) => HeaderAfterSetToken(header, available, t)
    case None => header
  }

  /** The shared client: the default Authorization header, whether a 401
      callback is installed, the store that holds the JWT, and the two login
      paths it reads from the configuration object. */
  class ApiClient {
    const store: SecureStore
    const adminLoginPath: string
    const customerLoginPath: string
    var authorization: Option<string>
    var hasUnauthorizedCallback: bool

    constructor(store: SecureStore)
      ensures this.store == store && authorization == None && !hasUnauthorizedCallback
      ensures adminLoginPath == AdminLoginPath && customerLoginPath == CustomerLoginPath
    {
      this.store := store;
      adminLoginPath := AdminLoginPath;
      customerLoginPath := CustomerLoginPath;
      authorization := None;
      hasUnauthorizedCallback := false;
    }

    /** `setAxiosTokenHeader(token)`. */
    method SetAxiosTokenHeader(token: Option<string>)
      modifies this`authorization
      ensures authorization == BearerHeader(token)
    {
      if token.Some? && token.value != "" {
        authorization := Some("Bearer " + token.value);
      } else {
        authorization := None;
      }
    }

    /** `setToken(token)`: the header is installed only once the store has
        taken the token; a failed write is swallowed and changes nothing. */
    method SetToken(token: Json)
      modifies this`authorization, store`entries
      ensures store.entries == EntriesAfterSetToken(old(store.entries), store.available, token)
      ensures authorization == HeaderAfterSetToken(old(authorization), store.available, token)
    {
      var written := store.SetItem(JwtStorageKey, token);
      if written.Ok? {
        SetAxiosTokenHeader(Some(token.s));
      }
    }

    /** `clearToken()`: the header goes whether or not the delete works. */
    method ClearToken()
      modifies this`authorization, store`entries
      ensures authorization == None
      ensures store.entries == if store.available then old(store.entries) - {JwtStorageKey} else old(store.entries)
    {
      var _ := store.DeleteItem(JwtStorageKey);
      SetAxiosTokenHeader(None);
    }

    /** `setUnauthorizedCallback(cb)`. */
    method SetUnauthorizedCallback()
      modifies this`hasUnauthorizedCallback
      ensures hasUnauthorizedCallback
    {
      hasUnauthorizedCallback := true;
    }

    /** The response interceptor calls the callback for a rejected request
        exactly when one is installed and the server answered 401; the
        error itself is passed on unchanged. */
    predicate FiresUnauthorized(e: HttpError)
      reads this
      ensures FiresUnauthorized(e) ==> hasUnauthorizedCallback && e.response.Some?
    {
      hasUnauthorizedCallback && e.response.Some? && e.response.value.status == 401
    }

    /** `adminLogin` / `customerLogin`: POST `payload` to the proxy URL of
        `path`, then handle the answer. */
    method Login(path: string, payload: Json, post: Transport, parse: string -> Option<Json>)
      returns (r: LoginReply)
      modifies this`authorization, store`entries
      ensures var outcome := post(BuildProxyUrl(Some(path)), payload);
              && r == LoginResult(outcome, parse)
              && store.entries == EntriesAfterLogin(old(store.entries), store.available, outcome, parse)
              && authorization == HeaderAfterLogin(old(authorization), store.available, outcome, parse)
    {
      var outcome := post(BuildProxyUrl(Some(path)), payload);
      r := HandleLoginOutcome(outcome, parse);
    }

    /** The answer of a login request: read the envelope, and store and
        install any token found before returning. */
    method HandleLoginOutcome(outcome: HttpOutcome, parse: string -> Option<Json>) returns (r: LoginReply)
      modifies this`authorization, store`entries
      ensures r == LoginResult(outcome, parse)
      ensures store.entries == EntriesAfterLogin(old(store.entries), store.available, outcome, parse)
      ensures authorization == HeaderAfterLogin(old(authorization), store.available, outcome, parse)
    {
      if outcome.Failed? {
        assert LoginToken(outcome, parse).None?;
        return Rejected(outcome.error);
      }
      var pr := ParseProxyResponse(outcome.data, parse);
      if !pr.ok {
        assert LoginToken(outcome, parse).None?;
        return BadProxyResponse;
      }
      var direct := Get(pr.parsed, "token");
      if TruthyOpt(direct) {
        assert LoginToken(outcome, parse) == Some(direct.value);
        SetToken(direct.value);
        return Returned(pr.parsed);
      }
      var found := FindToken(pr.parsed);
      if found.Some? {
        assert LoginToken(outcome, parse) == Some(JStr(found.value));
        SetToken(JStr(found.value));
        return Returned(TokenObject(found.value));
      }
      assert LoginToken(outcome, parse).None?;
      return Returned(pr.parsed);
    }
  }
}
