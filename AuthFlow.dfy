/** The decisions the authentication hook takes on what came back from the
    store and from the login calls: whether a stored session is restored,
    which token a sign-in settles on, whether it is accepted and which user
    it produces. The hook's steps that carry these out are in `Session`. */
module AuthFlow {
  import opened Wrappers
  import opened JsText
  import opened Json
  import opened Jwt
  import opened Storage
  import opened Api
  import opened AuthState

  /** What a failed step throws: the client's HTTP error, an `Error` with a
      message, a `TypeError` from reading a property of null or calling a
      property that is not a function, or the store's error. */
  datatype Thrown =
    | HttpFailure(error: HttpError)
    | Failure(message: string)
    | TypeError
    | StoreFailure(cause: StoreError)

  const BadProxyMessage := "Bad response from proxy"
  const AdminTokenMissing := "Invalid admin token received"
  const AdminTokenInvalid := "Invalid admin token content"
  const CustomerTokenInvalid := "Invalid customer token received"

  /** A sign-in the hook accepts: the user it builds and the token. */
  datatype Accepted = Accepted(user: User, token: string)

  /** The value a login call returned, or what it threw. */
  function ReplyValue(reply: LoginReply): (r: Result<Json, Thrown>)
    ensures r.Ok? <==> reply.Returned?
  {
    match reply
    case Rejected(e) => Err(HttpFailure(e))
    case BadProxyResponse => Err(Failure(BadProxyMessage))
    case Returned(v) => Ok(v)
  }

  /** The key of `p` that JavaScript's `p.role === role` compares. */
  predicate HasRole(p: Json, role: string)
    ensures HasRole(p, role) ==> p.JObj?
  {
    Get(p, "role") == Some(JStr(role))
  }

  // ---------------------------------------------------------------------
  // restoring the stored session
  // ---------------------------------------------------------------------

  /** What `initializeAuth` finds: nothing to restore, a stored session it
      rejects (and wipes), or a session it resumes. */
  datatype Restore =
    | NoSession
    | InvalidSession
    | Resumed(user: User, token: string, userType: string)

  /** The user rebuilt from a stored token's payload. */
  function RestoredUser(p: Json, userType: string): (u: User)
    ensures u.role == userType && u.email == Get(p, "email") && u.phone.None?
    ensures Truthy(u.id) && Truthy(u.name)
  {
    User(OrElse(Get(p, "sub"), OrElse(Get(p, "id"), JStr("unknown"))),
         OrElse(Get(p, "name"), JStr(if userType == "admin" then "Admin" else "Customer")),
         Get(p, "email"), None, userType)
  }

  /** The decision on the two stored strings (None for a missing key). */
  function RestoreDecision(token: Option<string>, userType: Option<string>, parse: string -> Option<Json>): (d: Restore)
    ensures d.Resumed? ==> Some(d.token) == token && Some(d.userType) == userType && d.user.role == d.userType
  {
    if !(token.Some? && token.value != "" && userType.Some? && userType.value != "") then NoSession
    else
      var payload := JwtPayload(token.value, parse);
      if payload.Some? && HasRole(payload.value, userType.value) then
        Resumed(RestoredUser(payload.value, userType.value), token.value, userType.value)
      else InvalidSession
  }

  /** A session is resumed exactly when both keys hold non-empty strings and
      the token's payload names the stored user type as its role; a missing
      or empty key is never reported as invalid. */
  lemma RestoreDecisionCases(token: Option<string>, userType: Option<string>, parse: string -> Option<Json>)
    ensures var d := RestoreDecision(token, userType, parse);
            && (d.Resumed? <==>
                  token.Some? && token.value != "" && userType.Some? && userType.value != ""
                  && JwtPayload(token.value, parse).Some?
                  && HasRole(JwtPayload(token.value, parse).value, userType.value))
            && (d.NoSession? <==> !(token.Some? && token.value != "" && userType.Some? && userType.value != ""))
            && (d.Resumed? ==> multiset(d.token)['.'] == 2)
  {
    var d := RestoreDecision(token, userType, parse);
    if d.Resumed? {
      PayloadNeedsTwoDots(d.token, parse);
    }
  }

  // ---------------------------------------------------------------------
  // admin sign-in
  // ---------------------------------------------------------------------

  /** `parsed?.token` of `JSON.parse(text)`, when truthy. */
  function ParsedToken(text: string, parse: string -> Option<Json>): (t: Option<Json>)
    ensures t.Some? ==> Truthy(t.value)
  {
    match parse(text)
    case Some(p) => if TruthyOpt(Get(p, "token")) then Get(p, "token") else None
    case None => None
  }

  /** The first three steps of `signInAdmin`'s token search: a truthy
      `token`; else the `token` inside a string `message`; else (only when
      `message` is not a string) inside a string `upstreamBody`. */
  function WrappedToken(response: Json, parse: string -> Option<Json>): (t: Option<Json>)
    ensures t.Some? ==> Truthy(t.value)
  {
    if TruthyOpt(Get(response, "token")) then Get(response, "token")
    else
      match Get(response, "message")
      case Some(JStr(m)) => ParsedToken(m, parse)
      case _ =>
        match Get(response, "upstreamBody")
        case Some(JStr(u)) => ParsedToken(u, parse)
        case _ => None
  }

  /** The last step: a string `data.token` of a truthy object `data`, empty
      or not. */
  function DataToken(response: Json): (t: Option<Json>)
    ensures t.Some? ==> t.value.JStr?
  {
    match Get(response, "data")
    case Some(d) =>
      if Truthy(d) && TypeofObject(d) then
        match Get(d, "token")
        case Some(JStr(s)) => Some(JStr(s))
        case _ => None
      else None
    case None => None
  }

  /** The token `signInAdmin` settles on before checking it; None is null. */
  function AdminTokenCandidate(response: Json, parse: string -> Option<Json>): (t: Option<Json>)
    ensures t.Some? ==> Truthy(t.value) || t.value.JStr?
  {
    var wrapped := WrappedToken(response, parse);
    if TruthyOpt(wrapped) then wrapped else DataToken(response)
  }

  /** The user `signInAdmin` builds from the payload and the login email. */
  function AdminUser(p: Json, email: string): (u: User)
    ensures u.role == "admin" && u.phone.None?
    ensures TruthyOpt(Get(p, "sub")) ==> u.id == Get(p, "sub").value
    ensures !TruthyOpt(Get(p, "sub")) && TruthyOpt(Get(p, "id")) ==> u.id == Get(p, "id").value
    ensures !TruthyOpt(Get(p, "sub")) && !TruthyOpt(Get(p, "id")) ==> u.id == JStr("admin")
    ensures TruthyOpt(Get(p, "name")) ==> u.name == Get(p, "name").value
    ensures !TruthyOpt(Get(p, "name")) ==> u.name == JStr("Admin")
    ensures TruthyOpt(Get(p, "email")) ==> u.email == Get(p, "email")
    ensures !TruthyOpt(Get(p, "email")) ==> u.email == Some(JStr(email))
  {
    User(OrElse(Get(p, "sub"), OrElse(Get(p, "id"), JStr("admin"))),
         OrElse(Get(p, "name"), JStr("Admin")),
         Some(OrElse(Get(p, "email"), JStr(email))), None, "admin")
  }

  /** `token.split && token.split(".").length === 3` on a truthy token:
      a string must have three parts, an object whose `split` is truthy
      throws, anything else fails the test. */
  function AdminTokenShape(t: Json): (r: Result<string, Thrown>)
    ensures r.Ok? <==> t.JStr? && |Split(t.s, '.')| == 3
    ensures r.Ok? ==> r.value == t.s
  {
    if t.JStr? then
      if |Split(t.s, '.')| == 3 then Ok(t.s) else Err(Failure(AdminTokenInvalid))
    else if t.JObj? && TruthyOpt(Get(t, "split")) then Err(TypeError)
    else Err(Failure(AdminTokenInvalid))
  }

  /** A token `signInAdmin` accepts: three parts, and a payload whose
      `role` is "admin". */
  predicate AdminTokenAccepted(t: string, parse: string -> Option<Json>) {
    |Split(t, '.')| == 3 && JwtPayload(t, parse).Some? && HasRole(JwtPayload(t, parse).value, "admin")
  }

  /** The outcome of `signInAdmin` for the login call's reply. */
  function AdminSignIn(reply: LoginReply, email: string, parse: string -> Option<Json>): (r: Result<Accepted, Thrown>)
    ensures r.Ok? ==> reply.Returned? && r.value.token != "" && r.value.user.role == "admin"
    ensures r.Ok? ==> JwtPayload(r.value.token, parse).Some? && HasRole(JwtPayload(r.value.token, parse).value, "admin")
    ensures reply.Rejected? ==> r == Err(HttpFailure(reply.error))
    ensures reply.BadProxyResponse? ==> r == Err(Failure(BadProxyMessage))
    ensures reply.Returned? && !TruthyOpt(AdminTokenCandidate(reply.value, parse)) ==>
              r == Err(Failure(AdminTokenMissing))
    ensures reply.Returned? && AdminTokenCandidate(reply.value, parse).Some? ==>
              var c := AdminTokenCandidate(reply.value, parse).value;
              c.JStr? && c.s != "" && AdminTokenAccepted(c.s, parse) ==>
                r == Ok(Accepted(AdminUser(JwtPayload(c.s, parse).value, email), c.s))
  {
    match ReplyValue(reply)
    case Err(e) => Err(e)
    case Ok(response) =>
      var candidate := AdminTokenCandidate(response, parse);
      if !TruthyOpt(candidate) then Err(Failure(AdminTokenMissing))
      else
        match AdminTokenShape(candidate.value)
        case Err(e) => Err(e)
        case Ok(token) =>
          var payload := JwtPayload(token, parse);
          if payload.Some? && HasRole(payload.value, "admin") then
            Ok(Accepted(AdminUser(payload.value, email), token))
          else Err(Failure(AdminTokenInvalid))
  }

  /** An admin sign-in is accepted exactly when the settled token is a
      non-empty string with three parts and an admin payload; the user is
      then built from that payload and the login email. */
  lemma AdminSignInAccepted(reply: LoginReply, email: string, parse: string -> Option<Json>)
    ensures AdminSignIn(reply, email, parse).Ok? <==>
              && reply.Returned?
              && AdminTokenCandidate(reply.value, parse).Some?
              && AdminTokenCandidate(reply.value, parse).value.JStr?
              && AdminTokenCandidate(reply.value, parse).value.s != ""
              && AdminTokenAccepted(AdminTokenCandidate(reply.value, parse).value.s, parse)
    ensures AdminSignIn(reply, email, parse).Ok? ==>
              var a := AdminSignIn(reply, email, parse).value;
              && AdminTokenCandidate(reply.value, parse) == Some(JStr(a.token))
              && a.token != "" && multiset(a.token)['.'] == 2
              && JwtPayload(a.token, parse).Some? && HasRole(JwtPayload(a.token, parse).value, "admin")
              && a.user == AdminUser(JwtPayload(a.token, parse).value, email)
  {
    var r := AdminSignIn(reply, email, parse);
    if r.Ok? {
      PayloadNeedsTwoDots(r.value.token, parse);
    }
  }

  /** A truthy `token` on the response is the one used: the message, the
      upstream body and `data` are not looked at. */
  lemma AdminDirectTokenFirst(response: Json, parse: string -> Option<Json>)
    requires TruthyOpt(Get(response, "token"))
    ensures AdminTokenCandidate(response, parse) == Get(response, "token")
  {
  }

  /** A string `message` shadows `upstreamBody`: when the message holds no
      token, a token in the upstream body is not used. */
  lemma AdminMessageShadowsUpstream(response: Json, m: string, u: string, parse: string -> Option<Json>)
    requires !TruthyOpt(Get(response, "token"))
    requires Get(response, "message") == Some(JStr(m)) && Get(response, "upstreamBody") == Some(JStr(u))
    requires ParsedToken(m, parse).None? && ParsedToken(u, parse).Some?
    requires Get(response, "data").None?
    ensures AdminTokenCandidate(response, parse).None?
    ensures AdminSignIn(Returned(response), "", parse) == Err(Failure(AdminTokenMissing))
  {
  }

  /** An empty string under `data.token` is taken, and then refused as no
      token at all. */
  lemma AdminEmptyDataToken(response: Json, parse: string -> Option<Json>)
    requires Get(response, "token").None? && Get(response, "message").None? && Get(response, "upstreamBody").None?
    requires Get(response, "data") == Some(JObj([Field("token", JStr(""))]))
    ensures AdminTokenCandidate(response, parse) == Some(JStr(""))
    ensures AdminSignIn(Returned(response), "", parse) == Err(Failure(AdminTokenMissing))
  {
    assert Get(JObj([Field("token", JStr(""))]), "token") == Some(JStr(""));
  }

  // ---------------------------------------------------------------------
  // customer sign-in
  // ---------------------------------------------------------------------

  /** `response.token || (response?.data && response.data.token)`: reading
      `token` of a null response throws. */
  function CustomerTokenCandidate(response: Json): (r: Result<Option<Json>, Thrown>)
    ensures r.Err? <==> response.JNull?
  {
    if response.JNull? then Err(TypeError)
    else if TruthyOpt(Get(response, "token")) then Ok(Get(response, "token"))
    else
      var d := Get(response, "data");
      if !TruthyOpt(d) then Ok(d) else Ok(Get(d.value, "token"))
  }

  /** `decodeJWTPayload(token)` on a value that may not be a string: a
      non-string has no `split` method and decodes to null. */
  function DecodeAny(t: Json, parse: string -> Option<Json>): Option<Json> {
    if t.JStr? then JwtPayload(t.s, parse) else None
  }

  /** An optional form field as a JSON value. */
  function OptionalText(x: Option<string>): Option<Json> {
    if x.Some? then Some(JStr(x.value)) else None
  }

  /** `a || b` where both may be undefined: truthy exactly when either
      operand is, and always one of the two. */
  function OrElseOpt(a: Option<Json>, b: Option<Json>): (r: Option<Json>)
    ensures TruthyOpt(r) <==> TruthyOpt(a) || TruthyOpt(b)
    ensures r == a || r == b
  {
    if TruthyOpt(a) then a else b
  }

  /** The user `signInCustomer` builds from the payload and the form. */
  function CustomerUser(p: Json, name: string, email: Option<string>, phone: Option<string>): (u: User)
    ensures u.role == "customer"
    ensures TruthyOpt(Get(p, "sub")) ==> u.id == Get(p, "sub").value
    ensures !TruthyOpt(Get(p, "sub")) && TruthyOpt(Get(p, "id")) ==> u.id == Get(p, "id").value
    ensures !TruthyOpt(Get(p, "sub")) && !TruthyOpt(Get(p, "id")) ==> u.id == JStr("customer")
    ensures TruthyOpt(Get(p, "name")) ==> u.name == Get(p, "name").value
    ensures !TruthyOpt(Get(p, "name")) ==> u.name == JStr(name)
    ensures TruthyOpt(Get(p, "email")) ==> u.email == Get(p, "email")
    ensures !TruthyOpt(Get(p, "email")) ==> u.email == OptionalText(email)
    ensures TruthyOpt(Get(p, "phone")) ==> u.phone == Get(p, "phone")
    ensures !TruthyOpt(Get(p, "phone")) ==> u.phone == OptionalText(phone)
  {
    User(OrElse(Get(p, "sub"), OrElse(Get(p, "id"), JStr("customer"))),
         OrElse(Get(p, "name"), JStr(name)),
         OrElseOpt(Get(p, "email"), OptionalText(email)),
         OrElseOpt(Get(p, "phone"), OptionalText(phone)),
         "customer")
  }

  /** A token `signInCustomer` accepts: a payload whose `role` is
      "customer". */
  predicate CustomerTokenAccepted(t: string, parse: string -> Option<Json>) {
    JwtPayload(t, parse).Some? && HasRole(JwtPayload(t, parse).value, "customer")
  }

  /** The outcome of `signInCustomer` for the login call's reply, before the
      session is written to the store. */
  function CustomerSignIn(reply: LoginReply, name: string, email: Option<string>, phone: Option<string>,
                          parse: string -> Option<Json>): (r: Result<Accepted, Thrown>)
    ensures r.Ok? ==> reply.Returned? && r.value.token != "" && r.value.user.role == "customer"
    ensures reply.Rejected? ==> r == Err(HttpFailure(reply.error))
    ensures reply.BadProxyResponse? ==> r == Err(Failure(BadProxyMessage))
    ensures reply.Returned? && CustomerTokenCandidate(reply.value).Ok? && !TruthyOpt(CustomerTokenCandidate(reply.value).value) ==>
              r == Err(Failure(CustomerTokenInvalid))
    ensures reply.Returned? && CustomerTokenCandidate(reply.value).Ok? && CustomerTokenCandidate(reply.value).value.Some? ==>
              var c := CustomerTokenCandidate(reply.value).value.value;
              c.JStr? && c.s != "" && CustomerTokenAccepted(c.s, parse) ==>
                r == Ok(Accepted(CustomerUser(JwtPayload(c.s, parse).value, name, email, phone), c.s))
  {
    match ReplyValue(reply)
    case Err(e) => Err(e)
    case Ok(response) =>
      match CustomerTokenCandidate(response)
      case Err(e) => Err(e)
      case Ok(candidate) =>
        if !TruthyOpt(candidate) then Err(Failure(CustomerTokenInvalid))
        else
          var payload := DecodeAny(candidate.value, parse);
          if payload.Some? && HasRole(payload.value, "customer") then
            Ok(Accepted(CustomerUser(payload.value, name, email, phone), candidate.value.s))
          else Err(Failure(CustomerTokenInvalid))
  }

  /** An accepted customer sign-in used a string token with three parts whose
      payload says `role: "customer"`; a token that is not a string is
      refused with the same message as a missing one. */
  lemma CustomerSignInAccepted(reply: LoginReply, name: string, email: Option<string>, phone: Option<string>,
                               parse: string -> Option<Json>)
    ensures CustomerSignIn(reply, name, email, phone, parse).Ok? <==>
              && reply.Returned?
              && CustomerTokenCandidate(reply.value).Ok?
              && CustomerTokenCandidate(reply.value).value.Some?
              && CustomerTokenCandidate(reply.value).value.value.JStr?
              && CustomerTokenCandidate(reply.value).value.value.s != ""
              && CustomerTokenAccepted(CustomerTokenCandidate(reply.value).value.value.s, parse)
    ensures var d := CustomerSignIn(reply, name, email, phone, parse);
            && (d.Ok? ==>
                  && reply.Returned?
                  && CustomerTokenCandidate(reply.value) == Ok(Some(JStr(d.value.token)))
                  && d.value.token != "" && multiset(d.value.token)['.'] == 2
                  && d.value.user == CustomerUser(JwtPayload(d.value.token, parse).value, name, email, phone))
            && (reply.Returned? && CustomerTokenCandidate(reply.value).Ok?
                && TruthyOpt(CustomerTokenCandidate(reply.value).value)
                && !CustomerTokenCandidate(reply.value).value.value.JStr? ==>
                  d == Err(Failure(CustomerTokenInvalid)))
  {
    var d := CustomerSignIn(reply, name, email, phone, parse);
    if d.Ok? {
      PayloadNeedsTwoDots(d.value.token, parse);
    }
  }

  // ---------------------------------------------------------------------
  // the login layer and the hook together
  // ---------------------------------------------------------------------

  /** Whatever token the login call stored is the very token both sign-ins
      then settle on: the client has already stored it when the role check
      runs. */
  lemma SignInUsesStoredToken(outcome: HttpOutcome, parse: string -> Option<Json>)
    requires LoginToken(outcome, parse).Some?
    ensures LoginResult(outcome, parse).Returned?
    ensures AdminTokenCandidate(LoginResult(outcome, parse).value, parse) == LoginToken(outcome, parse)
    ensures CustomerTokenCandidate(LoginResult(outcome, parse).value) == Ok(LoginToken(outcome, parse))
  {
    LoginStoresReturnedToken(outcome, parse);
  }

  /** A session an admin sign-in accepted is resumed on the next start from
      the two keys the sign-in wrote, with the same token, role and name;
      the id agrees whenever the payload has a truthy `sub` or `id`. */
  lemma AdminSessionRestored(reply: LoginReply, email: string, parse: string -> Option<Json>)
    requires AdminSignIn(reply, email, parse).Ok?
    ensures var a := AdminSignIn(reply, email, parse).value;
            var d := RestoreDecision(Some(a.token), Some("admin"), parse);
            && d.Resumed? && d.token == a.token && d.userType == "admin"
            && d.user.role == a.user.role && d.user.name == a.user.name
            && (var p := JwtPayload(a.token, parse).value;
                TruthyOpt(Get(p, "sub")) || TruthyOpt(Get(p, "id")) ==> d.user.id == a.user.id)
  {
    AdminSignInAccepted(reply, email, parse);
  }

  /** The same for a customer sign-in; the restored name falls back to
      "Customer" where the sign-in used the name typed in the form. */
  lemma CustomerSessionRestored(reply: LoginReply, name: string, email: Option<string>, phone: Option<string>,
                                parse: string -> Option<Json>)
    requires CustomerSignIn(reply, name, email, phone, parse).Ok?
    ensures var a := CustomerSignIn(reply, name, email, phone, parse).value;
            var d := RestoreDecision(Some(a.token), Some("customer"), parse);
            && d.Resumed? && d.token == a.token && d.userType == "customer"
            && d.user.role == a.user.role
            && (var p := JwtPayload(a.token, parse).value;
                (TruthyOpt(Get(p, "sub")) || TruthyOpt(Get(p, "id")) ==> d.user.id == a.user.id)
                && (TruthyOpt(Get(p, "name")) ==> d.user.name == a.user.name))
  {
    CustomerSignInAccepted(reply, name, email, phone, parse);
  }
}
