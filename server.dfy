/**
 * The resolvers of the gateway's API: `me`, `registerUser` and `login`, with
 * the provider's replies as inputs. Each resolver returns what it returns to
 * the GraphQL layer (a value, or the exception it raises) together with the
 * provider calls it made, in order.
 */
module Server {
  import opened Python
  import opened Kratos

  /** A resolver's outcome and the provider calls made to reach it. */
  datatype Traced<+T> = Traced(result: T, calls: seq<Call>)

  /** What `login` returns: `{"sessionToken": ..., "identityEmail": ...}`. */
  datatype LoginResult = LoginResult(sessionToken: Json, identityEmail: Json)

  const Ok200 := 200
  const Created201 := 201

  /** The literal `me` answers with when there is no session. */
  const Unauthorized: Json := JStr("Unauthorized")

  /** Where a whoami session keeps the user's email. */
  const EmailPath: seq<string> := ["identity", "traits", "email"]

  /** Where a successful login reply keeps the user's email. */
  const SessionEmailPath: seq<string> := ["session", "identity", "traits", "email"]

  const FailurePrefix := "Registration failed: "

  function SuccessMessage(email: string): string {
    "User " + email + " registered successfully"
  }

  // ---------------------------------------------------------------- me

  /**
   * `get_kratos_session`: one whoami call. A 200 reply yields its decoded
   * body; any other status yields None (JSON null); `requests` exceptions and
   * an undecodable 200 body escape.
   */
  function GetKratosSession(token: Option<string>, whoami: Reply): (r: Traced<Result<Json, Fault>>)
    ensures r.calls == [Whoami(token)]
    ensures whoami.Received? && whoami.response.status != Ok200 ==> r.result == Ok(JNull)
    ensures HasStatus(whoami, Ok200) && Body(whoami).Some? ==> r.result == Ok(Body(whoami).value)
    ensures whoami.TransportError? ==> r.result == Err(Transport(whoami.description))
    ensures HasStatus(whoami, Ok200) && Body(whoami) == None ==> r.result == Err(BodyNotJson)
    ensures r.result.Ok? && r.result.value != JNull ==> HasStatus(whoami, Ok200) && Body(whoami) == Some(r.result.value)
    ensures r.result.Err? ==>
      (whoami.TransportError? && r.result.error == Transport(whoami.description)) ||
      (HasStatus(whoami, Ok200) && Body(whoami) == None && r.result.error == BodyNotJson)
  {
    var result :=
      match whoami
      case TransportError(d) => Err(Transport(d))
      case Received(resp) => if resp.status == Ok200 then DecodeJson(resp) else Ok(JNull);
    Traced(result, [Whoami(token)])
  }

  /**
   * `resolve_me`: the email of the caller's session, or "Unauthorized". The
   * whoami call is made even when the request carries no token.
   */
  function ResolveMe(token: Option<string>, whoami: Reply): (r: Traced<Result<Json, Fault>>)
    ensures r.calls == [Whoami(token)]
    // no session: a status other than 200, or a 200 whose body is falsy
    ensures (whoami.Received? && whoami.response.status != Ok200) ||
            (HasStatus(whoami, Ok200) && Body(whoami).Some? && !Truthy(Body(whoami).value))
            ==> r.result == Ok(Unauthorized)
    // any other answer is the email found under identity.traits.email of a 200 body
    ensures r.result.Ok? && r.result.value != Unauthorized ==>
      HasStatus(whoami, Ok200) && Body(whoami).Some? &&
      SubscriptPath(Body(whoami).value, EmailPath) == Ok(r.result.value)
    // and a 200 session that has an email is answered with that email
    ensures HasStatus(whoami, Ok200) && Body(whoami).Some? && Truthy(Body(whoami).value) &&
            SubscriptPath(Body(whoami).value, EmailPath).Ok?
            ==> r.result == Ok(SubscriptPath(Body(whoami).value, EmailPath).value)
    // what escapes: transport errors, an undecodable 200 body, a 200 session without the email path
    ensures whoami.TransportError? ==> r.result == Err(Transport(whoami.description))
    ensures HasStatus(whoami, Ok200) && Body(whoami) == None ==> r.result == Err(BodyNotJson)
    ensures HasStatus(whoami, Ok200) && Body(whoami).Some? && Truthy(Body(whoami).value) &&
            SubscriptPath(Body(whoami).value, EmailPath).Err?
            ==> r.result == Err(Raised(SubscriptPath(Body(whoami).value, EmailPath).error))
    // and nothing else escapes
    ensures r.result.Err? ==>
      (whoami.TransportError? && r.result.error == Transport(whoami.description)) ||
      (HasStatus(whoami, Ok200) && Body(whoami) == None && r.result.error == BodyNotJson) ||
      (HasStatus(whoami, Ok200) && Body(whoami).Some? && Truthy(Body(whoami).value) &&
       r.result.error.Raised? && SubscriptPath(Body(whoami).value, EmailPath) == Err(r.result.error.error))
  {
    var session := GetKratosSession(token, whoami);
    var result :=
      match session.result
      case Err(f) => Err(f)
      case Ok(s) =>
        if !Truthy(s) then Ok(Unauthorized)
        else
          match SubscriptPath(s, EmailPath)
          case Err(e) => Err(Raised(e))
          case Ok(email) => Ok(email);
    Traced(result, session.calls)
  }

  // ---------------------------------------------------------- registerUser

  /** The identity `registerUser` asks the provider to create. */
  function RegistrationPayload(email: string, password: string): (p: Json)
    ensures p.JObj? && p.fields.Keys == {"schema_id", "traits", "credentials"}
    ensures SubscriptPath(p, ["schema_id"]) == Ok(JStr("default"))
    ensures SubscriptPath(p, ["traits"]).Ok? && SubscriptPath(p, ["traits"]).value.JObj?
    ensures SubscriptPath(p, ["traits"]).value.fields.Keys == {"email"}
    ensures SubscriptPath(p, ["traits", "email"]) == Ok(JStr(email))
    ensures SubscriptPath(p, ["credentials"]).Ok? && SubscriptPath(p, ["credentials"]).value.JObj?
    ensures SubscriptPath(p, ["credentials"]).value.fields.Keys == {"password"}
    ensures SubscriptPath(p, ["credentials", "password"]).Ok? && SubscriptPath(p, ["credentials", "password"]).value.JObj?
    ensures SubscriptPath(p, ["credentials", "password"]).value.fields.Keys == {"config"}
    ensures SubscriptPath(p, ["credentials", "password", "config"]).Ok?
    ensures SubscriptPath(p, ["credentials", "password", "config"]).value.JObj?
    ensures SubscriptPath(p, ["credentials", "password", "config"]).value.fields.Keys == {"password"}
    ensures SubscriptPath(p, ["credentials", "password", "config", "password"]) == Ok(JStr(password))
  {
    JObj(map[
      "schema_id" := JStr("default"),
      "traits" := JObj(map["email" := JStr(email)]),
      "credentials" := JObj(map["password" := JObj(map["config" := JObj(map["password" := JStr(password)])])])
    ])
  }

  /**
   * `resolve_register_user`: one identity-creation call; 200 or 201 is a
   * success message naming the email, anything else (another status, or an
   * exception from `requests`) a failure message. It never raises.
   */
  function ResolveRegisterUser(email: string, password: string, reply: Reply): (r: Traced<string>)
    ensures r.calls == [CreateIdentity(RegistrationPayload(email, password))]
    ensures r.result == SuccessMessage(email) <==>
            reply.Received? && reply.response.status in {Ok200, Created201}
    ensures reply.Received? && reply.response.status !in {Ok200, Created201} ==>
            r.result == FailurePrefix + reply.response.text
    ensures reply.TransportError? ==> r.result == FailurePrefix + reply.description
  {
    var calls := [CreateIdentity(RegistrationPayload(email, password))];
    match reply
    case TransportError(d) =>
      FailureIsNotSuccess(email, d);
      Traced(FailurePrefix + d, calls)
    case Received(resp) =>
      if resp.status == Ok200 || resp.status == Created201 then Traced(SuccessMessage(email), calls)
      else
        FailureIsNotSuccess(email, resp.text);
        Traced(FailurePrefix + resp.text, calls)
  }

  /** A failure message can never be mistaken for the success message. */
  lemma FailureIsNotSuccess(email: string, detail: string)
    ensures FailurePrefix + detail != SuccessMessage(email)
  {
    assert (FailurePrefix + detail)[0] == 'R';
    assert SuccessMessage(email)[0] == 'U';
  }

  // ---------------------------------------------------------------- login

  /** The credentials `login` submits against a flow. */
  function SubmitPayload(identifier: string, password: string): (p: Json)
    ensures p.JObj? && p.fields.Keys == {"method", "identifier", "password"}
    ensures Subscript(p, "method") == Ok(JStr("password"))
    ensures Subscript(p, "identifier") == Ok(JStr(identifier))
    ensures Subscript(p, "password") == Ok(JStr(password))
  {
    JObj(map["method" := JStr("password"), "identifier" := JStr(identifier), "password" := JStr(password)])
  }

  /**
   * Login step 1, the reply to the flow-initiation call: the flow id, or the
   * exception raised. The id is granted only by a 200 reply whose body is a
   * dict holding a truthy "id".
   */
  function InitFlow(flowReply: Reply): (r: Result<Json, Fault>)
    ensures r.Ok? <==>
      HasStatus(flowReply, Ok200) && Body(flowReply).Some? &&
      Subscript(Body(flowReply).value, "id").Ok? && Truthy(Subscript(Body(flowReply).value, "id").value)
    ensures r.Ok? ==> r.value == Subscript(Body(flowReply).value, "id").value
    ensures flowReply.Received? && flowReply.response.status != Ok200 ==>
      r == Err(FlowInitFailed(flowReply.response.text))
    ensures HasStatus(flowReply, Ok200) && Body(flowReply).Some? && Body(flowReply).value.JObj? && r.Err? ==>
      r == Err(FlowIdMissing)
    // the exceptions escaping before the id is read: the client's, `.json()`'s, and `.get` on a non-dict
    ensures flowReply.TransportError? ==> r == Err(Transport(flowReply.description))
    ensures HasStatus(flowReply, Ok200) && Body(flowReply) == None ==> r == Err(BodyNotJson)
    ensures HasStatus(flowReply, Ok200) && Body(flowReply).Some? && !Body(flowReply).value.JObj? ==>
      r == Err(Raised(AttributeError))
  {
    match flowReply
    case TransportError(d) => Err(Transport(d))
    case Received(resp) =>
      if resp.status != Ok200 then Err(FlowInitFailed(resp.text))
      else
        match DecodeJson(resp)
        case Err(f) => Err(f)
        case Ok(body) =>
          match GetOr(body, "id", JNull)
          case Err(e) => Err(Raised(e))
          case Ok(flowId) => if !Truthy(flowId) then Err(FlowIdMissing) else Ok(flowId)
  }

  /** What a non-200 submit reply is reported with: its decoded body, else `{"raw": text}`. */
  function RejectionDetails(resp: Response): Json {
    match resp.body
    case Some(b) => b
    case None => JObj(map["raw" := JStr(resp.text)])
  }

  /**
   * Login step 2, the reply to the credential submission. Its status alone
   * decides between rejection and the success branch; inside the success
   * branch a truthy "session_token" is required, and the email is read
   * leniently from session.identity.traits.email with "" as default.
   */
  function FinishLogin(submitReply: Reply): (r: Result<LoginResult, Fault>)
    ensures submitReply.Received? && submitReply.response.status != Ok200 ==>
      r == Err(InvalidCredentials(RejectionDetails(submitReply.response)))
    ensures submitReply.TransportError? ==> r == Err(Transport(submitReply.description))
    // a 200 body that is not JSON, or not a dict, raises from `.json()` or `.get`
    ensures HasStatus(submitReply, Ok200) && Body(submitReply) == None ==> r == Err(BodyNotJson)
    ensures HasStatus(submitReply, Ok200) && Body(submitReply).Some? && !Body(submitReply).value.JObj? ==>
      r == Err(Raised(AttributeError))
    // a truthy non-dict level on the email path raises, whatever the token
    ensures HasStatus(submitReply, Ok200) && Body(submitReply).Some? && Body(submitReply).value.JObj? &&
            GetOrPath(Body(submitReply).value, SessionEmailPath, JStr("")).Err? ==>
      r == Err(Raised(AttributeError))
    // success needs a 200 dict body with a truthy session_token, which is the token returned
    ensures r.Ok? ==>
      HasStatus(submitReply, Ok200) && Body(submitReply).Some? &&
      Subscript(Body(submitReply).value, "session_token") == Ok(r.value.sessionToken) &&
      Truthy(r.value.sessionToken)
    // the email returned is "" or the value at session.identity.traits.email
    ensures r.Ok? ==>
      r.value.identityEmail == JStr("") ||
      (Truthy(r.value.identityEmail) &&
       SubscriptPath(Body(submitReply).value, SessionEmailPath) == Ok(r.value.identityEmail))
    // a 200 dict body without a truthy token fails with "No session token returned" once the email lookup did not raise
    ensures HasStatus(submitReply, Ok200) && Body(submitReply).Some? && Body(submitReply).value.JObj? &&
            GetOr(Body(submitReply).value, "session_token", JNull) == Ok(JNull) &&
            GetOrPath(Body(submitReply).value, SessionEmailPath, JStr("")).Ok? ==>
      r == Err(NoSessionToken)
    // a 200 body with a truthy token succeeds with the leniently read email, "" when a level is missing or falsy
    ensures HasStatus(submitReply, Ok200) && Body(submitReply).Some? &&
            Subscript(Body(submitReply).value, "session_token").Ok? &&
            Truthy(Subscript(Body(submitReply).value, "session_token").value) &&
            GetOrPath(Body(submitReply).value, SessionEmailPath, JStr("")).Ok? ==>
      r == Ok(LoginResult(Subscript(Body(submitReply).value, "session_token").value,
                          GetOrPath(Body(submitReply).value, SessionEmailPath, JStr("")).value))
    // a 200 dict body with a truthy token and an email present at the full path is a success with both
    ensures HasStatus(submitReply, Ok200) && Body(submitReply).Some? &&
            Subscript(Body(submitReply).value, "session_token").Ok? &&
            Truthy(Subscript(Body(submitReply).value, "session_token").value) &&
            SubscriptPath(Body(submitReply).value, SessionEmailPath).Ok? &&
            Truthy(SubscriptPath(Body(submitReply).value, SessionEmailPath).value) ==>
      r == Ok(LoginResult(Subscript(Body(submitReply).value, "session_token").value,
                          SubscriptPath(Body(submitReply).value, SessionEmailPath).value))
  {
    match submitReply
    case TransportError(d) => Err(Transport(d))
    case Received(resp) =>
      if resp.status != Ok200 then Err(InvalidCredentials(RejectionDetails(resp)))
      else
        match DecodeJson(resp)
        case Err(f) => Err(f)
        case Ok(payload) =>
          match GetOr(payload, "session_token", JNull)
          case Err(e) => Err(Raised(e))
          case Ok(token) =>
            match GetOrPath(payload, SessionEmailPath, JStr(""))
            case Err(e) => Err(Raised(e))
            case Ok(email) =>
              if !Truthy(token) then Err(NoSessionToken)
              else
                SessionEmailAgreesWithSubscript(payload);
                Ok(LoginResult(token, email))
  }

  /** Login's lenient email lookup against strict subscripting of the same path. */
  lemma SessionEmailAgreesWithSubscript(payload: Json)
    requires GetOrPath(payload, SessionEmailPath, JStr("")).Ok?
    ensures GetOrPath(payload, SessionEmailPath, JStr("")).value != JStr("") ==>
      SubscriptPath(payload, SessionEmailPath) == GetOrPath(payload, SessionEmailPath, JStr(""))
    ensures SubscriptPath(payload, SessionEmailPath).Ok? && Truthy(SubscriptPath(payload, SessionEmailPath).value) ==>
      GetOrPath(payload, SessionEmailPath, JStr("")) == SubscriptPath(payload, SessionEmailPath)
  {
    if GetOrPath(payload, SessionEmailPath, JStr("")).value != JStr("") {
      GetOrPathNonDefaultIsPresent(payload, SessionEmailPath, JStr(""));
    }
    if SubscriptPath(payload, SessionEmailPath).Ok? && Truthy(SubscriptPath(payload, SessionEmailPath).value) {
      GetOrPathFindsPresentValue(payload, SessionEmailPath, JStr(""), SubscriptPath(payload, SessionEmailPath).value);
    }
  }

  /**
   * `resolve_login`: init a flow, then submit the credentials against it.
   * The submission is made only when step 1 granted a flow id, and it
   * carries that id and the caller's credentials unchanged.
   */
  function ResolveLogin(identifier: string, password: string, flowReply: Reply, submitReply: Reply)
    : (r: Traced<Result<LoginResult, Fault>>)
    ensures 1 <= |r.calls| <= 2 && r.calls[0] == InitLoginFlow
    ensures |r.calls| == 2 <==> InitFlow(flowReply).Ok?
    ensures |r.calls| == 1 ==> r.result == Err(InitFlow(flowReply).error)
    ensures |r.calls| == 2 ==>
      r.calls[1] == SubmitLogin(InitFlow(flowReply).value, SubmitPayload(identifier, password)) &&
      r.result == FinishLogin(submitReply)
  {
    match InitFlow(flowReply)
    case Err(f) => Traced(Err(f), [InitLoginFlow])
    case Ok(flowId) =>
      Traced(FinishLogin(submitReply), [InitLoginFlow, SubmitLogin(flowId, SubmitPayload(identifier, password))])
  }
}
