/**
 * Properties that relate the resolvers to each other or to the provider's
 * replies as a whole: the order of the login handshake, the registration
 * payload's exact shape, and the agreement between the email `login` reports
 * and the one `me` would report for the same session.
 */
module ServerProperties {
  import opened Python
  import opened Kratos
  import opened Server

  /** A submission appears in a trace only right after a flow initiation. */
  predicate SubmitFollowsInit(calls: seq<Call>) {
    forall i | 0 <= i < |calls| && calls[i].SubmitLogin? :: 0 < i && calls[i - 1] == InitLoginFlow
  }

  /**
   * Login never submits credentials unless flow initiation granted a flow id,
   * and then submits exactly once, right after it, against that id.
   */
  lemma SubmitOnlyAfterFlowGranted(identifier: string, password: string, flowReply: Reply, submitReply: Reply)
    ensures var r := ResolveLogin(identifier, password, flowReply, submitReply);
      SubmitFollowsInit(r.calls) &&
      (forall i | 0 <= i < |r.calls| && r.calls[i].SubmitLogin? ::
         InitFlow(flowReply).Ok? && r.calls[i].flow == InitFlow(flowReply).value)
  {
  }

  /**
   * Login fails before any submission when the flow-initiation status is not
   * 200, or when its body's "id" is missing or falsy; the trace then holds
   * the initiation call alone.
   */
  lemma LoginStopsAtFlowGate(identifier: string, password: string, flowReply: Reply, submitReply: Reply)
    requires flowReply.Received?
    requires flowReply.response.status != Ok200 ||
             (flowReply.response.body.Some? && flowReply.response.body.value.JObj? &&
              !("id" in flowReply.response.body.value.fields && Truthy(flowReply.response.body.value.fields["id"])))
    ensures var r := ResolveLogin(identifier, password, flowReply, submitReply);
      r.calls == [InitLoginFlow] &&
      r.result == Err(if flowReply.response.status != Ok200 then FlowInitFailed(flowReply.response.text) else FlowIdMissing)
  {
  }

  /**
   * Once a flow is granted, a submission status other than 200 is rejected
   * with "Invalid credentials" whatever the body says; the details are the
   * decoded body, or `{"raw": text}` when it is not JSON.
   */
  lemma RejectedSubmitIsInvalidCredentials(identifier: string, password: string, flowReply: Reply, status: int, body: Option<Json>, text: string)
    requires InitFlow(flowReply).Ok?
    requires status != Ok200
    ensures var r := ResolveLogin(identifier, password, flowReply, Received(Response(status, body, text)));
      r.calls == [InitLoginFlow, SubmitLogin(InitFlow(flowReply).value, SubmitPayload(identifier, password))] &&
      r.result == Err(InvalidCredentials(if body.Some? then body.value else JObj(map["raw" := JStr(text)])))
  {
  }

  /**
   * The email a successful login reports, when not "", is exactly what `me`
   * answers for the session object the same reply carried.
   */
  lemma LoginEmailIsWhatMeReports(
    identifier: string, password: string, flowReply: Reply, submitReply: Reply,
    token: Option<string>, text: string)
    requires ResolveLogin(identifier, password, flowReply, submitReply).result.Ok?
    requires ResolveLogin(identifier, password, flowReply, submitReply).result.value.identityEmail != JStr("")
    ensures Body(submitReply).Some? && Subscript(Body(submitReply).value, "session").Ok?
    ensures var session := Subscript(Body(submitReply).value, "session").value;
      ResolveMe(token, Received(Response(Ok200, Some(session), text))).result ==
      Ok(ResolveLogin(identifier, password, flowReply, submitReply).result.value.identityEmail)
  {
  }

  /**
   * The registration payload holds `schema_id`, `traits.email` and
   * `credentials.password.config.password` and nothing else: any JSON value
   * of that shape is the payload built from its email and password.
   */
  lemma RegistrationPayloadIsItsShape(j: Json, email: string, password: string)
    requires j.JObj? && j.fields.Keys == {"schema_id", "traits", "credentials"}
    requires j.fields["schema_id"] == JStr("default")
    requires j.fields["traits"] == JObj(map["email" := JStr(email)])
    requires j.fields["credentials"].JObj? && j.fields["credentials"].fields.Keys == {"password"}
    requires j.fields["credentials"].fields["password"].JObj?
    requires j.fields["credentials"].fields["password"].fields.Keys == {"config"}
    requires j.fields["credentials"].fields["password"].fields["config"] == JObj(map["password" := JStr(password)])
    ensures j == RegistrationPayload(email, password)
  {
    var cred := j.fields["credentials"];
    var pw := cred.fields["password"];
    assert pw.fields == map["config" := JObj(map["password" := JStr(password)])];
    assert cred.fields == map["password" := pw];
  }

  /** Distinct registrations are distinguishable by the payload alone. */
  lemma RegistrationPayloadInjective(e1: string, p1: string, e2: string, p2: string)
    requires RegistrationPayload(e1, p1) == RegistrationPayload(e2, p2)
    ensures e1 == e2 && p1 == p2
  {
  }

  /** A submission answered 200 with a token and an email logs in with both. */
  lemma LoginSuccessExample(flowId: string, text: string)
    requires flowId != ""
    ensures var flow := Received(Response(200, Some(JObj(map["id" := JStr(flowId)])), text));
      var submitted := JObj(map[
        "session_token" := JStr("abc"),
        "session" := JObj(map["identity" := JObj(map["traits" := JObj(map["email" := JStr("a@b.com")])])])
      ]);
      ResolveLogin("a@b.com", "pw", flow, Received(Response(200, Some(submitted), text))).result ==
      Ok(LoginResult(JStr("abc"), JStr("a@b.com")))
  {
  }

  /** A submission answered 200 without "session_token" fails even though an email is present. */
  lemma LoginWithoutTokenExample(flowId: string, text: string)
    requires flowId != ""
    ensures var flow := Received(Response(200, Some(JObj(map["id" := JStr(flowId)])), text));
      var submitted := JObj(map[
        "session" := JObj(map["identity" := JObj(map["traits" := JObj(map["email" := JStr("a@b.com")])])])
      ]);
      ResolveLogin("a@b.com", "pw", flow, Received(Response(200, Some(submitted), text))).result ==
      Err(NoSessionToken)
  {
  }
}
