/** The session handle of src/session.rs. It mutates nothing: each
    operation is a guard, an endpoint and one `_request`. All but `me` are
    administrative and ask for the master key. */
module Session {
  import opened Wrappers
  import opened Json
  import opened Errors
  import opened Strings
  import opened Dispatch
  import opened Requests

  // ---------------------------------------------------------------------
  // reply shapes

  /** `ParseSession`: string `objectId`, `createdAt` and `sessionToken`, a
      `user` of any shape, optional string `updatedAt` and
      `installationId`, an optional `expiresAt` date object and an optional
      boolean `restricted`; `createdWith` takes any value, and the members
      it does not name are collected as they come. */
  predicate IsParseSession(j: Json) {
    StringField(j, "objectId").Some? && StringField(j, "createdAt").Some?
    && StringField(j, "sessionToken").Some? && "user" in j.fields
    && OptionalStr(j, "updatedAt") && OptionalStr(j, "installationId")
    && OptionalDate(j, "expiresAt") && OptionalBool(j, "restricted")
  }

  /** `SessionUpdateResponse`: a string `updatedAt`. */
  predicate IsSessionUpdateResponse(j: Json) {
    StringField(j, "updatedAt").Some?
  }

  /** `SessionsResponse<ParseSession>`: a `results` array of sessions. */
  predicate IsSessionList(j: Json) {
    j.Obj? && "results" in j.fields && j.fields["results"].Arr?
    && forall i :: 0 <= i < |j.fields["results"].items| ==> IsParseSession(j.fields["results"].items[i])
  }

  // ---------------------------------------------------------------------
  // plans

  /** `me`: needs a stored token, and sends it as an ordinary request. */
  function CurrentSessionPlan(c: ClientState): (r: Result<RequestPlan, ParseError>)
    ensures r.Failure? <==> c.sessionToken.None?
    ensures r.Failure? ==> r.error == SessionTokenMissing
    ensures r.Success? ==> r.value == Call(GET, "sessions/me", None, false, None)
  {
    if c.sessionToken.None? then Failure(SessionTokenMissing)
    else Success(Call(GET, "sessions/me", None, false, None))
  }

  function SessionEndpoint(objectId: string): string {
    "sessions/" + objectId
  }

  function GetSessionPlan(objectId: string): RequestPlan {
    Call(GET, SessionEndpoint(objectId), None, true, None)
  }

  function DeleteSessionPlan(objectId: string): RequestPlan {
    Call(DELETE, SessionEndpoint(objectId), None, true, None)
  }

  function UpdateSessionPlan(objectId: string, sessionData: Json): RequestPlan {
    Call(PUT, SessionEndpoint(objectId), Some(sessionData), true, None)
  }

  /** `get_all_sessions`' endpoint: the query string after `?`, when given. */
  function AllSessionsEndpoint(queryString: Option<string>): (e: string)
    ensures queryString.None? ==> e == "sessions"
    ensures queryString.Some? ==> HasPrefix(e, "sessions?") && e[9..] == queryString.value
  {
    match queryString
    case Some(qs) => "sessions?" + qs
    case None => "sessions"
  }

  function AllSessionsPlan(queryString: Option<string>): RequestPlan {
    Call(GET, AllSessionsEndpoint(queryString), None, true, None)
  }

  /** No two query-string choices share an endpoint, so the endpoint tells
      back whether and which query string was given. */
  lemma AllSessionsEndpointInjective(a: Option<string>, b: Option<string>)
    requires AllSessionsEndpoint(a) == AllSessionsEndpoint(b)
    ensures a == b
  {
    if a.Some? && b.Some? {
      assert a.value == AllSessionsEndpoint(a)[9..];
    }
  }

  // ---------------------------------------------------------------------
  // outcomes

  /** `get_all_sessions` returns the `results` array. */
  function AllSessionsResult(response: Result<Json, ParseError>): (r: Result<seq<Json>, ParseError>)
    requires response.Success? ==> IsSessionList(response.value)
    ensures r.Success? <==> response.Success?
    ensures r.Success? ==> forall i :: 0 <= i < |r.value| ==> IsParseSession(r.value[i])
    ensures r.Failure? ==> r.error == response.error
  {
    match response
    case Success(j) => Success(j.fields["results"].items)
    case Failure(e) => Failure(e)
  }

  // ---------------------------------------------------------------------
  // properties

  /** `me` without a token is refused before the request; with one, the
      request carries the stored token. */
  lemma CurrentSessionCredential(c: ClientState)
    ensures c.sessionToken.None? ==> CurrentSessionPlan(c) == Failure(SessionTokenMissing)
    ensures c.sessionToken.Some? ==>
              var w := Prepare(c, CurrentSessionPlan(c).value);
              w.Success? && w.value.headers.sessionToken == c.sessionToken
  {
    if c.sessionToken.Some? {
      CallWireHeaders(c, GET, "sessions/me", None, false, None);
      assert RequestCredential(c, false, None) == Success(Some(SessionToken(c.sessionToken.value)));
    }
  }

  /** The administrative calls are refused before sending exactly when the
      client holds neither a session token nor a master key; a stored
      session token, when present, is what `_request` sends as the
      credential, while the master key still travels in the default
      headers. */
  lemma AdminCallsCredential(c: ClientState, objectId: string, sessionData: Json, queryString: Option<string>)
    ensures forall p :: p in [GetSessionPlan(objectId), DeleteSessionPlan(objectId), UpdateSessionPlan(objectId, sessionData), AllSessionsPlan(queryString)] ==>
              p.Call? && p.useMasterKey && p.tokenOverride.None?
              && (Prepare(c, p).Failure? <==> c.sessionToken.None? && c.masterKey.None?)
    ensures c.sessionToken.Some? ==>
              var w := Prepare(c, GetSessionPlan(objectId));
              w.Success? && w.value.headers.sessionToken == c.sessionToken && w.value.headers.masterKey == c.masterKey
  {
    if c.sessionToken.Some? {
      assert RequestCredential(c, true, None) == Success(Some(SessionToken(c.sessionToken.value)));
      CallWireHeaders(c, GET, SessionEndpoint(objectId), None, true, None);
    }
  }

  /** Deleting a session succeeds on any successful reply, a `204` in
      particular, whatever its body. */
  lemma DeleteSessionNoContent(c: ClientState, objectId: string, transport: Transport, reason: string, body: Body)
    requires Prepare(c, DeleteSessionPlan(objectId)).Success?
    requires transport(Prepare(c, DeleteSessionPlan(objectId)).value) == Response(204, reason, body)
    ensures Discard(Execute(c, DeleteSessionPlan(objectId), transport, AnyValue)) == Success(())
  {
  }
}
