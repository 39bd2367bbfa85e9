/** The user handle of src/user.rs: sign-up, log-in, the current user,
    log-out, password reset and `become`. Every operation is one `_request`
    with the master flag off and no token override; what distinguishes
    them is how each one moves the client's stored session token. */
module User {
  import opened Wrappers
  import opened Json
  import opened Errors
  import opened Strings
  import opened Dispatch
  import opened Client

  // ---------------------------------------------------------------------
  // reply shapes

  /** `SignupResponse`: object id, session token and creation date, all strings. */
  predicate IsSignupResponse(j: Json) {
    StringField(j, "objectId").Some? && StringField(j, "sessionToken").Some? && StringField(j, "createdAt").Some?
  }

  /** `ParseUser`: a string `username`; optional object id, e-mail, session
      token and `emailVerified`; and the two dates, present but nullable. */
  predicate IsParseUser(j: Json) {
    StringField(j, "username").Some?
    && OptionalStr(j, "objectId") && OptionalStr(j, "email") && OptionalStr(j, "sessionToken")
    && ("emailVerified" !in j.fields || j.fields["emailVerified"].Null? || j.fields["emailVerified"].Bool?)
    && NullableStr(j, "createdAt") && NullableStr(j, "updatedAt")
  }

  /** The token a successful sign-up returns. */
  function SignupToken(j: Json): (t: string)
    requires IsSignupResponse(j)
    ensures Field(j, "sessionToken") == Some(Str(t))
  {
    StringField(j, "sessionToken").value
  }

  /** `ParseUser::session_token`: `None` when the member is absent or `null`. */
  function UserToken(j: Json): (t: Option<string>)
    requires IsParseUser(j)
    ensures t.Some? <==> "sessionToken" in j.fields && j.fields["sessionToken"].Str?
    ensures t.Some? ==> j.fields["sessionToken"] == Str(t.value)
  {
    StringField(j, "sessionToken")
  }

  // ---------------------------------------------------------------------
  // the requests

  function SignupPlan(userData: Json): RequestPlan {
    Call(POST, "users", Some(userData), false, None)
  }

  function LoginPlan(userData: Json): RequestPlan {
    Call(POST, "login", Some(userData), false, None)
  }

  /** `me` and `become_user` both read `users/me`. */
  const MePlan: RequestPlan := Call(GET, "users/me", None, false, None)

  const LogoutPlan: RequestPlan := Call(POST, "logout", None, false, None)

  function PasswordResetPlan(emailData: Json): RequestPlan {
    Call(POST, "requestPasswordReset", Some(emailData), false, None)
  }

  // ---------------------------------------------------------------------
  // the transitions of the stored token

  /** What one user operation returns and the session token it leaves. */
  datatype Outcome = Outcome(result: Result<Json, ParseError>, token: Option<string>)

  /** `signup`: on success the token becomes the response's token; on
      failure it is left alone. */
  function SignupOutcome(c: ClientState, userData: Json, transport: Transport): (o: Outcome)
    ensures o.result.Success? ==> IsSignupResponse(o.result.value) && o.token == Some(SignupToken(o.result.value))
    ensures o.result.Failure? ==> o.token == c.sessionToken
  {
    var r := Execute(c, SignupPlan(userData), transport, IsSignupResponse);
    ExecuteOutcomes(c, SignupPlan(userData), transport, IsSignupResponse);
    Outcome(r, if r.Success? then Some(SignupToken(r.value)) else c.sessionToken)
  }

  /** `login`: on success the token becomes the returned user's token,
      which clears it when the user carries none; on failure it is left
      alone. */
  function LoginOutcome(c: ClientState, userData: Json, transport: Transport): (o: Outcome)
    ensures o.result.Success? ==> IsParseUser(o.result.value) && o.token == UserToken(o.result.value)
    ensures o.result.Failure? ==> o.token == c.sessionToken
  {
    var r := Execute(c, LoginPlan(userData), transport, IsParseUser);
    ExecuteOutcomes(c, LoginPlan(userData), transport, IsParseUser);
    Outcome(r, if r.Success? then UserToken(r.value) else c.sessionToken)
  }

  /** `me`: refused without a request when there is no token; never
      changes the token. */
  function MeOutcome(c: ClientState, transport: Transport): (o: Outcome)
    ensures o.token == c.sessionToken
    ensures c.sessionToken.None? ==> o.result == Failure(SessionTokenMissing)
    ensures o.result.Success? ==> IsParseUser(o.result.value)
  {
    if c.sessionToken.None? then Outcome(Failure(SessionTokenMissing), c.sessionToken)
    else
      ExecuteOutcomes(c, MePlan, transport, IsParseUser);
      Outcome(Execute(c, MePlan, transport, IsParseUser), c.sessionToken)
  }

  /** `logout`: refused without a request when there is no token; clears
      the token on success and leaves it alone on failure. */
  function LogoutOutcome(c: ClientState, transport: Transport): (o: Outcome)
    ensures c.sessionToken.None? ==> o == Outcome(Failure(SessionTokenMissing), None)
    ensures o.result.Success? ==> o.result.value == Null && o.token.None?
    ensures o.result.Failure? ==> o.token == c.sessionToken
  {
    if c.sessionToken.None? then Outcome(Failure(SessionTokenMissing), c.sessionToken)
    else
      var r := Execute(c, LogoutPlan, transport, AnyValue);
      if r.Success? then Outcome(Success(Null), None) else Outcome(Failure(r.error), c.sessionToken)
  }

  /** `request_password_reset`: the reply body is discarded and the token
      never changes. */
  function PasswordResetOutcome(c: ClientState, emailData: Json, transport: Transport): (o: Outcome)
    ensures o.token == c.sessionToken
    ensures o.result.Success? ==> o.result.value == Null
    ensures o.result.Failure? ==> Execute(c, PasswordResetPlan(emailData), transport, AnyValue) == Failure(o.result.error)
  {
    var r := Execute(c, PasswordResetPlan(emailData), transport, AnyValue);
    if r.Success? then Outcome(Success(Null), c.sessionToken) else Outcome(Failure(r.error), c.sessionToken)
  }

  /** `become_user`: the request is made as the target token; the target
      token stays on success and the original one is restored on failure. */
  function BecomeUserOutcome(c: ClientState, target: string, transport: Transport): (o: Outcome)
    ensures o.result.Success? ==> IsParseUser(o.result.value) && o.token == Some(target)
    ensures o.result.Failure? ==> o.token == c.sessionToken
  {
    var asTarget := c.(sessionToken := Some(target));
    var r := Execute(asTarget, MePlan, transport, IsParseUser);
    ExecuteOutcomes(asTarget, MePlan, transport, IsParseUser);
    Outcome(r, if r.Success? then Some(target) else c.sessionToken)
  }

  // ---------------------------------------------------------------------
  // properties of the transitions

  /** No user operation asks for the master key or overrides the token, so
      none of them can be refused before sending for want of a key. */
  lemma UserPlansAnonymous(c: ClientState, userData: Json, emailData: Json)
    ensures forall p :: p in [SignupPlan(userData), LoginPlan(userData), MePlan, LogoutPlan, PasswordResetPlan(emailData)] ==>
              p.Call? && !p.useMasterKey && p.tokenOverride.None? && Prepare(c, p).Success?
  {
  }

  /** `me` and `logout` without a token send nothing: the outcome is the
      same whatever the network would have done. */
  lemma TokenlessSendsNothing(c: ClientState, t1: Transport, t2: Transport)
    requires c.sessionToken.None?
    ensures MeOutcome(c, t1) == MeOutcome(c, t2) == Outcome(Failure(SessionTokenMissing), None)
    ensures LogoutOutcome(c, t1) == LogoutOutcome(c, t2) == Outcome(Failure(SessionTokenMissing), None)
  {
  }

  /** The request `become_user` sends carries the target token, whatever
      token was stored before. */
  lemma BecomeUserSendsTarget(c: ClientState, target: string)
    ensures var w := Prepare(c.(sessionToken := Some(target)), MePlan);
            w.Success? && w.value.headers.sessionToken == Some(target) && w.value.path == "/parse/users/me"
  {
    var asTarget := c.(sessionToken := Some(target));
    assert RequestCredential(asTarget, false, None) == Success(Some(SessionToken(target)));
    CallWireHeaders(asTarget, GET, "users/me", None, false, None);
    assert TrimStart("users/me", '/') == "users/me";
  }

  /** `become_user` followed by a failure leaves the client as it was. */
  lemma BecomeUserFailureRestores(c: ClientState, target: string, transport: Transport)
    requires BecomeUserOutcome(c, target, transport).result.Failure?
    ensures c.(sessionToken := BecomeUserOutcome(c, target, transport).token) == c
  {
  }

  /** After a successful sign-up the client is authenticated, a request to
      `me` goes out with the new token, and a successful log-out from there
      leaves it unauthenticated. */
  lemma SignupThenLogout(c: ClientState, userData: Json, t1: Transport, t2: Transport)
    requires SignupOutcome(c, userData, t1).result.Success?
    ensures var c1 := c.(sessionToken := SignupOutcome(c, userData, t1).token);
            c1.sessionToken.Some?
            && Prepare(c1, MePlan).value.headers.sessionToken == c1.sessionToken
            && (LogoutOutcome(c1, t2).result.Success? ==> LogoutOutcome(c1, t2).token.None?)
  {
    var c1 := c.(sessionToken := SignupOutcome(c, userData, t1).token);
    assert RequestCredential(c1, false, None) == Success(Some(SessionToken(c1.sessionToken.value)));
    CallWireHeaders(c1, GET, "users/me", None, false, None);
  }

  // ---------------------------------------------------------------------
  // the handle

  /** `ParseUserHandle`: a borrow of the client through which the user
      operations move its session token. */
  class ParseUserHandle {
    const client: Parse

    constructor (client: Parse)
      ensures this.client == client
    {
      this.client := client;
    }

    method Signup(userData: Json, transport: Transport) returns (r: Result<Json, ParseError>)
      modifies client
      ensures Outcome(r, client.sessionToken) == SignupOutcome(old(client.State()), userData, transport)
      ensures client.State() == old(client.State()).(sessionToken := client.sessionToken)
    {
      r := Execute(client.State(), SignupPlan(userData), transport, IsSignupResponse);
      if r.Success? {
        ExecuteOutcomes(client.State(), SignupPlan(userData), transport, IsSignupResponse);
        client.SetSessionToken(Some(SignupToken(r.value)));
      }
    }

    method Login(userData: Json, transport: Transport) returns (r: Result<Json, ParseError>)
      modifies client
      ensures Outcome(r, client.sessionToken) == LoginOutcome(old(client.State()), userData, transport)
      ensures client.State() == old(client.State()).(sessionToken := client.sessionToken)
    {
      r := Execute(client.State(), LoginPlan(userData), transport, IsParseUser);
      if r.Success? {
        ExecuteOutcomes(client.State(), LoginPlan(userData), transport, IsParseUser);
        client.SetSessionToken(UserToken(r.value));
      }
    }

    method Me(transport: Transport) returns (r: Result<Json, ParseError>)
      ensures Outcome(r, client.sessionToken) == MeOutcome(client.State(), transport)
    {
      if client.sessionToken.None? {
        return Failure(SessionTokenMissing);
      }
      r := Execute(client.State(), MePlan, transport, IsParseUser);
    }

    method Logout(transport: Transport) returns (r: Result<Json, ParseError>)
      modifies client
      ensures Outcome(r, client.sessionToken) == LogoutOutcome(old(client.State()), transport)
      ensures client.State() == old(client.State()).(sessionToken := client.sessionToken)
    {
      if client.sessionToken.None? {
        return Failure(SessionTokenMissing);
      }
      var result := Execute(client.State(), LogoutPlan, transport, AnyValue);
      if result.Success? {
        client.SetSessionToken(None);
        r := Success(Null);
      } else {
        r := Failure(result.error);
      }
    }

    method RequestPasswordReset(emailData: Json, transport: Transport) returns (r: Result<Json, ParseError>)
      ensures Outcome(r, client.sessionToken) == PasswordResetOutcome(client.State(), emailData, transport)
    {
      var result := Execute(client.State(), PasswordResetPlan(emailData), transport, AnyValue);
      if result.Success? {
        r := Success(Null);
      } else {
        r := Failure(result.error);
      }
    }

    /** The token is overwritten before the request, so the request is
        made as the target, and put back when the request fails. */
    method BecomeUser(target: string, transport: Transport) returns (r: Result<Json, ParseError>)
      modifies client
      ensures Outcome(r, client.sessionToken) == BecomeUserOutcome(old(client.State()), target, transport)
      ensures client.State() == old(client.State()).(sessionToken := client.sessionToken)
    {
      var originalToken := client.sessionToken;
      client.SetSessionToken(Some(target));
      r := Execute(client.State(), MePlan, transport, IsParseUser);
      if r.Failure? {
        client.SetSessionToken(originalToken);
      }
    }
  }
}
