/** The two request procedures every operation of the client funnels into
    (src/client.rs `_get_with_url_params` and `_request`): which credential
    headers go on the wire, how the path is formed, and how a reply becomes
    a result or an error. The network is a parameter: `Execute` builds the
    request, hands it to `transport`, and classifies what comes back. */
module Dispatch {
  import opened Wrappers
  import opened Json
  import opened Errors
  import opened Strings

  datatype HttpMethod = GET | POST | PUT | DELETE | PATCH

  /** A query parameter's value: plain text, or the compact JSON text of a
      value (`serde_json::to_string`), whose exact spelling is not modelled. */
  datatype ParamValue = Text(text: string) | JsonText(value: Json)

  datatype Param = Param(name: string, value: ParamValue)

  /** What an operation asks of the dispatch layer: `Call` is `_request`,
      `Fetch` is `_get_with_url_params`. */
  datatype RequestPlan =
    | Call(verb: HttpMethod, endpoint: string, body: Option<Json>, useMasterKey: bool, tokenOverride: Option<string>)
    | Fetch(endpoint: string, params: seq<Param>, useMasterKey: bool, tokenOverride: Option<string>)

  /** The client fields the dispatch layer reads. */
  datatype ClientState = ClientState(
    serverUrl: string,
    appId: string,
    javascriptKey: Option<string>,
    restApiKey: Option<string>,
    masterKey: Option<string>,
    sessionToken: Option<string>)

  /** The header names the client writes. */
  datatype HeaderName =
    | XApplicationId | XSessionToken | XMasterKey | XJavascriptKey | XRestApiKey | ContentType
  {
    /** The name as it appears on the wire. */
    function Name(): string {
      match this
      case XApplicationId => "X-Parse-Application-Id"
      case XSessionToken => "X-Parse-Session-Token"
      case XMasterKey => "X-Parse-Master-Key"
      case XJavascriptKey => "X-Parse-Javascript-Key"
      case XRestApiKey => "X-Parse-REST-API-Key"
      case ContentType => "content-type"
    }
  }

  /** A header map over those names: each name absent or holding one value. */
  datatype Headers = Headers(
    appId: Option<string>,
    sessionToken: Option<string>,
    masterKey: Option<string>,
    javascriptKey: Option<string>,
    restApiKey: Option<string>,
    contentType: Option<string>)
  {
    function Get(n: HeaderName): Option<string> {
      match n
      case XApplicationId => appId
      case XSessionToken => sessionToken
      case XMasterKey => masterKey
      case XJavascriptKey => javascriptKey
      case XRestApiKey => restApiKey
      case ContentType => contentType
    }
  }

  const NoHeaders: Headers := Headers(None, None, None, None, None, None)

  /** How the HTTP client combines its default headers with a request's
      own: a name the request sets replaces the default of that name. */
  function Merge(defaults: Headers, own: Headers): (h: Headers)
    ensures forall n: HeaderName :: h.Get(n) == if own.Get(n).Some? then own.Get(n) else defaults.Get(n)
  {
    Headers(own.appId.Or(defaults.appId), own.sessionToken.Or(defaults.sessionToken),
            own.masterKey.Or(defaults.masterKey), own.javascriptKey.Or(defaults.javascriptKey),
            own.restApiKey.Or(defaults.restApiKey), own.contentType.Or(defaults.contentType))
  }

  const JsonMime: string := "application/json"

  const GetMasterKeyMessage: string := "Master key is required for this operation but not configured."
  const RequestMasterKeyMessage: string :=
    "Master key is required for this operation but not configured on the client."

  datatype Credential =
    | SessionToken(token: string)
    | MasterKey(key: string)
    | JavaScriptKey(key: string)
    | RestApiKey(key: string)

  /** The one header a credential is sent as. */
  function CredentialHeaders(c: Option<Credential>): (h: Headers)
    ensures c.None? ==> h == NoHeaders
    ensures h.appId.None? && h.contentType.None?
    ensures h.sessionToken.Some? <==> c.Some? && c.value.SessionToken?
    ensures h.sessionToken.Some? ==> h.sessionToken.value == c.value.token
    ensures h.masterKey.Some? <==> c.Some? && c.value.MasterKey?
    ensures h.masterKey.Some? ==> h.masterKey.value == c.value.key
    ensures h.javascriptKey.Some? <==> c.Some? && c.value.JavaScriptKey?
    ensures h.restApiKey.Some? <==> c.Some? && c.value.RestApiKey?
  {
    match c
    case None => NoHeaders
    case Some(SessionToken(t)) => NoHeaders.(sessionToken := Some(t))
    case Some(MasterKey(k)) => NoHeaders.(masterKey := Some(k))
    case Some(JavaScriptKey(k)) => NoHeaders.(javascriptKey := Some(k))
    case Some(RestApiKey(k)) => NoHeaders.(restApiKey := Some(k))
  }

  /** Reference reading of an "if … else if …" chain: the first candidate
      that is present wins. */
  function FirstPresent(candidates: seq<Option<Credential>>): (r: Option<Credential>)
    ensures r.None? <==> forall i :: 0 <= i < |candidates| ==> candidates[i].None?
    ensures r.Some? ==> r in candidates
  {
    if |candidates| == 0 then None
    else if candidates[0].Some? then candidates[0]
    else
      var r := FirstPresent(candidates[1..]);
      assert forall i :: 1 <= i < |candidates| ==> candidates[i] == candidates[1..][i - 1];
      r
  }

  lemma FirstPresentCons(x: Option<Credential>, rest: seq<Option<Credential>>)
    ensures FirstPresent([x] + rest) == if x.Some? then x else FirstPresent(rest)
  {
    assert ([x] + rest)[1..] == rest;
  }

  /** `FirstPresent` of a five-element list, unfolded. */
  lemma FirstPresentFive(a: Option<Credential>, b: Option<Credential>, c: Option<Credential>,
                         d: Option<Credential>, e: Option<Credential>)
    ensures FirstPresent([a, b, c, d, e]) == a.Or(b.Or(c.Or(d.Or(e))))
  {
    FirstPresentCons(e, []);
    assert [d, e] == [d] + [e];
    FirstPresentCons(d, [e]);
    assert [c, d, e] == [c] + [d, e];
    FirstPresentCons(c, [d, e]);
    assert [b, c, d, e] == [b] + [c, d, e];
    FirstPresentCons(b, [c, d, e]);
    assert [a, b, c, d, e] == [a] + [b, c, d, e];
    FirstPresentCons(a, [b, c, d, e]);
  }

  lemma FirstPresentThree(a: Option<Credential>, b: Option<Credential>, c: Option<Credential>)
    ensures FirstPresent([a, b, c]) == a.Or(b.Or(c))
  {
    FirstPresentCons(c, []);
    assert [b, c] == [b] + [c];
    FirstPresentCons(b, [c]);
    assert [a, b, c] == [a] + [b, c];
    FirstPresentCons(a, [b, c]);
  }

  function MasterKeyIf(flag: bool, key: Option<string>): Option<Credential> {
    if flag && key.Some? then Some(MasterKey(key.value)) else None
  }

  function JavaScriptKeyOf(key: Option<string>): Option<Credential> {
    if key.Some? then Some(JavaScriptKey(key.value)) else None
  }

  function RestApiKeyOf(key: Option<string>): Option<Credential> {
    if key.Some? then Some(RestApiKey(key.value)) else None
  }

  function Token(t: Option<string>): Option<Credential> {
    if t.Some? then Some(SessionToken(t.value)) else None
  }

  // ---------------------------------------------------------------------
  // headers

  /** The headers the HTTP client is built with in `Parse::new`: the
      application id, and one key chosen master > JavaScript > REST. */
  function DefaultHeaders(c: ClientState): (h: Headers)
    ensures h.appId == Some(c.appId)
    ensures h.masterKey == c.masterKey
    ensures h.javascriptKey == if c.masterKey.None? then c.javascriptKey else None
    ensures h.restApiKey == if c.masterKey.None? && c.javascriptKey.None? then c.restApiKey else None
    ensures h.sessionToken.None? && h.contentType.None?
  {
    var key :=
      if c.masterKey.Some? then CredentialHeaders(Some(MasterKey(c.masterKey.value)))
      else if c.javascriptKey.Some? then CredentialHeaders(Some(JavaScriptKey(c.javascriptKey.value)))
      else if c.restApiKey.Some? then CredentialHeaders(Some(RestApiKey(c.restApiKey.value)))
      else NoHeaders;
    key.(appId := Some(c.appId))
  }

  /** The default key is the first configured of master, JavaScript, REST. */
  lemma DefaultHeadersPrecedence(c: ClientState)
    ensures DefaultHeaders(c) == CredentialHeaders(FirstPresent([
              MasterKeyIf(true, c.masterKey), JavaScriptKeyOf(c.javascriptKey), RestApiKeyOf(c.restApiKey)])).(appId := Some(c.appId))
  {
    FirstPresentThree(MasterKeyIf(true, c.masterKey), JavaScriptKeyOf(c.javascriptKey), RestApiKeyOf(c.restApiKey));
  }

  /** `_get_with_url_params`' credential: override, then the master key when
      asked for (missing is an error), then the stored token, the
      JavaScript key and the REST key. */
  function GetCredential(c: ClientState, useMasterKey: bool, tokenOverride: Option<string>): (r: Result<Option<Credential>, ParseError>)
    ensures r.Failure? <==> tokenOverride.None? && useMasterKey && c.masterKey.None?
    ensures r.Failure? ==> r.error == MasterKeyRequired(GetMasterKeyMessage)
    ensures tokenOverride.Some? ==> r == Success(Some(SessionToken(tokenOverride.value)))
    ensures r.Success? && r.value.None? ==>
              c.sessionToken.None? && c.javascriptKey.None? && c.restApiKey.None?
    ensures r.Success? && r.value.Some? && r.value.value.MasterKey? ==> c.masterKey == Some(r.value.value.key)
  {
    if tokenOverride.Some? then Success(Some(SessionToken(tokenOverride.value)))
    else if useMasterKey then
      if c.masterKey.Some? then Success(Some(MasterKey(c.masterKey.value)))
      else Failure(MasterKeyRequired(GetMasterKeyMessage))
    else if c.sessionToken.Some? then Success(Some(SessionToken(c.sessionToken.value)))
    else if c.javascriptKey.Some? then Success(Some(JavaScriptKey(c.javascriptKey.value)))
    else if c.restApiKey.Some? then Success(Some(RestApiKey(c.restApiKey.value)))
    else Success(None)
  }

  /** `_request`'s credential: the override or else the stored token, then
      the master key when asked for; it never adds the JavaScript or REST
      key itself (those can only come from the default headers). */
  function RequestCredential(c: ClientState, useMasterKey: bool, tokenOverride: Option<string>): (r: Result<Option<Credential>, ParseError>)
    ensures r.Failure? <==> tokenOverride.None? && c.sessionToken.None? && useMasterKey && c.masterKey.None?
    ensures r.Failure? ==> r.error == MasterKeyRequired(RequestMasterKeyMessage)
    ensures tokenOverride.Some? ==> r == Success(Some(SessionToken(tokenOverride.value)))
    ensures r.Success? && r.value.Some? ==> r.value.value.SessionToken? || r.value.value.MasterKey?
    ensures r.Success? && r.value.Some? && r.value.value.MasterKey? ==> c.masterKey == Some(r.value.value.key)
  {
    var effective := tokenOverride.Or(c.sessionToken);
    if effective.Some? then Success(Some(SessionToken(effective.value)))
    else if useMasterKey then
      if c.masterKey.Some? then Success(Some(MasterKey(c.masterKey.value)))
      else Failure(MasterKeyRequired(RequestMasterKeyMessage))
    else Success(None)
  }

  /** `_get_with_url_params` picks the first present of: override, master
      key (when asked for), stored token, JavaScript key, REST key. */
  lemma GetCredentialPrecedence(c: ClientState, useMasterKey: bool, tokenOverride: Option<string>)
    requires GetCredential(c, useMasterKey, tokenOverride).Success?
    ensures GetCredential(c, useMasterKey, tokenOverride).value == FirstPresent([
              Token(tokenOverride), MasterKeyIf(useMasterKey, c.masterKey), Token(c.sessionToken),
              JavaScriptKeyOf(c.javascriptKey), RestApiKeyOf(c.restApiKey)])
  {
    FirstPresentFive(Token(tokenOverride), MasterKeyIf(useMasterKey, c.masterKey), Token(c.sessionToken),
                     JavaScriptKeyOf(c.javascriptKey), RestApiKeyOf(c.restApiKey));
  }

  /** `_request` picks the first present of: override, stored token, master
      key (when asked for). */
  lemma RequestCredentialPrecedence(c: ClientState, useMasterKey: bool, tokenOverride: Option<string>)
    requires RequestCredential(c, useMasterKey, tokenOverride).Success?
    ensures RequestCredential(c, useMasterKey, tokenOverride).value == FirstPresent([
              Token(tokenOverride), Token(c.sessionToken), MasterKeyIf(useMasterKey, c.masterKey)])
  {
    FirstPresentThree(Token(tokenOverride), Token(c.sessionToken), MasterKeyIf(useMasterKey, c.masterKey));
  }

  /** The two procedures disagree: with a stored token and the master flag,
      `_get_with_url_params` sends the master key but `_request` sends the
      session token. */
  lemma PrecedenceDiffers(c: ClientState)
    requires c.sessionToken.Some? && c.masterKey.Some?
    ensures GetCredential(c, true, None) == Success(Some(MasterKey(c.masterKey.value)))
    ensures RequestCredential(c, true, None) == Success(Some(SessionToken(c.sessionToken.value)))
  {
  }

  // ---------------------------------------------------------------------
  // paths

  /** `format!("/parse/{}", endpoint.trim_start_matches('/'))`. */
  function ApiPath(endpoint: string): (p: string)
    ensures HasPrefix(p, "/parse/")
    ensures |p| > 7 ==> p[7] != '/'
    ensures HasSuffix(endpoint, p[7..])
    ensures forall i :: 0 <= i < |endpoint| - (|p| - 7) ==> endpoint[i] == '/'
  {
    "/parse/" + TrimStart(endpoint, '/')
  }

  // ---------------------------------------------------------------------
  // the exchange

  datatype Wire = Wire(verb: HttpMethod, path: string, query: seq<Param>, headers: Headers, body: Option<Json>)

  /** A response body: its text (lossily decoded) and what `serde_json`
      makes of it as an untyped value (`None`: not JSON). `Lost` is a body
      that could not be read. */
  datatype Body = Received(text: string, json: Option<Json>) | Lost

  /** What the transport returns. `reason` is the status' canonical reason
      phrase as `StatusCode`'s `Display` prints it. */
  datatype Reply = Unreachable | Response(status: int, reason: string, body: Body)

  type Transport = Wire -> Reply

  /** Whether a JSON value deserialises into the type the caller expects. */
  type Shape = Json -> bool

  predicate IsSuccess(status: int) {
    200 <= status <= 299
  }

  /** `_request`'s own headers: the credential, and the JSON content type
      on POST, PUT and PATCH only. */
  function RequestHeaders(verb: HttpMethod, cred: Option<Credential>): Headers {
    CredentialHeaders(cred).(contentType := if verb == POST || verb == PUT || verb == PATCH then Some(JsonMime) else None)
  }

  /** `_get_with_url_params`' own headers: the application id, the JSON
      content type and the credential. */
  function FetchHeaders(c: ClientState, cred: Option<Credential>): Headers {
    CredentialHeaders(cred).(appId := Some(c.appId), contentType := Some(JsonMime))
  }

  /** The request as it goes on the wire, or the error raised before
      anything is sent. The stored server URL is one `Parse::new` has
      already parsed, so the helpers' second parse of it is not modelled. */
  function Prepare(c: ClientState, plan: RequestPlan): (r: Result<Wire, ParseError>)
    ensures r.Success? ==> r.value.path == ApiPath(plan.endpoint)
    ensures r.Failure? ==> r.error.MasterKeyRequired? && plan.useMasterKey && c.masterKey.None?
  {
    match plan
    case Fetch(endpoint, params, useMasterKey, tokenOverride) =>
      var cred :- GetCredential(c, useMasterKey, tokenOverride);
      Success(Wire(GET, ApiPath(endpoint), params, Merge(DefaultHeaders(c), FetchHeaders(c, cred)), None))
    case Call(verb, endpoint, body, useMasterKey, tokenOverride) =>
      var cred :- RequestCredential(c, useMasterKey, tokenOverride);
      Success(Wire(verb, ApiPath(endpoint), [], Merge(DefaultHeaders(c), RequestHeaders(verb, cred)), body))
  }

  /** The headers `_get_with_url_params` sends: the application id and
      JSON content type always, the override token when one is given, and
      exactly the configured master key, since the client's default
      headers hold it and the credential can only repeat it. */
  lemma FetchWireHeaders(c: ClientState, endpoint: string, params: seq<Param>, useMasterKey: bool, tokenOverride: Option<string>)
    requires Prepare(c, Fetch(endpoint, params, useMasterKey, tokenOverride)).Success?
    ensures var h := Prepare(c, Fetch(endpoint, params, useMasterKey, tokenOverride)).value.headers;
            h.appId == Some(c.appId) && h.contentType == Some(JsonMime) && h.masterKey == c.masterKey
    ensures var h := Prepare(c, Fetch(endpoint, params, useMasterKey, tokenOverride)).value.headers;
            tokenOverride.Some? ==> h.sessionToken == tokenOverride
  {
    var cred := GetCredential(c, useMasterKey, tokenOverride).value;
    var own := FetchHeaders(c, cred);
    assert Prepare(c, Fetch(endpoint, params, useMasterKey, tokenOverride)).value.headers == Merge(DefaultHeaders(c), own);
    KeptMasterKey(c, cred, own);
  }

  /** A credential header never names a master key other than the
      configured one, so merging it over the defaults keeps that key. */
  lemma KeptMasterKey(c: ClientState, cred: Option<Credential>, own: Headers)
    requires cred.Some? && cred.value.MasterKey? ==> c.masterKey == Some(cred.value.key)
    requires own.masterKey == CredentialHeaders(cred).masterKey
    ensures Merge(DefaultHeaders(c), own).masterKey == c.masterKey
  {
  }

  /** The headers `_request` sends: the application id (from the default
      headers), the override token when one is given, a JSON content type
      exactly on POST, PUT and PATCH, and exactly the configured master key. */
  lemma CallWireHeaders(c: ClientState, verb: HttpMethod, endpoint: string, body: Option<Json>, useMasterKey: bool, tokenOverride: Option<string>)
    requires Prepare(c, Call(verb, endpoint, body, useMasterKey, tokenOverride)).Success?
    ensures var h := Prepare(c, Call(verb, endpoint, body, useMasterKey, tokenOverride)).value.headers;
            h.appId == Some(c.appId) && h.masterKey == c.masterKey
    ensures var h := Prepare(c, Call(verb, endpoint, body, useMasterKey, tokenOverride)).value.headers;
            h.contentType.Some? <==> verb == POST || verb == PUT || verb == PATCH
    ensures var h := Prepare(c, Call(verb, endpoint, body, useMasterKey, tokenOverride)).value.headers;
            tokenOverride.Some? ==> h.sessionToken == tokenOverride
  {
    var cred := RequestCredential(c, useMasterKey, tokenOverride).value;
    var own := RequestHeaders(verb, cred);
    assert Prepare(c, Call(verb, endpoint, body, useMasterKey, tokenOverride)).value.headers == Merge(DefaultHeaders(c), own);
    KeptMasterKey(c, cred, own);
  }

  /** `json!({"code": status, "error": body_text})`, the stand-in for an
      error body that is not JSON. */
  function FallbackError(status: int, text: string): Json {
    Obj(map["code" := Num(status), "error" := Str(text)])
  }

  /** A non-2xx reply becomes `from_response(status, body)`. */
  function ServerError(status: int, body: Body): ParseError {
    match body
    case Lost => Transport
    case Received(text, json) => Server(status, json.GetOr(FallbackError(status, text)))
  }

  /** Reply handling of `_get_with_url_params`: any decode failure reports
      the body text. */
  function FinishFetch(reply: Reply, accepts: Shape): Result<Json, ParseError> {
    match reply
    case Unreachable => Failure(Transport)
    case Response(status, _, body) =>
      if !IsSuccess(status) then Failure(ServerError(status, body))
      else match body
        case Lost => Failure(Transport)
        case Received(text, json) =>
          if json.Some? && accepts(json.value) then Success(json.value)
          else Failure(JsonDeserializationFailed(text))
  }

  /** Reply handling of `_request`: 204 reads as `{}` without looking at
      the body; a decode failure is `JsonError`. */
  function FinishCall(reply: Reply, accepts: Shape): Result<Json, ParseError> {
    match reply
    case Unreachable => Failure(Transport)
    case Response(status, _, body) =>
      if !IsSuccess(status) then Failure(ServerError(status, body))
      else if status == 204 then
        (if accepts(Obj(map[])) then Success(Obj(map[])) else Failure(JsonError))
      else match body
        case Lost => Failure(Transport)
        case Received(_, json) =>
          if json.Some? && accepts(json.value) then Success(json.value) else Failure(JsonError)
  }

  function Finish(plan: RequestPlan, reply: Reply, accepts: Shape): Result<Json, ParseError> {
    if plan.Fetch? then FinishFetch(reply, accepts) else FinishCall(reply, accepts)
  }

  /** One round trip through the dispatch layer. */
  function Execute(c: ClientState, plan: RequestPlan, transport: Transport, accepts: Shape): Result<Json, ParseError> {
    match Prepare(c, plan)
    case Failure(e) => Failure(e)
    case Success(wire) => Finish(plan, transport(wire), accepts)
  }

  /** A request refused before sending gives the same error whatever the
      network would have done. */
  lemma PreflightSendsNothing(c: ClientState, plan: RequestPlan, t1: Transport, t2: Transport, accepts: Shape)
    requires Prepare(c, plan).Failure?
    ensures Execute(c, plan, t1, accepts) == Execute(c, plan, t2, accepts) == Failure(Prepare(c, plan).error)
  {
  }

  /** Reply handling alone: results are values of the expected shape,
      server errors come exactly from non-2xx replies and carry their
      status, and an unreachable server is a transport error. */
  lemma FinishOutcomes(plan: RequestPlan, reply: Reply, accepts: Shape)
    ensures var r := Finish(plan, reply, accepts);
            r.Success? ==> accepts(r.value)
    ensures var r := Finish(plan, reply, accepts);
            r.Failure? && r.error.Server? ==> reply.Response? && !IsSuccess(reply.status) && r.error.status == reply.status
    ensures reply.Unreachable? ==> Finish(plan, reply, accepts) == Failure(Transport)
    ensures plan.Call? && reply.Response? && reply.status == 204 && accepts(Obj(map[])) ==>
              Finish(plan, reply, accepts) == Success(Obj(map[]))
    ensures var r := Finish(plan, reply, accepts);
            plan.Fetch? && reply.Response? && IsSuccess(reply.status) && reply.body.Received? && r.Failure? ==>
              r.error == JsonDeserializationFailed(reply.body.text)
    ensures var r := Finish(plan, reply, accepts);
            plan.Call? && reply.Response? && IsSuccess(reply.status) && (reply.status == 204 || reply.body.Received?) && r.Failure? ==>
              r.error == JsonError
  {
  }

  /** The same for a whole round trip. */
  lemma ExecuteOutcomes(c: ClientState, plan: RequestPlan, transport: Transport, accepts: Shape)
    ensures var r := Execute(c, plan, transport, accepts);
            r.Success? ==> accepts(r.value)
    ensures var r := Execute(c, plan, transport, accepts);
            r.Failure? && r.error.Server? ==>
              Prepare(c, plan).Success? && var reply := transport(Prepare(c, plan).value);
              reply.Response? && !IsSuccess(reply.status) && r.error.status == reply.status
    ensures Prepare(c, plan).Success? && transport(Prepare(c, plan).value).Unreachable? ==>
              Execute(c, plan, transport, accepts) == Failure(Transport)
  {
    if Prepare(c, plan).Success? {
      FinishOutcomes(plan, transport(Prepare(c, plan).value), accepts);
    }
  }

  /** A non-2xx reply with a body is reported with the server's JSON, or
      with the fallback object when the body is not JSON. */
  lemma ServerErrorBody(plan: RequestPlan, status: int, reason: string, text: string, json: Option<Json>, accepts: Shape)
    requires !IsSuccess(status)
    ensures Finish(plan, Response(status, reason, Received(text, json)), accepts)
            == Failure(Server(status, if json.Some? then json.value else FallbackError(status, text)))
  {
  }
}
