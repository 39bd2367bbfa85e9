/** The client object of src/client.rs: base-URL normalisation in
    `Parse::new`, the one field that changes afterwards (the session
    token), the upload URL and headers of `upload_file`, the master-key
    prechecks, and the request plans of `execute_aggregate`,
    `execute_query` and `find_objects`. Header choice and response
    handling of the two request helpers are in the Dispatch module. */
module Client {
  import opened Wrappers
  import opened Json
  import opened Errors
  import opened Strings
  import opened Dispatch
  import opened QueryValues
  import opened Objects

  // ---------------------------------------------------------------------
  // base URL

  /** What `Url::parse` reports about a string: its serialisation, scheme,
      host, explicit non-default port and whether it can be a base. */
  datatype UrlParse =
    | Unparseable
    | Parsed(serialization: string, scheme: string, host: Option<string>, port: Option<nat>, cannotBeABase: bool)

  type UrlParser = string -> UrlParse

  const EmptyBaseMessage: string :=
    "Server URL became empty after stripping /parse and could not be reconstructed."

  function CannotBeABaseMessage(serverUrl: string, resolved: string): string {
    "The server_url '" + serverUrl + "' (after ensuring scheme) resolved to '" + resolved
    + "', which cannot be a base URL. Please provide a full base URL (e.g., http://localhost:1337/parse)."
  }

  /** `http://` is put in front unless one of the two schemes is already there. */
  function WithScheme(serverUrl: string): (r: string)
    ensures HasPrefix(r, "http://") || HasPrefix(r, "https://")
    ensures HasPrefix(serverUrl, "http://") || HasPrefix(serverUrl, "https://") ==> r == serverUrl
    ensures !(HasPrefix(serverUrl, "http://") || HasPrefix(serverUrl, "https://")) ==> r == "http://" + serverUrl
  {
    if !HasPrefix(serverUrl, "http://") && !HasPrefix(serverUrl, "https://") then "http://" + serverUrl
    else serverUrl
  }

  /** One trailing `/parse` removed, if there is one. */
  function StripParse(s: string): (r: string)
    ensures HasSuffix(s, "/parse") ==> r + "/parse" == s
    ensures !HasSuffix(s, "/parse") ==> r == s
  {
    if HasSuffix(s, "/parse") then s[..|s| - 6] else s
  }

  /** `scheme://host[:port]`. */
  function Origin(scheme: string, host: string, port: Option<nat>): string {
    scheme + "://" + host + (if port.Some? then ":" + NatDecimal(port.value) else "")
  }

  /** The last step of `Parse::new`: the rebuild test reads
      `(empty && scheme == "http") || scheme == "https"`, as the operators
      bind, and a rebuild needs a host. */
  function SettleBase(stripped: string, scheme: string, host: Option<string>, port: Option<nat>): Result<string, ParseError> {
    if (stripped == "" && scheme == "http") || scheme == "https" then
      if host.Some? then Success(Origin(scheme, host.value, port))
      else Failure(SdkError(EmptyBaseMessage))
    else Success(stripped)
  }

  function BaseFromParse(serverUrl: string, p: UrlParse): Result<string, ParseError> {
    match p
    case Unparseable => Failure(InvalidUrl)
    case Parsed(ser, scheme, host, port, cannotBeABase) =>
      if cannotBeABase then Failure(SdkError(CannotBeABaseMessage(serverUrl, ser)))
      else SettleBase(StripParse(TrimEnd(ser, '/')), scheme, host, port)
  }

  /** The stored base URL, or the error `Parse::new` returns. */
  function ServerBase(serverUrl: string, parse: UrlParser): Result<string, ParseError> {
    BaseFromParse(serverUrl, parse(WithScheme(serverUrl)))
  }

  /** Outside the rebuild branch the base is the parsed URL without its
      trailing slashes and at most one trailing `/parse`. */
  lemma ServerBaseHttp(serverUrl: string, parse: UrlParser)
    requires parse(WithScheme(serverUrl)).Parsed?
    requires !parse(WithScheme(serverUrl)).cannotBeABase
    requires parse(WithScheme(serverUrl)).scheme != "https"
    requires StripParse(TrimEnd(parse(WithScheme(serverUrl)).serialization, '/')) != ""
    ensures var ser := parse(WithScheme(serverUrl)).serialization;
            var b := ServerBase(serverUrl, parse);
            b.Success? && (b.value == TrimEnd(ser, '/') || b.value + "/parse" == TrimEnd(ser, '/'))
  {
  }

  /** Every `https` URL is rebuilt from its scheme, host and port, whatever
      path it had; without a host it is an error. */
  lemma HttpsDropsPath(serverUrl: string, parse: UrlParser)
    requires parse(WithScheme(serverUrl)).Parsed?
    requires !parse(WithScheme(serverUrl)).cannotBeABase
    requires parse(WithScheme(serverUrl)).scheme == "https"
    ensures var p := parse(WithScheme(serverUrl));
            ServerBase(serverUrl, parse) ==
              if p.host.Some? then Success(Origin("https", p.host.value, p.port)) else Failure(SdkError(EmptyBaseMessage))
  {
  }

  /** The same sub-path over `http` and over `https`: the first keeps it,
      the second loses it. */
  lemma SubPathKeptOnlyOverHttp()
    ensures StripParse(TrimEnd("http://h/app/parse", '/')) == "http://h/app"
    ensures SettleBase("http://h/app", "http", Some("h"), None) == Success("http://h/app")
    ensures SettleBase("https://h/app", "https", Some("h"), None) == Success("https://h")
  {
    assert TrimEnd("http://h/app/parse", '/') == "http://h/app/parse";
    assert HasSuffix("http://h/app/parse", "/parse");
    assert "http://h/app/parse"[..12] == "http://h/app";
    assert Origin("https", "h", None) == "https://h";
  }

  /** The client object. Only `sessionToken` changes after construction. */
  class Parse {
    const serverUrl: string
    const appId: string
    const javascriptKey: Option<string>
    const restApiKey: Option<string>
    const masterKey: Option<string>
    var sessionToken: Option<string>

    /** The configuration a request is planned from. */
    function State(): ClientState
      reads this
    {
      ClientState(serverUrl, appId, javascriptKey, restApiKey, masterKey, sessionToken)
    }

    /** The fields `Parse::new` stores once the URL is settled. */
    constructor (serverUrl: string, appId: string, javascriptKey: Option<string>, restApiKey: Option<string>, masterKey: Option<string>)
      ensures State() == ClientState(serverUrl, appId, javascriptKey, restApiKey, masterKey, None)
    {
      this.serverUrl := serverUrl;
      this.appId := appId;
      this.javascriptKey := javascriptKey;
      this.restApiKey := restApiKey;
      this.masterKey := masterKey;
      sessionToken := None;
    }

    /** `_set_session_token`. */
    method SetSessionToken(token: Option<string>)
      modifies this
      ensures State() == old(State()).(sessionToken := token)
    {
      sessionToken := token;
    }

    function SessionToken(): (t: Option<string>)
      reads this
      ensures t == State().sessionToken
    {
      sessionToken
    }

    function IsAuthenticated(): (b: bool)
      reads this
      ensures b <==> State().sessionToken.Some?
    {
      sessionToken.Some?
    }
  }

  /** `Parse::new`: the scheme ensured, the URL parsed and settled, then
      the client built with no session token. */
  method New(serverUrl: string, appId: string, javascriptKey: Option<string>, restApiKey: Option<string>,
             masterKey: Option<string>, parse: UrlParser) returns (r: Result<Parse, ParseError>)
    ensures r.Failure? ==> ServerBase(serverUrl, parse) == Failure(r.error)
    ensures r.Success? ==> ServerBase(serverUrl, parse).Success? && fresh(r.value)
    ensures r.Success? ==> r.value.State() == ClientState(ServerBase(serverUrl, parse).value, appId, javascriptKey, restApiKey, masterKey, None)
  {
    var tempUrl := serverUrl;
    if !HasPrefix(tempUrl, "http://") && !HasPrefix(tempUrl, "https://") {
      tempUrl := "http://" + tempUrl;
    }
    assert tempUrl == WithScheme(serverUrl);
    var parsed := parse(tempUrl);
    var finalUrl := SettleServerUrl(serverUrl, parsed);
    if finalUrl.Failure? {
      return Failure(finalUrl.error);
    }
    var client := new Parse(finalUrl.value, appId, javascriptKey, restApiKey, masterKey);
    r := Success(client);
  }

  /** The part of `Parse::new` after `Url::parse`: refuse a URL that cannot
      be a base, trim the trailing slashes, cut one `/parse`, and rebuild
      from scheme, host and port when the test says so. */
  method SettleServerUrl(serverUrl: string, parsed: UrlParse) returns (r: Result<string, ParseError>)
    ensures r == BaseFromParse(serverUrl, parsed)
  {
    if parsed.Unparseable? {
      return Failure(InvalidUrl);
    }
    if parsed.cannotBeABase {
      return Failure(SdkError(CannotBeABaseMessage(serverUrl, parsed.serialization)));
    }
    var finalUrl := TrimEnd(parsed.serialization, '/');
    if HasSuffix(finalUrl, "/parse") {
      finalUrl := finalUrl[..|finalUrl| - 6];
    }
    assert finalUrl == StripParse(TrimEnd(parsed.serialization, '/'));
    if (finalUrl == "" && parsed.scheme == "http") || parsed.scheme == "https" {
      if parsed.host.Some? {
        finalUrl := parsed.scheme + "://" + parsed.host.value;
        if parsed.port.Some? {
          finalUrl := finalUrl + (":" + NatDecimal(parsed.port.value));
        } else {
          assert finalUrl + "" == finalUrl;
        }
      } else {
        return Failure(SdkError(EmptyBaseMessage));
      }
    }
    r := Success(finalUrl);
  }

  // ---------------------------------------------------------------------
  // upload_file

  /** The upload URL: under the stored URL when it already ends in
      `/parse` (or `/parse/`), under `/parse` added to it otherwise. */
  function UploadFileUrl(serverUrl: string, fileName: string): string {
    var segment := "files/" + fileName;
    if HasSuffix(serverUrl, "/parse") || HasSuffix(serverUrl, "/parse/") then
      TrimEnd(serverUrl, '/') + "/" + TrimStart(segment, '/')
    else
      TrimEnd(serverUrl, '/') + "/parse/" + TrimStart(segment, '/')
  }

  lemma SuffixOfConcat(a: string, b: string)
    ensures HasSuffix(a + b, b)
  {
    assert (a + b)[|a + b| - |b|..] == b;
  }

  /** Trailing slashes stop at the `e` of `/parse`. */
  lemma TrimKeepsParse(s: string)
    requires HasSuffix(s, "/parse") || HasSuffix(s, "/parse/")
    ensures HasSuffix(TrimEnd(s, '/'), "/parse")
  {
    if HasSuffix(s, "/parse/") {
      var t := s[..|s| - 1];
      assert s[|s| - 1] == '/';
      assert TrimEnd(s, '/') == TrimEnd(t, '/');
      assert t[|t| - 6..] == s[|s| - 7..|s| - 1];
      assert HasSuffix(t, "/parse");
      assert t[|t| - 1] == 'e';
      assert TrimEnd(t, '/') == t;
    } else {
      assert s[|s| - 1] == 'e';
    }
  }

  /** A stored URL ending in `/parse` (or `/parse/`) gets `/files/{name}`
      after its trimmed form, which already ends in `/parse`. */
  lemma UploadUrlParseBranch(serverUrl: string, fileName: string)
    requires HasSuffix(serverUrl, "/parse") || HasSuffix(serverUrl, "/parse/")
    ensures UploadFileUrl(serverUrl, fileName) == TrimEnd(serverUrl, '/') + "/files/" + fileName
    ensures HasSuffix(UploadFileUrl(serverUrl, fileName), "/parse/files/" + fileName)
  {
    var segment := "files/" + fileName;
    assert TrimStart(segment, '/') == segment by {
      assert segment[0] == 'f';
    }
    TrimKeepsParse(serverUrl);
    ParseTail(TrimEnd(serverUrl, '/'), fileName);
  }

  lemma ParseTail(base: string, fileName: string)
    requires HasSuffix(base, "/parse")
    ensures HasSuffix(base + "/files/" + fileName, "/parse/files/" + fileName)
  {
    var stem := base[..|base| - 6];
    assert base == stem + "/parse";
    assert base + "/files/" + fileName == stem + ("/parse/files/" + fileName);
    SuffixOfConcat(stem, "/parse/files/" + fileName);
  }

  /** Any other stored URL gets `/parse/files/{name}` after its trimmed form. */
  lemma UploadUrlOtherBranch(serverUrl: string, fileName: string)
    requires !(HasSuffix(serverUrl, "/parse") || HasSuffix(serverUrl, "/parse/"))
    ensures UploadFileUrl(serverUrl, fileName) == TrimEnd(serverUrl, '/') + "/parse/files/" + fileName
    ensures HasSuffix(UploadFileUrl(serverUrl, fileName), "/parse/files/" + fileName)
  {
    var segment := "files/" + fileName;
    assert TrimStart(segment, '/') == segment by {
      assert segment[0] == 'f';
    }
    var base := TrimEnd(serverUrl, '/');
    assert base + "/parse/" + segment == base + ("/parse/files/" + fileName);
    SuffixOfConcat(base, "/parse/files/" + fileName);
  }

  /** The headers `upload_file` sets itself: the app id, the session token
      or else the master key, and the given MIME type. */
  function UploadHeaders(c: ClientState, mimeType: string): (h: Headers)
    ensures h.appId == Some(c.appId) && h.contentType == Some(mimeType)
    ensures h.sessionToken == c.sessionToken
    ensures h.masterKey == if c.sessionToken.Some? then None else c.masterKey
    ensures h.javascriptKey.None? && h.restApiKey.None?
  {
    var token, master := Token(c.sessionToken), MasterKeyIf(true, c.masterKey);
    FirstPresentCons(master, []);
    assert [token, master] == [token] + [master];
    FirstPresentCons(token, [master]);
    CredentialHeaders(FirstPresent([token, master]))
      .(appId := Some(c.appId), contentType := Some(mimeType))
  }

  /** The POST `upload_file` sends, after the client's default headers. */
  datatype Upload = Upload(url: string, headers: Headers, mimeType: string)

  function UploadRequest(c: ClientState, fileName: string, mimeType: string, parse: UrlParser): (r: Result<Upload, ParseError>)
    ensures r.Failure? <==> parse(UploadFileUrl(c.serverUrl, fileName)).Unparseable?
    ensures r.Failure? ==> r.error == InvalidUrl
    ensures r.Success? ==> r.value.url == UploadFileUrl(c.serverUrl, fileName)
    ensures r.Success? ==> r.value.headers == Merge(DefaultHeaders(c), UploadHeaders(c, mimeType))
  {
    var url := UploadFileUrl(c.serverUrl, fileName);
    if parse(url).Unparseable? then Failure(InvalidUrl)
    else Success(Upload(url, Merge(DefaultHeaders(c), UploadHeaders(c, mimeType)), mimeType))
  }

  /** The upload carries exactly the stored session token and exactly the
      configured master key (from the defaults, or as the upload's own
      choice when there is no token), the application id and the MIME type. */
  lemma UploadCredentials(c: ClientState, fileName: string, mimeType: string, parse: UrlParser)
    requires UploadRequest(c, fileName, mimeType, parse).Success?
    ensures var h := UploadRequest(c, fileName, mimeType, parse).value.headers;
            h.sessionToken == c.sessionToken && h.masterKey == c.masterKey
            && h.contentType == Some(mimeType) && h.appId == Some(c.appId)
  {
  }

  // ---------------------------------------------------------------------
  // master-key prechecks

  const DeleteMasterKeyMessage: string := "Master key is required for delete_with_master_key but not configured."

  /** `delete_object_with_master_key`: refuses without a master key, then
      DELETE through `_request` with the master flag. */
  function DeleteWithMasterKeyPlan(c: ClientState, endpoint: string): (r: Result<RequestPlan, ParseError>)
    ensures r.Failure? <==> c.masterKey.None?
    ensures r.Failure? ==> r.error == MasterKeyRequired(DeleteMasterKeyMessage)
    ensures r.Success? ==> r.value == Call(DELETE, endpoint, None, true, None)
  {
    if c.masterKey.None? then Failure(MasterKeyRequired(DeleteMasterKeyMessage))
    else Success(Call(DELETE, endpoint, None, true, None))
  }

  /** The schema calls. */
  datatype SchemaCall =
    | CreateSchema(className: string, payload: Json)
    | UpdateSchema(className: string, payload: Json)
    | GetSchema(className: string)
    | DeleteSchema(className: string)
    | GetAllSchemas

  function SchemaMessage(call: SchemaCall): string {
    match call
    case CreateSchema(cn, _) => "Master key is required to create schema for class '" + cn + "'."
    case UpdateSchema(cn, _) => "Master key is required to update schema for class '" + cn + "'."
    case GetSchema(cn) => "Master key is required to fetch schema for class '" + cn + "'."
    case DeleteSchema(cn) => "Master key is required to delete schema for class '" + cn + "'."
    case GetAllSchemas => "Master key is required to fetch all schemas."
  }

  /** Every schema call refuses without a master key and otherwise goes to
      `schemas[/{class}]` with the master flag and no override. */
  function SchemaPlan(c: ClientState, call: SchemaCall): (r: Result<RequestPlan, ParseError>)
    ensures r.Failure? <==> c.masterKey.None?
    ensures r.Failure? ==> r.error == MasterKeyRequired(SchemaMessage(call))
    ensures r.Success? ==> r.value.Call? && r.value.useMasterKey && r.value.tokenOverride.None?
    ensures r.Success? && !call.GetAllSchemas? ==> r.value.endpoint == "schemas/" + call.className
    ensures r.Success? && call.GetAllSchemas? ==> r.value.endpoint == "schemas"
  {
    if c.masterKey.None? then Failure(MasterKeyRequired(SchemaMessage(call)))
    else
      match call
      case CreateSchema(cn, payload) => Success(Call(POST, "schemas/" + cn, Some(payload), true, None))
      case UpdateSchema(cn, payload) => Success(Call(PUT, "schemas/" + cn, Some(payload), true, None))
      case GetSchema(cn) => Success(Call(GET, "schemas/" + cn, None, true, None))
      case DeleteSchema(cn) => Success(Call(DELETE, "schemas/" + cn, None, true, None))
      case GetAllSchemas => Success(Call(GET, "schemas", None, true, None))
  }

  /** With a master key configured the planned call also passes `_request`'s
      own precheck, so the only refusal is the schema call's. */
  lemma SchemaPlanPrepares(c: ClientState, call: SchemaCall)
    requires c.masterKey.Some?
    ensures Prepare(c, SchemaPlan(c, call).value).Success?
  {
  }

  // ---------------------------------------------------------------------
  // queries through the client

  /** `execute_aggregate`: the pipeline as the one parameter, master flag set. */
  function AggregateRequest(className: string, pipeline: Json): (p: RequestPlan)
    ensures p.Fetch? && p.endpoint == AggregateEndpoint(className) && p.useMasterKey && p.tokenOverride.None?
    ensures p.params == [Param("pipeline", JsonText(pipeline))]
  {
    Fetch(AggregateEndpoint(className), [Param("pipeline", JsonText(pipeline))], true, None)
  }

  /** `distinct` is the aggregate of its own two-stage pipeline. */
  lemma DistinctIsAggregate(q: QueryState, field: string)
    ensures DistinctRequest(q, field) == AggregateRequest(q.className, Arr(DistinctPipeline(q.conditions, field)))
  {
  }

  /** `execute_query` (and so `find_objects`): the query's parameters and
      master flag, with the client's stored token as the override. */
  function ExecuteQueryRequest(c: ClientState, q: QueryState): (p: RequestPlan)
    ensures p == FindRequest(q).(tokenOverride := c.sessionToken)
  {
    Fetch(ClassEndpoint(q.className), QueryParams(q), q.useMasterKey, c.sessionToken)
  }

  /** `ParseQuery::find` and `execute_query` send the same parameters, but a
      master-flagged query of a logged-in client authenticates with the
      master key in the first and with the session token in the second. */
  lemma QueryCredentialsDiffer(c: ClientState, q: QueryState)
    requires q.useMasterKey && c.masterKey.Some? && c.sessionToken.Some?
    ensures Prepare(c, FindRequest(q)).Success? && Prepare(c, ExecuteQueryRequest(c, q)).Success?
    ensures Prepare(c, FindRequest(q)).value.query == Prepare(c, ExecuteQueryRequest(c, q)).value.query
    ensures GetCredential(c, true, None) == Success(Some(MasterKey(c.masterKey.value)))
    ensures GetCredential(c, true, c.sessionToken) == Success(Some(SessionToken(c.sessionToken.value)))
  {
  }

  /** `find_objects`: every decoded object gets the query's class name, in
      place; nothing else about the objects changes. */
  method StampClassName(objects: array<ObjectData>, className: string)
    modifies objects
    ensures forall i :: 0 <= i < objects.Length ==> objects[i] == old(objects[i]).(className := className)
  {
    var k := 0;
    while k < objects.Length
      invariant 0 <= k <= objects.Length
      invariant forall i :: 0 <= i < k ==> objects[i] == old(objects[i]).(className := className)
      invariant forall i :: k <= i < objects.Length ==> objects[i] == old(objects[i])
    {
      objects[k] := objects[k].(className := className);
      k := k + 1;
    }
  }

  /** A caller's view of the session-token field. */
  method ClientScenario(parse: UrlParser) {
    var r := New("localhost:1337/parse", "app", None, None, Some("mk"), parse);
    if r.Success? {
      var client := r.value;
      assert !client.IsAuthenticated();
      client.SetSessionToken(Some("r:abc"));
      assert client.IsAuthenticated() && client.State().masterKey == Some("mk");
      client.SetSessionToken(None);
      assert !client.IsAuthenticated();
    }
  }
}
