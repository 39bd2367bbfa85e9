/** The generic verb wrappers and the response processor of src/requests.rs. */
module Requests {
  import opened Wrappers
  import opened Json
  import opened Errors
  import opened Strings
  import opened Dispatch

  /** `chars().take(n).collect()`. */
  function Take(s: string, n: nat): (r: string)
    ensures |r| <= n && |r| <= |s|
    ensures r == s[..|r|]
    ensures |s| <= n ==> r == s
  {
    if |s| <= n then s else s[..n]
  }

  /** The error object that stands in for a non-JSON error body. `statusText`
      is the status as `StatusCode` displays it (its number and canonical
      reason phrase). */
  function NonJsonErrorBody(statusText: string, text: string): (j: Json)
    ensures j.Obj? && j.fields.Keys == {"error", "body_snippet"}
    ensures j.fields["error"] == Str("HTTP Error " + statusText + " with non-JSON body")
    ensures j.fields["body_snippet"].Str? && |j.fields["body_snippet"].s| <= 100
    ensures HasPrefix(text, j.fields["body_snippet"].s)
  {
    Obj(map["error" := Str("HTTP Error " + statusText + " with non-JSON body"),
            "body_snippet" := Str(Take(text, 100))])
  }

  /** `_send_and_process_response`. `unitResult` says whether the expected
      type is `()`, which decodes only from `null`. */
  function ProcessResponse(status: int, statusText: string, body: Body, unitResult: bool, accepts: Shape): (r: Result<Json, ParseError>)
  {
    match body
    case Lost => Failure(Transport)
    case Received(text, json) =>
      if IsSuccess(status) then
        if (text == "" || text == "{}") && unitResult then Success(Null)
        else if json.Some? && accepts(json.value) then Success(json.value)
        else Failure(JsonDeserializationFailed(text))
      else
        Failure(Server(status, if json.Some? then json.value else NonJsonErrorBody(statusText, text)))
  }

  /** Non-success replies always reach `from_response` with their own
      status: a JSON body unchanged, anything else as the error object with
      a snippet of at most 100 characters. */
  lemma ProcessErrorReply(status: int, statusText: string, text: string, json: Option<Json>, unitResult: bool, accepts: Shape)
    requires !IsSuccess(status)
    ensures var r := ProcessResponse(status, statusText, Received(text, json), unitResult, accepts);
            r.Failure? && r.error.Server? && r.error.status == status
    ensures json.Some? ==>
              ProcessResponse(status, statusText, Received(text, json), unitResult, accepts) == Failure(Server(status, json.value))
    ensures json.None? ==>
              var b := ProcessResponse(status, statusText, Received(text, json), unitResult, accepts).error.body;
              b.fields["body_snippet"].s == Take(text, 100)
  {
  }

  /** Success replies: the empty bodies decode as `null` for a unit result;
      otherwise the result is the body's value when it has the expected
      shape, and a decode failure reports the body text. */
  lemma ProcessSuccessReply(status: int, statusText: string, text: string, json: Option<Json>, unitResult: bool, accepts: Shape)
    requires IsSuccess(status)
    ensures unitResult && (text == "" || text == "{}") ==>
              ProcessResponse(status, statusText, Received(text, json), unitResult, accepts) == Success(Null)
    ensures var r := ProcessResponse(status, statusText, Received(text, json), unitResult, accepts);
            r.Success? && r.value != Null ==> json == Some(r.value) && accepts(r.value)
    ensures var r := ProcessResponse(status, statusText, Received(text, json), unitResult, accepts);
            r.Failure? ==> r.error == JsonDeserializationFailed(text)
  {
  }

  // ---------------------------------------------------------------------
  // verb wrappers: `_request` with the master flag off and no override

  function GetPlan(endpoint: string): RequestPlan {
    Call(GET, endpoint, None, false, None)
  }

  function PostPlan(endpoint: string, data: Json): RequestPlan {
    Call(POST, endpoint, Some(data), false, None)
  }

  function PutPlan(endpoint: string, data: Json): RequestPlan {
    Call(PUT, endpoint, Some(data), false, None)
  }

  function DeletePlan(endpoint: string): RequestPlan {
    Call(DELETE, endpoint, None, false, None)
  }

  /** None of the wrappers asks for the master key or overrides the token,
      so none of them can fail before sending; only `post` and `put` carry
      a body. */
  lemma WrappersDelegate(c: ClientState, endpoint: string, data: Json)
    ensures forall p :: p in [GetPlan(endpoint), PostPlan(endpoint, data), PutPlan(endpoint, data), DeletePlan(endpoint)] ==>
              p.Call? && p.endpoint == endpoint && !p.useMasterKey && p.tokenOverride.None? && Prepare(c, p).Success?
    ensures GetPlan(endpoint).verb == GET && GetPlan(endpoint).body.None?
    ensures PostPlan(endpoint, data).verb == POST && PostPlan(endpoint, data).body == Some(data)
    ensures PutPlan(endpoint, data).verb == PUT && PutPlan(endpoint, data).body == Some(data)
    ensures DeletePlan(endpoint).verb == DELETE && DeletePlan(endpoint).body.None?
  {
  }

  /** `let _: Value = …?; Ok(())`: any successful reply is discarded and
      the error of a failed one passed on. */
  function Discard(response: Result<Json, ParseError>): (r: Result<(), ParseError>)
    ensures r.Success? <==> response.Success?
    ensures r.Failure? ==> r.error == response.error
  {
    match response
    case Success(_) => Success(())
    case Failure(e) => Failure(e)
  }
}
