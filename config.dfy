/** Server configuration of src/config.rs: both calls need a configured
    master key, checked before anything else, and target `config` with the
    master flag. */
module Config {
  import opened Wrappers
  import opened Json
  import opened Errors
  import opened Dispatch

  const GetConfigMessage: string := "Master key is required to get server configuration."
  const UpdateConfigMessage: string := "Master key is required to update server configuration."
  const EmptyParamsMessage: string := "params_to_update cannot be empty for update_config."

  /** `ParseConfig`: a `params` object. */
  predicate IsParseConfig(j: Json) {
    j.Obj? && "params" in j.fields && j.fields["params"].Obj?
  }

  /** `UpdateConfigResponse`: a boolean `result`. */
  predicate IsUpdateConfigResponse(j: Json) {
    j.Obj? && "result" in j.fields && j.fields["result"].Bool?
  }

  /** `get_config`. */
  function GetConfigPlan(c: ClientState): (r: Result<RequestPlan, ParseError>)
    ensures r.Failure? <==> c.masterKey.None?
    ensures r.Failure? ==> r.error == MasterKeyRequired(GetConfigMessage)
    ensures r.Success? ==> r.value == Call(GET, "config", None, true, None)
  {
    if c.masterKey.None? then Failure(MasterKeyRequired(GetConfigMessage))
    else Success(Call(GET, "config", None, true, None))
  }

  /** `update_config`: the master key is checked first, then that there is
      something to update; the parameters go wrapped as `{"params": …}`. */
  function UpdateConfigPlan(c: ClientState, paramsToUpdate: map<string, Json>): (r: Result<RequestPlan, ParseError>)
    ensures r.Failure? <==> c.masterKey.None? || paramsToUpdate == map[]
    ensures c.masterKey.None? ==> r == Failure(MasterKeyRequired(UpdateConfigMessage))
    ensures c.masterKey.Some? && paramsToUpdate == map[] ==> r == Failure(InvalidInput(EmptyParamsMessage))
    ensures r.Success? ==> r.value.Call? && r.value.verb == PUT && r.value.endpoint == "config"
                           && r.value.useMasterKey && r.value.tokenOverride.None?
    ensures r.Success? ==> r.value.body == Some(Single("params", Obj(paramsToUpdate)))
  {
    if c.masterKey.None? then Failure(MasterKeyRequired(UpdateConfigMessage))
    else if paramsToUpdate == map[] then Failure(InvalidInput(EmptyParamsMessage))
    else Success(Call(PUT, "config", Some(Single("params", Obj(paramsToUpdate))), true, None))
  }

  /** A configuration call that passes its guard always reaches the
      network, with the master key among its headers and, when the client
      holds a session token, that token as the credential `_request`
      prefers. */
  lemma ConfigCallsCarryMasterKey(c: ClientState, paramsToUpdate: map<string, Json>)
    requires c.masterKey.Some?
    ensures var w := Prepare(c, GetConfigPlan(c).value);
            w.Success? && w.value.headers.masterKey == c.masterKey && w.value.headers.sessionToken == c.sessionToken
    ensures paramsToUpdate != map[] ==>
              var w := Prepare(c, UpdateConfigPlan(c, paramsToUpdate).value);
              w.Success? && w.value.headers.masterKey == c.masterKey && w.value.headers.sessionToken == c.sessionToken
              && w.value.headers.contentType == Some(JsonMime)
  {
    CallWireHeaders(c, GET, "config", None, true, None);
    if paramsToUpdate != map[] {
      CallWireHeaders(c, PUT, "config", Some(Single("params", Obj(paramsToUpdate))), true, None);
    }
  }
}
