/** Relation edits of src/relations.rs: `add_to_relation` and
    `remove_from_relation` send a PUT to the parent object whose body holds
    one `AddRelation` or `RemoveRelation` operation under the relation key.
    The credential rule they share with most of the role calls is defined
    here as well. */
module Relations {
  import opened Wrappers
  import opened Json
  import opened Errors
  import opened Dispatch
  import opened Common
  import opened Objects

  // ---------------------------------------------------------------------
  // the shared credential rule

  /** The master flag exactly when a master key is configured, and the
      stored token as override only when it is not. */
  function PreferMasterCall(c: ClientState, verb: HttpMethod, endpoint: string, body: Option<Json>): (p: RequestPlan)
    ensures p.Call? && p.verb == verb && p.endpoint == endpoint && p.body == body
    ensures p.useMasterKey <==> c.masterKey.Some?
    ensures p.tokenOverride == if c.masterKey.Some? then None else c.sessionToken
  {
    var useMasterKey := c.masterKey.Some?;
    Call(verb, endpoint, body, useMasterKey, if useMasterKey then None else c.sessionToken)
  }

  /** The choice makes no difference on the wire: `_request` prefers the
      stored token anyway, and the master key it would add is already
      among the default headers. So the request is the one the plain
      wrapper (no flag, no override) sends, and it is never refused before
      sending. */
  lemma PreferMasterIsPlain(c: ClientState, verb: HttpMethod, endpoint: string, body: Option<Json>)
    ensures Prepare(c, PreferMasterCall(c, verb, endpoint, body)) == Prepare(c, Call(verb, endpoint, body, false, None))
    ensures Prepare(c, Call(verb, endpoint, body, false, None)).Success?
  {
    var p := PreferMasterCall(c, verb, endpoint, body);
    var d := DefaultHeaders(c);
    var credP := RequestCredential(c, p.useMasterKey, p.tokenOverride).value;
    var credPlain := RequestCredential(c, false, None).value;
    if c.sessionToken.Some? {
      assert credP == credPlain;
    } else if c.masterKey.Some? {
      assert credPlain.None?;
      assert Merge(d, RequestHeaders(verb, credP)) == Merge(d, RequestHeaders(verb, credPlain));
    } else {
      assert credP == credPlain;
    }
  }

  // ---------------------------------------------------------------------
  // relation edits

  const EmptyAddTargetsMessage: string := "targets cannot be empty for AddRelation operation."
  const EmptyRemoveTargetsMessage: string := "targets cannot be empty for RemoveRelation operation."
  const EmptyPartsMessage: string := "parent_class_name, parent_object_id, and relation_key cannot be empty."

  /** `add_to_relation` (adding) or `remove_from_relation`. */
  function RelationEditPlan(c: ClientState, adding: bool, parentClassName: string, parentObjectId: string,
                            relationKey: string, targets: seq<Pointer>): (r: Result<RequestPlan, ParseError>)
    ensures r.Failure? <==> |targets| == 0 || parentClassName == "" || parentObjectId == "" || relationKey == ""
    ensures |targets| == 0 ==>
              r == Failure(InvalidInput(if adding then EmptyAddTargetsMessage else EmptyRemoveTargetsMessage))
    ensures |targets| > 0 && r.Failure? ==> r == Failure(InvalidInput(EmptyPartsMessage))
    ensures r.Success? ==> r.value == PreferMasterCall(c, PUT, "classes/" + parentClassName + "/" + parentObjectId,
                                                       Some(Single(relationKey, RelationOpJson(EditOp(adding, targets)))))
  {
    if |targets| == 0 then
      Failure(InvalidInput(if adding then EmptyAddTargetsMessage else EmptyRemoveTargetsMessage))
    else if parentClassName == "" || parentObjectId == "" || relationKey == "" then
      Failure(InvalidInput(EmptyPartsMessage))
    else
      var endpoint := "classes/" + parentClassName + "/" + parentObjectId;
      var body := Single(relationKey, RelationOpJson(EditOp(adding, targets)));
      Success(PreferMasterCall(c, PUT, endpoint, Some(body)))
  }

  function EditOp(adding: bool, targets: seq<Pointer>): RelationOp {
    if adding then AddRelation(targets) else RemoveRelation(targets)
  }

  /** The body names exactly the relation key, its operation is the one
      asked for, and its objects decode back to the targets in order. */
  lemma RelationEditBody(c: ClientState, adding: bool, parentClassName: string, parentObjectId: string,
                         relationKey: string, targets: seq<Pointer>)
    requires RelationEditPlan(c, adding, parentClassName, parentObjectId, relationKey, targets).Success?
    ensures var b := RelationEditPlan(c, adding, parentClassName, parentObjectId, relationKey, targets).value.body.value;
            b.Obj? && b.fields.Keys == {relationKey}
            && b.fields[relationKey].fields["__op"] == Str(if adding then "AddRelation" else "RemoveRelation")
            && |b.fields[relationKey].fields["objects"].items| == |targets|
            && forall i :: 0 <= i < |targets| ==> PointerFromJson(b.fields[relationKey].fields["objects"].items[i]) == Some(targets[i])
  {
  }

  /** A relation edit that passes its guards always reaches the network,
      and exactly as a plain PUT to the parent object would. */
  lemma RelationEditSends(c: ClientState, adding: bool, parentClassName: string, parentObjectId: string,
                          relationKey: string, targets: seq<Pointer>)
    requires RelationEditPlan(c, adding, parentClassName, parentObjectId, relationKey, targets).Success?
    ensures var p := RelationEditPlan(c, adding, parentClassName, parentObjectId, relationKey, targets).value;
            Prepare(c, p).Success? && Prepare(c, p) == Prepare(c, Call(PUT, p.endpoint, p.body, false, None))
  {
    var p := RelationEditPlan(c, adding, parentClassName, parentObjectId, relationKey, targets).value;
    PreferMasterIsPlain(c, PUT, p.endpoint, p.body);
  }

  /** `ParseDate::new(response.updated_at)`: the date of a successful edit. */
  function UpdatedDate(response: Result<Json, ParseError>): (r: Result<ParseDate, ParseError>)
    requires response.Success? ==> IsUpdateObjectResponse(response.value)
    ensures r.Success? <==> response.Success?
    ensures r.Success? ==> r.value == NewDate(StringField(response.value, "updatedAt").value)
    ensures r.Failure? ==> r.error == response.error
  {
    match response
    case Success(j) => Success(NewDate(StringField(j, "updatedAt").value))
    case Failure(e) => Failure(e)
  }
}
