/** Role management of src/role.rs: creating, reading and deleting a role,
    and editing its `users` and `roles` relations. */
module Role {
  import opened Wrappers
  import opened Json
  import opened Errors
  import opened Strings
  import opened Dispatch
  import opened Requests
  import opened Common
  import opened Acl
  import opened Objects
  import opened Relations

  /** `NewParseRole`: the name and the ACL a role is created with. */
  datatype NewRole = NewRole(name: string, acl: Permissions)

  /** `ParseRole`, with the members it does not name collected in `otherFields`. */
  datatype RoleData = RoleData(
    objectId: Option<string>,
    createdAt: Option<ParseDate>,
    updatedAt: Option<ParseDate>,
    name: string,
    acl: Permissions,
    otherFields: map<string, Json>)

  function NewRoleJson(r: NewRole): (j: Json)
    ensures j.Obj? && j.fields.Keys == {"name", "ACL"}
    ensures j.fields["name"] == Str(r.name)
    ensures AclFromJson(j.fields["ACL"]) == Some(Explicit(r.acl))
  {
    AclRoundTrip(r.acl);
    Obj(map["name" := Str(r.name), "ACL" := AclJson(r.acl)])
  }

  /** `CreateRoleResponse`: string `objectId` and `createdAt`. */
  predicate IsCreateRoleResponse(j: Json) {
    StringField(j, "objectId").Some? && StringField(j, "createdAt").Some?
  }

  /** The `ParseRole` a `get_role` reply must decode as: a string `name`,
      a readable `ACL`, an optional `objectId`, and both dates present but
      nullable. */
  predicate IsRoleReply(j: Json) {
    StringField(j, "name").Some? && "ACL" in j.fields && AclFromJson(j.fields["ACL"]).Some?
    && OptionalStr(j, "objectId") && NullableStr(j, "createdAt") && NullableStr(j, "updatedAt")
  }

  function RoleEndpoint(objectId: string): string {
    "roles/" + objectId
  }

  /** `id`s as pointers to objects of one class, in order. */
  function PointersTo(className: string, ids: seq<string>): (ps: seq<Pointer>)
    ensures |ps| == |ids|
    ensures forall i :: 0 <= i < |ids| ==> ps[i] == NewPointer(className, ids[i])
  {
    if |ids| == 0 then [] else [NewPointer(className, ids[0])] + PointersTo(className, ids[1..])
  }

  // ---------------------------------------------------------------------
  // create, read, delete

  /** `create_role`: POST `roles`, the master flag when a key is configured. */
  function CreateRolePlan(c: ClientState, newRole: NewRole): RequestPlan {
    Call(POST, "roles", Some(NewRoleJson(newRole)), c.masterKey.Some?, None)
  }

  /** The role `create_role` returns: the server's id and creation date,
      the name and ACL as they were sent, no update date and no other
      members. */
  function CreatedRole(newRole: NewRole, response: Result<Json, ParseError>): (r: Result<RoleData, ParseError>)
    requires response.Success? ==> IsCreateRoleResponse(response.value)
    ensures r.Success? <==> response.Success?
    ensures r.Failure? ==> r.error == response.error
    ensures r.Success? ==> r.value.name == newRole.name && r.value.acl == newRole.acl
    ensures r.Success? ==> r.value.objectId == StringField(response.value, "objectId")
                           && r.value.createdAt == Some(NewDate(StringField(response.value, "createdAt").value))
                           && r.value.updatedAt.None? && r.value.otherFields == map[]
  {
    match response
    case Success(j) =>
      Success(RoleData(Some(StringField(j, "objectId").value), Some(NewDate(StringField(j, "createdAt").value)),
                       None, newRole.name, newRole.acl, map[]))
    case Failure(e) => Failure(e)
  }

  /** `get_role`: no master flag, the stored token as override. */
  function GetRolePlan(c: ClientState, objectId: string): RequestPlan {
    Call(GET, RoleEndpoint(objectId), None, false, c.sessionToken)
  }

  function DeleteRolePlan(c: ClientState, objectId: string): RequestPlan {
    PreferMasterCall(c, DELETE, RoleEndpoint(objectId), None)
  }

  // ---------------------------------------------------------------------
  // relation edits

  const EmptyUsersAddMessage: string := "user_ids cannot be empty for AddRelation."
  const EmptyUsersRemoveMessage: string := "user_ids cannot be empty for RemoveRelation."
  const EmptyChildRolesMessage: string := "child_role_ids cannot be empty for AddRelation."

  /** `add_users_to_role` (adding) or `remove_users_from_role`: `_User`
      pointers under `users`. */
  function UsersEditPlan(c: ClientState, adding: bool, roleId: string, userIds: seq<string>): (r: Result<RequestPlan, ParseError>)
    ensures r.Failure? <==> |userIds| == 0
    ensures r.Failure? ==> r.error == InvalidInput(if adding then EmptyUsersAddMessage else EmptyUsersRemoveMessage)
    ensures r.Success? ==> r.value == PreferMasterCall(c, PUT, RoleEndpoint(roleId),
                                        Some(Single("users", RelationOpJson(EditOp(adding, PointersTo("_User", userIds))))))
  {
    if |userIds| == 0 then Failure(InvalidInput(if adding then EmptyUsersAddMessage else EmptyUsersRemoveMessage))
    else
      var body := Single("users", RelationOpJson(EditOp(adding, PointersTo("_User", userIds))));
      Success(PreferMasterCall(c, PUT, RoleEndpoint(roleId), Some(body)))
  }

  /** `add_child_roles_to_role`: `_Role` pointers under `roles`. */
  function AddChildRolesPlan(c: ClientState, roleId: string, childRoleIds: seq<string>): (r: Result<RequestPlan, ParseError>)
    ensures r.Failure? <==> |childRoleIds| == 0
    ensures r.Failure? ==> r.error == InvalidInput(EmptyChildRolesMessage)
    ensures r.Success? ==> r.value == PreferMasterCall(c, PUT, RoleEndpoint(roleId),
                                        Some(Single("roles", RelationOpJson(AddRelation(PointersTo("_Role", childRoleIds))))))
  {
    if |childRoleIds| == 0 then Failure(InvalidInput(EmptyChildRolesMessage))
    else
      var body := Single("roles", RelationOpJson(AddRelation(PointersTo("_Role", childRoleIds))));
      Success(PreferMasterCall(c, PUT, RoleEndpoint(roleId), Some(body)))
  }

  /** `remove_child_roles_from_role`: no emptiness check, and always the
      master flag with no override. */
  function RemoveChildRolesPlan(roleId: string, childRoleIds: seq<string>): RequestPlan {
    Call(PUT, RoleEndpoint(roleId), Some(Single("roles", RelationOpJson(RemoveRelation(PointersTo("_Role", childRoleIds))))), true, None)
  }

  // ---------------------------------------------------------------------
  // properties

  /** The body of each relation edit names one relation, carries the
      operation asked for, and its objects decode back to pointers to the
      given ids, in order. */
  lemma EditBodies(c: ClientState, adding: bool, roleId: string, ids: seq<string>)
    requires |ids| > 0
    ensures var b := UsersEditPlan(c, adding, roleId, ids).value.body.value;
            b.fields.Keys == {"users"}
            && b.fields["users"].fields["__op"] == Str(if adding then "AddRelation" else "RemoveRelation")
            && |b.fields["users"].fields["objects"].items| == |ids|
            && forall i :: 0 <= i < |ids| ==> PointerFromJson(b.fields["users"].fields["objects"].items[i]) == Some(Pointer("Pointer", "_User", ids[i]))
    ensures var b := AddChildRolesPlan(c, roleId, ids).value.body.value;
            b.fields.Keys == {"roles"} && b.fields["roles"].fields["__op"] == Str("AddRelation")
            && forall i :: 0 <= i < |ids| ==> PointerFromJson(b.fields["roles"].fields["objects"].items[i]) == Some(Pointer("Pointer", "_Role", ids[i]))
    ensures var b := RemoveChildRolesPlan(roleId, ids).body.value;
            b.fields.Keys == {"roles"} && b.fields["roles"].fields["__op"] == Str("RemoveRelation")
            && forall i :: 0 <= i < |ids| ==> PointerFromJson(b.fields["roles"].fields["objects"].items[i]) == Some(Pointer("Pointer", "_Role", ids[i]))
  {
  }

  /** Every role call but the removal of child roles reaches the network
      whatever the client holds, and sends just what the plain wrapper with
      no flag and no override would; their flag and override choices make
      no difference on the wire. */
  lemma RoleCallsArePlain(c: ClientState, newRole: NewRole, objectId: string)
    ensures Prepare(c, CreateRolePlan(c, newRole)) == Prepare(c, Call(POST, "roles", Some(NewRoleJson(newRole)), false, None))
    ensures Prepare(c, GetRolePlan(c, objectId)) == Prepare(c, GetPlan(RoleEndpoint(objectId)))
    ensures Prepare(c, DeleteRolePlan(c, objectId)) == Prepare(c, DeletePlan(RoleEndpoint(objectId)))
    ensures Prepare(c, GetPlan(RoleEndpoint(objectId))).Success?
  {
    PreferMasterIsPlain(c, DELETE, RoleEndpoint(objectId), None);
    PreferMasterIsPlain(c, GET, RoleEndpoint(objectId), None);
    PreferMasterIsPlain(c, POST, "roles", Some(NewRoleJson(newRole)));
    var create := CreateRolePlan(c, newRole);
    if c.sessionToken.None? && c.masterKey.Some? {
      assert Merge(DefaultHeaders(c), RequestHeaders(POST, RequestCredential(c, true, None).value))
          == Merge(DefaultHeaders(c), RequestHeaders(POST, None));
    }
  }

  /** Removing child roles is the one role call that can be refused before
      sending: without a session token and without a master key. It is
      sent even for an empty list of ids. */
  lemma RemoveChildRolesPreflight(c: ClientState, roleId: string, childRoleIds: seq<string>)
    ensures Prepare(c, RemoveChildRolesPlan(roleId, childRoleIds)).Failure? <==> c.sessionToken.None? && c.masterKey.None?
    ensures Prepare(c, RemoveChildRolesPlan(roleId, childRoleIds)).Failure? ==>
              Prepare(c, RemoveChildRolesPlan(roleId, childRoleIds)).error == MasterKeyRequired(RequestMasterKeyMessage)
  {
  }

  /** Deleting a role succeeds on any successful reply, whatever its body. */
  lemma DeleteRoleDiscards(c: ClientState, objectId: string, transport: Transport)
    ensures Discard(Execute(c, DeleteRolePlan(c, objectId), transport, AnyValue)).Success?
            <==> Execute(c, DeleteRolePlan(c, objectId), transport, AnyValue).Success?
  {
  }
}
