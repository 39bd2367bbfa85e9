/** Parse objects (src/object.rs): the `ParseObject` record whose field map
    the setters and field operations update in place, the guards the CRUD
    calls run before sending, and the check on the delete response. */
module Objects {
  import opened Wrappers
  import opened Json
  import opened Errors
  import opened Common
  import opened Acl
  import opened Dispatch
  import opened Requests

  /** `i64`. */
  const I64Min: int := -0x8000_0000_0000_0000
  type I64 = x: int | I64Min <= x < 0x8000_0000_0000_0000

  /** The value of a `ParseObject`: its id, timestamps, flattened fields,
      ACL, and the class name it is used with (never serialised). */
  datatype ObjectData = ObjectData(
    objectId: Option<string>,
    createdAt: Option<ParseDate>,
    updatedAt: Option<ParseDate>,
    fields: map<string, Json>,
    acl: Option<Permissions>,
    className: string)

  /** `ParseObject::new`: the class name and nothing else. */
  function NewObject(className: string): (o: ObjectData)
    ensures o.className == className && o.fields == map[]
    ensures o.objectId.None? && o.createdAt.None? && o.updatedAt.None? && o.acl.None?
  {
    ObjectData(None, None, None, map[], None, className)
  }

  // ---------------------------------------------------------------------
  // field operations and their JSON

  /** The operations a field can hold instead of a plain value. */
  datatype FieldOp =
    | Increment(amount: int)
    | Add(items: seq<Json>)
    | AddUnique(items: seq<Json>)
    | Remove(items: seq<Json>)

  function OpName(op: FieldOp): string {
    match op
    case Increment(_) => "Increment"
    case Add(_) => "Add"
    case AddUnique(_) => "AddUnique"
    case Remove(_) => "Remove"
  }

  /** `{"__op": "Increment", "amount": n}` or `{"__op": ..., "objects": [...]}`. */
  function FieldOpJson(op: FieldOp): (j: Json)
    ensures j.Obj? && "__op" in j.fields && j.fields["__op"] == Str(OpName(op))
    ensures op.Increment? ==> j.fields.Keys == {"__op", "amount"}
    ensures !op.Increment? ==> j.fields.Keys == {"__op", "objects"}
  {
    match op
    case Increment(n) => Obj(map["__op" := Str("Increment"), "amount" := Num(n)])
    case Add(items) => Obj(map["__op" := Str("Add"), "objects" := Arr(items)])
    case AddUnique(items) => Obj(map["__op" := Str("AddUnique"), "objects" := Arr(items)])
    case Remove(items) => Obj(map["__op" := Str("Remove"), "objects" := Arr(items)])
  }

  /** How the server reads an operation back. */
  function FieldOpFromJson(j: Json): Option<FieldOp> {
    match (StringField(j, "__op"), Field(j, "amount"), Field(j, "objects"))
    case (Some("Increment"), Some(Num(n)), _) => Some(Increment(n))
    case (Some("Add"), _, Some(Arr(items))) => Some(Add(items))
    case (Some("AddUnique"), _, Some(Arr(items))) => Some(AddUnique(items))
    case (Some("Remove"), _, Some(Arr(items))) => Some(Remove(items))
    case _ => None
  }

  /** The encodings of different operations never coincide. */
  lemma FieldOpRoundTrip(op: FieldOp)
    ensures FieldOpFromJson(FieldOpJson(op)) == Some(op)
  {
  }

  /** `decrement(n)` and `increment(-n)` store the same operation. */
  lemma DecrementIsNegatedIncrement(amount: I64)
    requires amount != I64Min
    ensures FieldOpFromJson(FieldOpJson(Increment(-amount))) == Some(Increment(-amount))
    ensures -amount is I64
  {
    FieldOpRoundTrip(Increment(-amount));
  }

  /** The low-level object: `set`, `set_acl` and the field operations
      overwrite one entry of `fields` (or the ACL) in place. */
  class ParseObject {
    var objectId: Option<string>
    var createdAt: Option<ParseDate>
    var updatedAt: Option<ParseDate>
    var fields: map<string, Json>
    var acl: Option<Permissions>
    var className: string

    function State(): ObjectData
      reads this
    {
      ObjectData(objectId, createdAt, updatedAt, fields, acl, className)
    }

    constructor (className: string)
      ensures State() == NewObject(className)
    {
      objectId := None;
      createdAt := None;
      updatedAt := None;
      fields := map[];
      acl := None;
      this.className := className;
    }

    method Set(fieldName: string, value: Json)
      modifies this
      ensures State() == old(State()).(fields := old(fields)[fieldName := value])
    {
      fields := fields[fieldName := value];
    }

    /** `set_acl`: the object keeps the ACL's permission map. */
    method SetAcl(newAcl: ParseACL)
      modifies this
      ensures State() == old(State()).(acl := Some(newAcl.permissions))
    {
      acl := Some(newAcl.permissions);
    }

    method Increment(fieldName: string, amount: I64)
      modifies this
      ensures State() == old(State()).(fields := old(fields)[fieldName := FieldOpJson(FieldOp.Increment(amount))])
    {
      fields := fields[fieldName := FieldOpJson(FieldOp.Increment(amount))];
    }

    /** `decrement`: `increment` by the negated amount; negating `i64::MIN`
        overflows, so that amount is excluded. */
    method Decrement(fieldName: string, amount: I64)
      requires amount != I64Min
      modifies this
      ensures State() == old(State()).(fields := old(fields)[fieldName := FieldOpJson(FieldOp.Increment(-amount))])
    {
      Increment(fieldName, -amount);
    }

    method AddToArray(fieldName: string, items: seq<Json>)
      modifies this
      ensures State() == old(State()).(fields := old(fields)[fieldName := FieldOpJson(Add(items))])
    {
      fields := fields[fieldName := FieldOpJson(Add(items))];
    }

    method AddUniqueToArray(fieldName: string, items: seq<Json>)
      modifies this
      ensures State() == old(State()).(fields := old(fields)[fieldName := FieldOpJson(AddUnique(items))])
    {
      fields := fields[fieldName := FieldOpJson(AddUnique(items))];
    }

    method RemoveFromArray(fieldName: string, items: seq<Json>)
      modifies this
      ensures State() == old(State()).(fields := old(fields)[fieldName := FieldOpJson(Remove(items))])
    {
      fields := fields[fieldName := FieldOpJson(Remove(items))];
    }
  }

  // ---------------------------------------------------------------------
  // guards of the CRUD calls

  const EmptyClassMessage: string := "Class name cannot be empty"
  const EmptyIdMessage: string := "Object ID cannot be empty"
  const FirstCharMessage: string := "Invalid class name: must start with a letter or underscore."
  const CharsMessage: string := "Invalid class name: can only contain letters, numbers, or underscores."

  /** `char::is_alphabetic` and `char::is_alphanumeric`, on ASCII. */
  predicate IsAlphabetic(c: char) {
    'a' <= c <= 'z' || 'A' <= c <= 'Z'
  }

  predicate IsAlphanumeric(c: char) {
    IsAlphabetic(c) || '0' <= c <= '9'
  }

  /** The reference rule for a class name. */
  predicate ValidClassName(s: string) {
    |s| > 0 && (IsAlphabetic(s[0]) || s[0] == '_')
    && forall i :: 0 <= i < |s| ==> IsAlphanumeric(s[i]) || s[i] == '_'
  }

  /** The checks in the order the calls make them: empty class name, then
      (for calls with an id) empty id, then the first character, then all
      characters. `create_object` passes no id. */
  function CheckTarget(className: string, objectId: Option<string>): (r: Result<(), ParseError>)
    ensures r.Success? <==> ValidClassName(className) && (objectId.Some? ==> objectId.value != "")
    ensures className == "" ==> r == Failure(InvalidInput(EmptyClassMessage))
    ensures className != "" && objectId == Some("") ==> r == Failure(InvalidInput(EmptyIdMessage))
    ensures r.Failure? ==> r.error.InvalidInput?
  {
    if className == "" then Failure(InvalidInput(EmptyClassMessage))
    else if objectId == Some("") then Failure(InvalidInput(EmptyIdMessage))
    else if !(IsAlphabetic(className[0]) || className[0] == '_') then Failure(InvalidInput(FirstCharMessage))
    else if !(forall i :: 0 <= i < |className| ==> IsAlphanumeric(className[i]) || className[i] == '_') then
      Failure(InvalidInput(CharsMessage))
    else Success(())
  }

  /** Which message a bad name earns: the first-character message exactly
      when the fault is at the start, the one about other characters
      otherwise. */
  lemma CheckTargetMessages(className: string, objectId: Option<string>)
    requires className != "" && objectId != Some("")
    ensures !(IsAlphabetic(className[0]) || className[0] == '_') <==>
              CheckTarget(className, objectId) == Failure(InvalidInput(FirstCharMessage))
    ensures (IsAlphabetic(className[0]) || className[0] == '_') && !ValidClassName(className) <==>
              CheckTarget(className, objectId) == Failure(InvalidInput(CharsMessage))
  {
  }

  function ObjectEndpoint(className: string, objectId: string): string {
    "classes/" + className + "/" + objectId
  }

  /** `create_object`: POST `classes/{class}` through `post`. */
  function CreateObjectPlan(className: string, data: Json): (r: Result<RequestPlan, ParseError>)
    ensures r.Success? <==> ValidClassName(className)
    ensures r.Success? ==> r.value == PostPlan("classes/" + className, data)
  {
    var _ :- CheckTarget(className, None);
    Success(PostPlan("classes/" + className, data))
  }

  function RetrieveObjectPlan(className: string, objectId: string): (r: Result<RequestPlan, ParseError>)
    ensures r.Success? <==> ValidClassName(className) && objectId != ""
    ensures r.Success? ==> r.value == GetPlan(ObjectEndpoint(className, objectId))
  {
    var _ :- CheckTarget(className, Some(objectId));
    Success(GetPlan(ObjectEndpoint(className, objectId)))
  }

  function UpdateObjectPlan(className: string, objectId: string, data: Json): (r: Result<RequestPlan, ParseError>)
    ensures r.Success? <==> ValidClassName(className) && objectId != ""
    ensures r.Success? ==> r.value == PutPlan(ObjectEndpoint(className, objectId), data)
  {
    var _ :- CheckTarget(className, Some(objectId));
    Success(PutPlan(ObjectEndpoint(className, objectId), data))
  }

  function DeleteObjectPlan(className: string, objectId: string): (r: Result<RequestPlan, ParseError>)
    ensures r.Success? <==> ValidClassName(className) && objectId != ""
    ensures r.Success? ==> r.value == DeletePlan(ObjectEndpoint(className, objectId))
  {
    var _ :- CheckTarget(className, Some(objectId));
    Success(DeletePlan(ObjectEndpoint(className, objectId)))
  }

  /** A guard failure is reported before any request exists, so the
      transport is never consulted. */
  lemma GuardsSendNothing(c: ClientState, className: string, objectId: string, data: Json, t1: Transport, t2: Transport, accepts: Shape)
    requires DeleteObjectPlan(className, objectId).Failure?
    ensures RetrieveObjectPlan(className, objectId) == UpdateObjectPlan(className, objectId, data)
    ensures UpdateObjectPlan(className, objectId, data).error == DeleteObjectPlan(className, objectId).error
    ensures ValidClassName(className) ==> DeleteObjectPlan(className, objectId) == Failure(InvalidInput(EmptyIdMessage))
  {
  }

  /** The check `delete_object` makes on the decoded reply: only an empty
      object is success. */
  function DeleteOutcome(response: Result<Json, ParseError>): (r: Result<(), ParseError>)
    ensures r.Success? <==> response == Success(Obj(map[]))
    ensures response.Failure? ==> r == Failure(response.error)
    ensures response.Success? && response.value != Obj(map[]) ==> r == Failure(UnexpectedResponse(response.value))
  {
    match response
    case Failure(e) => Failure(e)
    case Success(j) => if j.Obj? && j.fields == map[] then Success(()) else Failure(UnexpectedResponse(j))
  }

  /** A 204 reply to the delete decodes as `{}` and so counts as success. */
  lemma DeleteNoContent(c: ClientState, className: string, objectId: string, transport: Transport, reason: string, body: Body)
    requires DeleteObjectPlan(className, objectId).Success?
    requires Prepare(c, DeleteObjectPlan(className, objectId).value).Success?
    requires transport(Prepare(c, DeleteObjectPlan(className, objectId).value).value) == Response(204, reason, body)
    ensures DeleteOutcome(Execute(c, DeleteObjectPlan(className, objectId).value, transport, (j: Json) => true)) == Success(())
  {
  }

  /** The reply shapes: `CreateObjectResponse` needs `objectId` and
      `createdAt`, `UpdateObjectResponse` needs `updatedAt`, all strings. */
  predicate IsCreateObjectResponse(j: Json) {
    StringField(j, "objectId").Some? && StringField(j, "createdAt").Some?
  }

  predicate IsUpdateObjectResponse(j: Json) {
    StringField(j, "updatedAt").Some?
  }

  /** A caller's view: field operations each replace one entry. */
  method ObjectScenario() {
    var o := new ParseObject("GameScore");
    o.Set("score", Num(10));
    o.Increment("score", 5);
    o.AddUniqueToArray("tags", [Str("a")]);
    assert o.fields["score"] == FieldOpJson(FieldOp.Increment(5));
    assert o.fields.Keys == {"score", "tags"};
    assert o.className == "GameScore" && o.objectId.None?;
  }
}
