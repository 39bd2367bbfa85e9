/** The protocol's special object shapes (src/types/common.rs): Pointer,
    Date, the AddRelation/RemoveRelation operation and the Relation marker,
    with the JSON each one serialises to. */
module Common {
  import opened Wrappers
  import opened Json

  datatype Pointer = Pointer(typeTag: string, className: string, objectId: string)

  datatype ParseDate = ParseDate(typeTag: string, iso: string)

  datatype RelationOp = RelationOp(opType: string, objects: seq<Pointer>)

  datatype ParseRelation = ParseRelation(typeTag: string, className: string)

  /** `Pointer::new`: a `Pointer`-tagged reference, class and id as given. */
  function NewPointer(className: string, objectId: string): (p: Pointer)
    ensures p.typeTag == "Pointer"
    ensures p.className == className && p.objectId == objectId
  {
    Pointer("Pointer", className, objectId)
  }

  /** `ParseDate::new`: the ISO text is kept as given; nothing validates it. */
  function NewDate(iso: string): (d: ParseDate)
    ensures d.typeTag == "Date" && d.iso == iso
  {
    ParseDate("Date", iso)
  }

  /** `RelationOp::add`. */
  function AddRelation(objects: seq<Pointer>): (op: RelationOp)
    ensures op.opType == "AddRelation" && op.objects == objects
  {
    RelationOp("AddRelation", objects)
  }

  /** `RelationOp::remove`. */
  function RemoveRelation(objects: seq<Pointer>): (op: RelationOp)
    ensures op.opType == "RemoveRelation" && op.objects == objects
  {
    RelationOp("RemoveRelation", objects)
  }

  /** `ParseRelation::new`. */
  function NewRelation(className: string): (r: ParseRelation)
    ensures r.typeTag == "Relation" && r.className == className
  {
    ParseRelation("Relation", className)
  }

  // ---------------------------------------------------------------------
  // serde forms

  function PointerJson(p: Pointer): Json {
    Obj(map["__type" := Str(p.typeTag), "className" := Str(p.className), "objectId" := Str(p.objectId)])
  }

  /** What `#[derive(Deserialize)]` accepts for a `Pointer`: an object with
      the three string members (other members are ignored). */
  function PointerFromJson(j: Json): Option<Pointer> {
    match (StringField(j, "__type"), StringField(j, "className"), StringField(j, "objectId"))
    case (Some(t), Some(c), Some(id)) => Some(Pointer(t, c, id))
    case _ => None
  }

  lemma PointerRoundTrip(p: Pointer)
    ensures PointerFromJson(PointerJson(p)) == Some(p)
  {
  }

  function PointersJson(ps: seq<Pointer>): (r: seq<Json>)
    ensures |r| == |ps|
    ensures forall i :: 0 <= i < |ps| ==> r[i] == PointerJson(ps[i])
  {
    if |ps| == 0 then [] else [PointerJson(ps[0])] + PointersJson(ps[1..])
  }

  /** `{"__op": op, "objects": [...]}`: the objects in the given order. */
  function RelationOpJson(op: RelationOp): (r: Json)
    ensures r.Obj? && r.fields.Keys == {"__op", "objects"}
    ensures r.fields["__op"] == Str(op.opType)
    ensures r.fields["objects"].Arr? && |r.fields["objects"].items| == |op.objects|
    ensures forall i :: 0 <= i < |op.objects| ==>
              PointerFromJson(r.fields["objects"].items[i]) == Some(op.objects[i])
  {
    Obj(map["__op" := Str(op.opType), "objects" := Arr(PointersJson(op.objects))])
  }

  function DateJson(d: ParseDate): Json {
    Obj(map["__type" := Str(d.typeTag), "iso" := Str(d.iso)])
  }

  function RelationJson(r: ParseRelation): Json {
    Obj(map["__type" := Str(r.typeTag), "className" := Str(r.className)])
  }
}
