/** The dynamic JSON value (`serde_json::Value`) every payload of the client
    is built from. Objects are maps, so key order (which depends on how
    serde_json is built) is not part of the value. */
module Json {
  import opened Wrappers

  datatype Json =
    | Null
    | Bool(b: bool)
    | Num(n: int)
    | Str(s: string)
    | Arr(items: seq<Json>)
    | Obj(fields: map<string, Json>)

  /** `{ key: value }`, the one-entry object that `json!({k: v})` builds. */
  function Single(key: string, value: Json): (r: Json)
    ensures r.Obj? && r.fields.Keys == {key} && r.fields[key] == value
  {
    Obj(map[key := value])
  }

  /** `value.get(key)` on an object; `None` on a missing key or a non-object. */
  function Field(j: Json, key: string): (r: Option<Json>)
    ensures r.Some? <==> j.Obj? && key in j.fields
    ensures r.Some? ==> r.value == j.fields[key]
  {
    if j.Obj? && key in j.fields then Some(j.fields[key]) else None
  }

  /** A string field, as a `#[derive(Deserialize)]` struct with a `String`
      member reads it: missing or not a string is a decode failure (None). */
  function StringField(j: Json, key: string): (r: Option<string>)
    ensures r.Some? <==> j.Obj? && key in j.fields && j.fields[key].Str?
    ensures r.Some? ==> j.fields[key] == Str(r.value)
  {
    if j.Obj? && key in j.fields && j.fields[key].Str? then Some(j.fields[key].s) else None
  }

  /** The shape `serde_json::Value` accepts: any body. */
  predicate AnyValue(j: Json) {
    true
  }

  /** An `Option<String>` member of a derived struct: absent, `null`, or a
      string. */
  predicate OptionalStr(j: Json, key: string)
    requires j.Obj?
  {
    key !in j.fields || j.fields[key].Null? || j.fields[key].Str?
  }

  /** An `Option<bool>` member of a derived struct: absent, `null`, or a
      boolean. */
  predicate OptionalBool(j: Json, key: string)
    requires j.Obj?
  {
    key !in j.fields || j.fields[key].Null? || j.fields[key].Bool?
  }

  /** A `ParseDate` in its derived form: an object with string `__type`
      and `iso` members. */
  predicate IsDateObject(j: Json) {
    StringField(j, "__type").Some? && StringField(j, "iso").Some?
  }

  /** An `Option<ParseDate>` member with the derived deserialiser:
      absent, `null`, or a date object. */
  predicate OptionalDate(j: Json, key: string)
    requires j.Obj?
  {
    key !in j.fields || j.fields[key].Null? || IsDateObject(j.fields[key])
  }

  /** An `Option<_>` member read through a custom deserialiser and without
      a default: it must be present, and be `null` or a string. */
  predicate NullableStr(j: Json, key: string)
    requires j.Obj?
  {
    key in j.fields && (j.fields[key].Null? || j.fields[key].Str?)
  }
}
