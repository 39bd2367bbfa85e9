/** Access control lists (src/acl.rs): a map from a grantee key ("*", a
    user id, or "role:<name>") to an access level whose read and write
    flags are each unset, true or false. */
module Acl {
  import opened Wrappers
  import opened Json

  datatype AccessLevel = AccessLevel(read: Option<bool>, write: Option<bool>)

  type Permissions = map<string, AccessLevel>

  const PublicKey: string := "*"

  /** The key a role's permissions are stored under. */
  function RoleKey(roleName: string): (k: string)
    ensures |k| == 5 + |roleName| && k[..5] == "role:" && k[5..] == roleName
  {
    "role:" + roleName
  }

  const Unset: AccessLevel := AccessLevel(None, None)

  /** `entry(k).or_insert_with(unset).read = Some(allowed)`. */
  function WithRead(m: Permissions, k: string, allowed: bool): (r: Permissions)
    ensures r.Keys == m.Keys + {k}
    ensures r[k].read == Some(allowed)
    ensures r[k].write == (if k in m then m[k].write else None)
    ensures forall j :: j in m && j != k ==> r[j] == m[j]
  {
    var level := if k in m then m[k] else Unset;
    m[k := level.(read := Some(allowed))]
  }

  /** `entry(k).or_insert_with(unset).write = Some(allowed)`. */
  function WithWrite(m: Permissions, k: string, allowed: bool): (r: Permissions)
    ensures r.Keys == m.Keys + {k}
    ensures r[k].write == Some(allowed)
    ensures r[k].read == (if k in m then m[k].read else None)
    ensures forall j :: j in m && j != k ==> r[j] == m[j]
  {
    var level := if k in m then m[k] else Unset;
    m[k := level.(write := Some(allowed))]
  }

  /** The read getters: the stored flag, `false` when absent or unset. */
  function ReadOf(m: Permissions, k: string): (b: bool)
    ensures b <==> k in m && m[k].read == Some(true)
  {
    k in m && m[k].read.GetOr(false)
  }

  function WriteOf(m: Permissions, k: string): (b: bool)
    ensures b <==> k in m && m[k].write == Some(true)
  {
    k in m && m[k].write.GetOr(false)
  }

  lemma ReadAfterSet(m: Permissions, k: string, j: string, allowed: bool)
    ensures ReadOf(WithRead(m, k, allowed), k) == allowed
    ensures WriteOf(WithRead(m, k, allowed), j) == WriteOf(m, j)
    ensures j != k ==> ReadOf(WithRead(m, k, allowed), j) == ReadOf(m, j)
  {
  }

  lemma WriteAfterSet(m: Permissions, k: string, j: string, allowed: bool)
    ensures WriteOf(WithWrite(m, k, allowed), k) == allowed
    ensures ReadOf(WithWrite(m, k, allowed), j) == ReadOf(m, j)
    ensures j != k ==> WriteOf(WithWrite(m, k, allowed), j) == WriteOf(m, j)
  {
  }

  // ---------------------------------------------------------------------
  // serde forms

  /** The entries the `Serialize` impl writes: those with at least one flag set. */
  function Explicit(m: Permissions): (r: Permissions)
    ensures forall k :: k in r <==> k in m && (m[k].read.Some? || m[k].write.Some?)
    ensures forall k :: k in r ==> r[k] == m[k]
  {
    map k | k in m && (m[k].read.Some? || m[k].write.Some?) :: m[k]
  }

  /** `AccessLevel` with `skip_serializing_if = "Option::is_none"`. */
  function LevelJson(a: AccessLevel): Json {
    Obj((if a.read.Some? then map["read" := Bool(a.read.value)] else map[])
      + (if a.write.Some? then map["write" := Bool(a.write.value)] else map[]))
  }

  function AclJson(m: Permissions): (r: Json)
    ensures r.Obj? && r.fields.Keys == Explicit(m).Keys
  {
    Obj(map k | k in Explicit(m) :: LevelJson(m[k]))
  }

  /** An optional bool member as serde reads it: missing or null is unset. */
  predicate FlagOk(j: Json, name: string)
    requires j.Obj?
  {
    name !in j.fields || j.fields[name].Null? || j.fields[name].Bool?
  }

  function FlagOf(j: Json, name: string): Option<bool>
    requires j.Obj?
  {
    if name in j.fields && j.fields[name].Bool? then Some(j.fields[name].b) else None
  }

  predicate LevelOk(j: Json) {
    j.Obj? && FlagOk(j, "read") && FlagOk(j, "write")
  }

  function LevelFromJson(j: Json): AccessLevel
    requires j.Obj?
  {
    AccessLevel(FlagOf(j, "read"), FlagOf(j, "write"))
  }

  /** The `Deserialize` impl: every member must decode as an access level,
      and the decoded map is installed as it is. */
  function AclFromJson(j: Json): (r: Option<Permissions>)
    ensures r.Some? ==> j.Obj? && r.value.Keys == j.fields.Keys
  {
    if j.Obj? && forall k :: k in j.fields ==> LevelOk(j.fields[k]) then
      Some(map k | k in j.fields :: LevelFromJson(j.fields[k]))
    else None
  }

  lemma LevelRoundTrip(a: AccessLevel)
    ensures LevelOk(LevelJson(a)) && LevelFromJson(LevelJson(a)) == a
  {
  }

  /** Serialising and reading back keeps every explicit entry and drops
      exactly the entries with neither flag set. */
  lemma AclRoundTrip(m: Permissions)
    ensures AclFromJson(AclJson(m)) == Some(Explicit(m))
  {
    var j := AclJson(m);
    forall k | k in j.fields ensures LevelOk(j.fields[k]) {
      LevelRoundTrip(m[k]);
    }
    var back := map k | k in j.fields :: LevelFromJson(j.fields[k]);
    forall k | k in back ensures back[k] == Explicit(m)[k] {
      LevelRoundTrip(m[k]);
    }
    assert back == Explicit(m);
  }

  /** The low-level form of the client: a class whose one field the setters
      update in place. */
  class ParseACL {
    var permissions: Permissions

    /** `ParseACL::new` (and `Default::default`): no entries at all. */
    constructor ()
      ensures permissions == map[]
    {
      permissions := map[];
    }

    method SetPublicReadAccess(allowed: bool)
      modifies this
      ensures permissions == WithRead(old(permissions), PublicKey, allowed)
    {
      permissions := WithRead(permissions, PublicKey, allowed);
    }

    method SetPublicWriteAccess(allowed: bool)
      modifies this
      ensures permissions == WithWrite(old(permissions), PublicKey, allowed)
    {
      permissions := WithWrite(permissions, PublicKey, allowed);
    }

    method SetUserReadAccess(userId: string, allowed: bool)
      modifies this
      ensures permissions == WithRead(old(permissions), userId, allowed)
    {
      permissions := WithRead(permissions, userId, allowed);
    }

    method SetUserWriteAccess(userId: string, allowed: bool)
      modifies this
      ensures permissions == WithWrite(old(permissions), userId, allowed)
    {
      permissions := WithWrite(permissions, userId, allowed);
    }

    method SetRoleReadAccess(roleName: string, allowed: bool)
      modifies this
      ensures permissions == WithRead(old(permissions), RoleKey(roleName), allowed)
    {
      permissions := WithRead(permissions, RoleKey(roleName), allowed);
    }

    method SetRoleWriteAccess(roleName: string, allowed: bool)
      modifies this
      ensures permissions == WithWrite(old(permissions), RoleKey(roleName), allowed)
    {
      permissions := WithWrite(permissions, RoleKey(roleName), allowed);
    }

    function GetPublicReadAccess(): bool
      reads this
    {
      ReadOf(permissions, PublicKey)
    }

    function GetPublicWriteAccess(): bool
      reads this
    {
      WriteOf(permissions, PublicKey)
    }

    function GetUserReadAccess(userId: string): bool
      reads this
    {
      ReadOf(permissions, userId)
    }

    function GetUserWriteAccess(userId: string): bool
      reads this
    {
      WriteOf(permissions, userId)
    }

    function GetRoleReadAccess(roleName: string): bool
      reads this
    {
      ReadOf(permissions, RoleKey(roleName))
    }

    function GetRoleWriteAccess(roleName: string): bool
      reads this
    {
      WriteOf(permissions, RoleKey(roleName))
    }

    function Serialize(): Json
      reads this
    {
      AclJson(permissions)
    }
  }

  /** A caller's view: the setters compose as the crate's unit tests expect. */
  method AclScenario() {
    var acl := new ParseACL();
    assert acl.Serialize() == Obj(map[]);
    acl.SetPublicReadAccess(true);
    acl.SetPublicWriteAccess(false);
    acl.SetRoleWriteAccess("Admin", true);
    assert acl.GetPublicReadAccess() && !acl.GetPublicWriteAccess();
    assert acl.permissions[PublicKey] == AccessLevel(Some(true), Some(false));
    assert acl.GetRoleWriteAccess("Admin") && !acl.GetRoleReadAccess("Admin");
    assert !acl.GetUserReadAccess("nobody");
  }
}
