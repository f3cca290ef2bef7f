/** The `UserRole` union of `src/types/auth.ts` and its string and JSON forms. */
module Roles {
  import opened Wrappers
  import opened JsonValues

  datatype Role = Participant | Admin | ClientAdmin | ProgramManager | SuperAdmin

  function RoleName(r: Role): string {
    match r
    case Participant => "participant"
    case Admin => "admin"
    case ClientAdmin => "client_admin"
    case ProgramManager => "program_manager"
    case SuperAdmin => "super_admin"
  }

  /** The role a string names, if it names one. */
  function ParseRole(s: string): (r: Option<Role>)
    ensures r.Some? ==> RoleName(r.value) == s
  {
    if s == "participant" then Some(Participant)
    else if s == "admin" then Some(Admin)
    else if s == "client_admin" then Some(ClientAdmin)
    else if s == "program_manager" then Some(ProgramManager)
    else if s == "super_admin" then Some(SuperAdmin)
    else None
  }

  /** Every role's name parses back to the role. */
  lemma ParseRoleName(r: Role)
    ensures ParseRole(RoleName(r)) == Some(r)
  {
  }

  function RoleNames(rs: seq<Role>): (r: seq<string>)
    ensures |r| == |rs| && forall i :: 0 <= i < |rs| ==> r[i] == RoleName(rs[i])
  {
    seq(|rs|, i requires 0 <= i < |rs| => RoleName(rs[i]))
  }

  /** `JSON.stringify(roles)`, kept as the value it encodes. */
  function RolesJson(rs: seq<Role>): Json {
    JArr(StrList(RoleNames(rs)))
  }

  /** The roles read back from a parsed `userRoles` value: the role names of an
      array, in order; anything else in it is dropped. */
  function RolesFromItems(items: seq<Json>): (r: seq<Role>)
    ensures |r| <= |items|
  {
    if items == [] then []
    else
      var rest := RolesFromItems(items[1..]);
      match items[0]
      case JStr(s) => (match ParseRole(s) case Some(role) => [role] + rest case None => rest)
      case _ => rest
  }

  function RolesFromJson(j: Json): seq<Role> {
    if j.JArr? then RolesFromItems(j.items) else []
  }

  /** Roles written as JSON read back unchanged. */
  lemma {:induction false} RolesJsonRoundTrip(rs: seq<Role>)
    ensures RolesFromJson(RolesJson(rs)) == rs
  {
    if rs != [] {
      RolesJsonRoundTrip(rs[1..]);
      assert StrList(RoleNames(rs))[1..] == StrList(RoleNames(rs[1..]));
      ParseRoleName(rs[0]);
      assert rs == [rs[0]] + rs[1..];
    }
  }
}
