/** The global role store: the role currently chosen on the login and
    register forms, overwritten by `setRole`. */
module Auth {
  import Roles
  import opened Api

  /** The role after a series of `setRole` calls, applied in order. */
  function RoleAfter(role: Roles.Role, writes: seq<Roles.Role>): Roles.Role
    decreases |writes|
  {
    if writes == [] then role else RoleAfter(writes[0], writes[1..])
  }

  /** Last write wins: after a non-empty series of `setRole` calls the role
      is the one written last, and an empty series leaves it as it was. */
  lemma {:induction false} RoleAfterIsLastWrite(role: Roles.Role, writes: seq<Roles.Role>)
    ensures writes == [] ==> RoleAfter(role, writes) == role
    ensures writes != [] ==> RoleAfter(role, writes) == writes[|writes| - 1]
    decreases |writes|
  {
    if writes != [] {
      RoleAfterIsLastWrite(writes[0], writes[1..]);
    }
  }

  /** Writing the same role twice is writing it once. */
  lemma SetRoleIdempotent(role: Roles.Role, r: Roles.Role)
    ensures RoleAfter(role, [r, r]) == RoleAfter(role, [r])
  {
  }

  class AuthStore {
    var role: Roles.Role

    /** The role as the store exposes it: always `"patient"` or `"doctor"`. */
    function RoleName(): (name: string)
      reads this
      ensures name == "patient" || name == "doctor"
      ensures Roles.Parse(name) == Some(role)
    {
      Roles.ParseName(role, Roles.Name(role));
      Roles.Name(role)
    }

    constructor ()
      ensures role == Roles.Patient
      ensures RoleName() == "patient"
    {
      role := Roles.Patient;
    }

    method SetRole(r: Roles.Role)
      modifies this
      ensures role == r && role == RoleAfter(old(role), [r])
      ensures RoleName() == Roles.Name(r)
    {
      role := r;
    }
  }
}
