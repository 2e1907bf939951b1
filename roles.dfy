/** The two roles of the client, spelled as the role store's declared type
    and the login form spell them: `"patient"` and `"doctor"`. */
module Roles {
  import opened Api

  datatype Role = Patient | Doctor

  function Name(role: Role): (name: string)
    ensures name == "patient" || name == "doctor"
  {
    match role
    case Patient => "patient"
    case Doctor => "doctor"
  }

  /** The enum check of a submitted role string. */
  function Parse(name: string): (role: Option<Role>)
    ensures role.Some? <==> name == "patient" || name == "doctor"
  {
    if name == "patient" then Some(Patient)
    else if name == "doctor" then Some(Doctor)
    else None
  }

  /** `Parse` and `Name` are inverse: every role's name parses back to it,
      and a string that parses is the name of what it parses to. */
  lemma ParseName(role: Role, name: string)
    ensures Parse(Name(role)) == Some(role)
    ensures Parse(name) == Some(role) ==> Name(role) == name
  {
  }
}
