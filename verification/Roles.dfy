/** The roles of a principal, and what each may see (`models/role.py`). */
module Roles {

  datatype Role = Viewer | Operator | Admin

  function RoleRank(r: Role): nat {
    match r
    case Viewer => 0
    case Operator => 1
    case Admin => 2
  }

  predicate Allows(r: Role, required: Role) {
    RoleRank(r) >= RoleRank(required)
  }

  /** The roles are ordered: an admin may what an operator may, and an operator what a viewer may. */
  lemma RolesAreOrdered(r: Role, required: Role)
    ensures Allows(r, required) <==> required == Viewer || r == Admin || (r == Operator && required == Operator)
  {
  }
}
