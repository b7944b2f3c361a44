/** The three authorization types, ordered as their enumerators. */
module Permissions {

  datatype Permission = Blocked | View | Control

  function Code(p: Permission): nat {
    match p
    case Blocked => 0
    case View => 1
    case Control => 2
  }

  predicate AtLeast(p: Permission, q: Permission) {
    Code(p) >= Code(q)
  }
}
