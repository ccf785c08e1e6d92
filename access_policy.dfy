/** The access rule of the user API stated as a role table, independently of
    how the permission class tests the request. The permission class is
    proved to agree with it. */
module AccessPolicy {
  import opened Http

  /** Who is acting: nobody, an ordinary account, or an administrator. */
  datatype Role = Visitor | Member | Admin

  /** What a request does to user records. */
  datatype Operation = Read | Create | Change

  function RoleOf(p: Principal): Role {
    match p
    case Anonymous => Visitor
    case User(_, su) => if su then Admin else Member
  }

  function OperationOf(m: Method): Operation {
    if IsSafe(m) then Read
    else if m == POST then Create
    else Change
  }

  /** The table: everybody reads; only administrators create accounts;
      an account may be changed by its owner or by an administrator. */
  predicate Grants(role: Role, op: Operation, owner: bool) {
    match op
    case Read => true
    case Create => role == Admin
    case Change => role == Admin || (role == Member && owner)
  }
}
