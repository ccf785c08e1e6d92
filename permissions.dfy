/** The permission class `IsAuthorOrAdminOrReadOnly`: a view-level check and
    an object-level check, both pure decisions over the request method, the
    acting principal and (for the second) the target user record. The `view`
    argument of both checks is never read and is not modelled. */
module Permissions {
  import opened Http
  import opened AccessPolicy

  /** `obj == user`: a user record equals the principal exactly when the
      principal is a user with the same primary key. The anonymous user never
      equals a record. */
  predicate SameRecord(target: UserId, p: Principal)
    ensures SameRecord(target, p) ==> p.IsAuthenticated()
  {
    p.User? && p.id == target
  }

  /** `has_permission`: safe methods pass; POST needs a superuser; every other
      method needs an authenticated principal. */
  function HasPermission(m: Method, p: Principal): (r: bool)
    // the view-level check is the role table applied as if the actor owned the record
    ensures r == Grants(RoleOf(p), OperationOf(m), true)
    ensures p.Anonymous? ==> (r <==> IsSafe(m))
    ensures p.IsSuperuser() ==> r
    ensures p.IsAuthenticated() && !p.IsSuperuser() ==> (r <==> m != POST)
  {
    if IsSafe(m) then true
    else if m == POST then p.IsSuperuser()
    else p.IsAuthenticated()
  }

  /** `has_object_permission`: safe methods pass; any other method passes when
      the target record is the principal itself or the principal is a
      superuser. */
  function HasObjectPermission(m: Method, p: Principal, target: UserId): (r: bool)
    // outside creation (which never reaches an object) it is the role table with real ownership
    ensures OperationOf(m) != Create ==> r == Grants(RoleOf(p), OperationOf(m), SameRecord(target, p))
    ensures p.Anonymous? ==> (r <==> IsSafe(m))
    ensures p.IsSuperuser() ==> r
    ensures p.IsAuthenticated() && !p.IsSuperuser() ==> (r <==> IsSafe(m) || target == p.id)
  {
    if IsSafe(m) then true
    else SameRecord(target, p) || p.IsSuperuser()
  }

  /** Whatever the method, the object-level check depends on the target only
      through whether it is the principal's own record. */
  lemma ObjectPermissionOnlySeesOwnership(m: Method, p: Principal, t1: UserId, t2: UserId)
    requires SameRecord(t1, p) == SameRecord(t2, p)
    ensures HasObjectPermission(m, p, t1) == HasObjectPermission(m, p, t2)
  {
  }

  /** A principal that is not a superuser always meets some record it may not
      write: being authenticated is never enough to change other accounts. */
  lemma NonSuperuserMeetsForeignRecord(m: Method, p: Principal)
    requires !IsSafe(m) && !p.IsSuperuser()
    ensures exists t: UserId :: !HasObjectPermission(m, p, t)
  {
    var t: UserId := if p.User? then p.id + 1 else 0;
    assert !HasObjectPermission(m, p, t);
  }

  /** A method outside the safe tuple other than POST, such as PUT or TRACE,
      passes the view-level check exactly for authenticated principals. */
  lemma OtherWritesNeedAuthentication(id: UserId, su: bool)
    ensures HasPermission(PUT, User(id, su)) && !HasPermission(PUT, Anonymous)
    ensures HasPermission(TRACE, User(id, su)) && !HasPermission(TRACE, Anonymous)
  {
  }
}
