/** How the user viewset applies the permission class: the view-level check on
    every request, and the object-level check in addition on the routes that
    address one record (retrieve, update, partial update, destroy). */
module UserViewSet {
  import opened Http
  import opened AccessPolicy
  import opened Permissions

  datatype Option<T> = None | Some(value: T)

  /** The decision for a request on the collection route (`target` is None) or
      on the detail route of one record. */
  function Allowed(m: Method, p: Principal, target: Option<UserId>): (r: bool)
    ensures r == Grants(RoleOf(p), OperationOf(m), target.None? || SameRecord(target.value, p))
    ensures p.Anonymous? ==> (r <==> IsSafe(m))
    ensures p.IsSuperuser() ==> r
    // the object-level check only ever narrows the view-level one
    ensures r ==> HasPermission(m, p)
  {
    HasPermission(m, p) && (target.None? || HasObjectPermission(m, p, target.value))
  }

  /** The records, out of the user table `ids`, for which a request with
      method `m` by `p` passes both permission checks. */
  function PermittedTargets(m: Method, p: Principal, ids: set<UserId>): (r: set<UserId>)
    ensures r <= ids
    ensures IsSafe(m) || p.IsSuperuser() ==> r == ids
    ensures !IsSafe(m) && p.Anonymous? ==> r == {}
    ensures m == POST && !p.IsSuperuser() ==> r == {}
    ensures OperationOf(m) == Change && p.IsAuthenticated() && !p.IsSuperuser() ==> r == ids * {p.id}
  {
    var r := set t | t in ids && Allowed(m, p, Some(t));
    assert OperationOf(m) == Change && p.IsAuthenticated() && !p.IsSuperuser() ==>
      forall t :: t in r <==> t in ids && t == p.id;
    r
  }

  /** A write by anyone but a superuser reaches at most one record, the
      principal's own; an update or delete reaches it exactly when it exists,
      a POST never does. */
  lemma WriteReachesAtMostOwnRecord(m: Method, p: Principal, ids: set<UserId>)
    requires !IsSafe(m) && !p.IsSuperuser()
    ensures |PermittedTargets(m, p, ids)| <= 1
    ensures |PermittedTargets(m, p, ids)| == 1 <==> m != POST && p.IsAuthenticated() && p.id in ids
  {
    var r := PermittedTargets(m, p, ids);
    if m != POST && p.IsAuthenticated() && p.id in ids {
      assert r == {p.id};
    } else {
      assert r == {};
    }
  }

  /** Only a superuser may write to every record of a table holding at least
      two accounts. */
  lemma WritingEveryRecordNeedsSuperuser(m: Method, p: Principal, ids: set<UserId>)
    requires !IsSafe(m) && |ids| >= 2
    requires PermittedTargets(m, p, ids) == ids
    ensures p.IsSuperuser()
  {
    if !p.IsSuperuser() {
      WriteReachesAtMostOwnRecord(m, p, ids);
    }
  }

  /** The outcomes the API tests check, and those the names of the empty
      update and delete tests describe, with the superuser "jerry" as record 1
      and the ordinary user "tom" as record 2. */
  lemma ApiTestOutcomes()
    ensures var jerry, tom := User(1, true), User(2, false);
      && Allowed(GET, Anonymous, None)
      && Allowed(GET, jerry, None)
      && Allowed(GET, jerry, Some(1))
      && !Allowed(POST, Anonymous, None)
      && Allowed(POST, jerry, None)
      && !Allowed(PATCH, Anonymous, Some(2))
      && !Allowed(PATCH, tom, Some(1))
      && Allowed(PATCH, tom, Some(2))
      && !Allowed(DELETE, Anonymous, Some(2))
      && !Allowed(DELETE, tom, Some(1))
      && Allowed(DELETE, jerry, Some(2))
      && Allowed(DELETE, tom, Some(2))
  {
  }

  /** An ordinary user's POST on the collection is refused: creating accounts
      is reserved to superusers even for authenticated callers. */
  lemma OrdinaryUserCannotCreate(id: UserId)
    ensures !Allowed(POST, User(id, false), None)
  {
  }
}
