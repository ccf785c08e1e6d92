# User API permission policy

This project models the authorisation policy of a small user-management REST
API built on Django REST Framework: the permission class
`IsAuthorOrAdminOrReadOnly` and the way the user viewset applies it. Anyone may
read the user list and user details. Only a superuser may create an account.
An account may be updated or deleted by its owner or by a superuser.

Files:

- `http.dfy` (module `Http`): the request method as an upper-case string, the
  framework's safe-method tuple `GET`/`HEAD`/`OPTIONS`, and the acting principal
  (`Anonymous`, or `User(id, isSuperuser)`).
- `access_policy.dfy` (module `AccessPolicy`): the rule written as a role table.
  Roles are visitor, member and admin. Operations are read, create and change.
  This is the independent reference the permission checks are proved against.
- `permissions.dfy` (module `Permissions`): `has_permission` and
  `has_object_permission` as pure functions, and Django's `obj == user`
  record equality.
- `views.dfy` (module `UserViewSet`): the combined decision on the collection
  route and on a detail route, the set of records a request may address, and
  the outcomes the API tests describe.

The method is a string, not an enumeration. The code tests membership in the
safe tuple and compares with `'POST'`. So `TRACE` or an extension method
falls into the "any other write" branch and needs an authenticated principal.
The model keeps that behaviour.

A target record is identified by its primary key. Django model equality
compares primary keys, and the anonymous user never equals a record.

## Model

| member | source | states |
|---|---|---|
| Permissions.SameRecord | api_users/permissions.py:17 | a record can equal the principal only when the principal is authenticated; the anonymous user owns nothing |
| Permissions.HasPermission | api_users/permissions.py:5-11 | the view-level check agrees with the role table applied to a record the actor owns; anonymous passes exactly the safe methods; a superuser passes every method; an authenticated non-superuser passes every method except POST. So POST passes iff superuser, and PUT/PATCH/DELETE pass iff authenticated |
| Permissions.HasObjectPermission | api_users/permissions.py:13-17 | outside creation, the object-level check agrees with the role table under true ownership; anonymous passes exactly the safe methods on any record; a superuser passes on every record; an authenticated non-superuser passes a write iff the target is their own record |
| Permissions.OtherWritesNeedAuthentication | api_users/permissions.py:6-11 | PUT and TRACE, neither safe nor POST, pass the view-level check for every user, superuser or not, and are refused to the anonymous user |
| Permissions.ObjectPermissionOnlySeesOwnership | api_users/permissions.py:13-17 | two targets that are equally (not) the principal's own record get the same object-level decision |
| Permissions.NonSuperuserMeetsForeignRecord | api_users/permissions.py:16-17 | for every write method, a principal that is not a superuser is refused on some record |
| UserViewSet.Allowed | api_users/views.py:38 | the viewset's combined decision (view-level check, then object-level check when a record is addressed) equals the role table, with ownership vacuous on the collection route; anonymous is limited to safe methods, a superuser is never refused, and a request that passes always passes the view-level check |
| UserViewSet.PermittedTargets | api_users/views.py:35-38 | the records a request may address lie within the table; a safe method or a superuser reaches all of them; an anonymous write and a non-superuser POST reach none; a non-superuser update or delete reaches exactly the principal's own record |
| UserViewSet.WriteReachesAtMostOwnRecord | api_users/permissions.py:9-17 | a write by a non-superuser reaches at most one record, and an update or delete reaches exactly one iff the principal's own record is in the table |
| UserViewSet.WritingEveryRecordNeedsSuperuser | api_users/permissions.py:16-17 | a principal allowed to write to every record of a table with two or more accounts is a superuser |
| UserViewSet.ApiTestOutcomes | api_users/tests.py:92-155 | with a superuser as record 1 and an ordinary user as record 2: anonymous and superuser lists pass, the superuser's detail read passes, anonymous POST is refused, superuser POST passes, anonymous and foreign PATCH/DELETE are refused, own PATCH/DELETE and superuser DELETE pass |
| UserViewSet.OrdinaryUserCannotCreate | api_users/permissions.py:9-10 | an authenticated non-superuser's POST on the collection is refused (a case no test exercises) |

## Left out

- The `view` argument of both checks is never read by the code and is not modelled.
- Login (`LoginToken.post`, api_users/views.py:21-25) is not modelled. Credential checking, token get-or-create and the last-login update are framework and database calls whose code is not part of this model.
- The CRUD behaviour of `UserViewSet` (api_users/views.py:28-38) is not modelled. Only its use of the permission class is. Listing, creating, updating and deleting records happen in the framework and the ORM.
- The serializers (api_users/serializers.py) are not modelled. They are field tuples; validation, type coercion and password storage happen inside the framework.
- URL routing (api_users/urls.py) is not modelled. The model only distinguishes a collection request (no record) from a detail request (one record).
- The mapping of a refusal to 401 or 403 is not modelled. Whether an anonymous refusal becomes 401 or 403 depends on the framework's authentication classes, not on this code; the test at api_users/tests.py:119 expects 403.
- How a credential resolves to a principal is not modelled. This includes the refusal of inactive accounts by authentication. The principal is a parameter.
- The empty update and delete test stubs (api_users/tests.py:136-155) assert nothing. Their intended outcomes, as their names describe them, are stated in `UserViewSet.ApiTestOutcomes`. The empty token test stub (api_users/tests.py:52-53) concerns login, which is not modelled.
