/** Request-side vocabulary the permission policy reads: the HTTP method
    string and the acting principal that authentication resolved. */
module Http {

  /** A request method as the framework hands it over: an upper-case token.
      Any token may arrive (TRACE, CONNECT, extension methods), not only the
      seven the user API routes. */
  type Method = string

  const GET: Method := "GET"
  const HEAD: Method := "HEAD"
  const OPTIONS: Method := "OPTIONS"
  const POST: Method := "POST"
  const PUT: Method := "PUT"
  const PATCH: Method := "PATCH"
  const DELETE: Method := "DELETE"
  const TRACE: Method := "TRACE"

  /** The framework's tuple of read-only methods. TRACE is not in it. */
  const SafeMethods: seq<Method> := [GET, HEAD, OPTIONS]

  predicate IsSafe(m: Method) {
    m in SafeMethods
  }

  /** Primary key of a user record. */
  type UserId = nat

  /** The acting principal (`request.user`): either the anonymous user, or a
      user record identified by its primary key with its superuser flag. */
  datatype Principal = Anonymous | User(id: UserId, isSuperuser: bool) {

    /** `is_authenticated`: constantly true for a user record, false for the
        anonymous user. */
    predicate IsAuthenticated() {
      User?
    }

    /** `is_superuser`: the anonymous user is never a superuser. */
    predicate IsSuperuser() {
      User? && isSuperuser
    }
  }
}
