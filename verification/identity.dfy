/** The identity resolver that runs before every handler: it turns the request's
    optional bearer token into an `AuthUser`, failing open to an anonymous user. */
module Identity {
  import opened Outcomes

  /** The claims a verified token carries that the resolver reads. The expiry claim
      is checked by the token library and never read here. */
  datatype Claims = Claims(sub: int, username: string, isAdmin: bool)

  /** The identity attached to a request for the handlers to read. */
  datatype AuthUser = AuthUser(userId: int, username: string, isAdmin: bool, isConnected: bool)

  /** What token verification answered for the bearer token. Signature and expiry
      checking happen inside the token library, so the answer is an input here. */
  datatype Verification = Verified(claims: Claims) | Rejected

  /** The value attached when there is no usable token. */
  const Anonymous := AuthUser(-1, "", false, false)

  /** The identity a request resolves to. `header` is None when the request has no
      bearer authorization header, and otherwise holds what verifying its token gave. */
  function ResolveUser(header: Option<Verification>): (u: AuthUser)
    ensures header == None ==> u == Anonymous
    ensures header == Some(Rejected) ==> u == Anonymous
    ensures u.isConnected <==> header.Some? && header.value.Verified?
    ensures u.isConnected ==>
              var c := header.value.claims;
              u.userId == c.sub && u.username == c.username && u.isAdmin == c.isAdmin
    ensures !u.isConnected ==> u == Anonymous && !u.isAdmin
  {
    match header
    case Some(Verified(claims)) => AuthUser(claims.sub, claims.username, claims.isAdmin, true)
    case Some(Rejected) => Anonymous
    case None => Anonymous
  }

  /** What the middleware does with the request: pass it on with a user attached,
      or stop it with an error status. */
  datatype MiddlewareOutcome = Continue(user: AuthUser) | Reject(status: Status)

  /** The middleware itself: it never rejects a request. */
  function GetAuthUser(header: Option<Verification>): (r: MiddlewareOutcome)
    ensures r.Continue?
    ensures r.user == ResolveUser(header)
  {
    Continue(ResolveUser(header))
  }

  /** A token that fails verification is treated exactly like a missing header. */
  lemma RejectedIsAbsent()
    ensures GetAuthUser(Some(Rejected)) == GetAuthUser(None)
  {
  }

  /** Only a verified token can make a caller an administrator, and then only
      when its claims say so. */
  lemma AdminOnlyFromClaims(header: Option<Verification>)
    ensures ResolveUser(header).isAdmin <==>
              header.Some? && header.value.Verified? && header.value.claims.isAdmin
  {
  }
}
