/** The login handler: look the account up by user name, compare the password,
    and hand out a token built from the stored account. */
module Login {
  import opened Outcomes
  import Identity

  datatype LoginRequest = LoginRequest(username: string, password: string)

  /** The columns the lookup selects from `users`. */
  datatype UserRow = UserRow(id: int, username: string, password: string, isAdmin: bool)

  /** A token, represented by what it is created from: the user id, user name and
      administrator flag given to token creation. Its signature and expiry are left
      to the token library. */
  datatype Token = Token(sub: int, username: string, isAdmin: bool)

  datatype TokenResponse = TokenResponse(token: Token)

  /** The statement the handler sends: select the account with this user name. */
  datatype UserByName = UserByName(username: string)

  /** Handles a login request; `lookup` is what the database answered to the
      statement in `issued`. */
  function Login(req: LoginRequest, lookup: QueryResult<UserRow>): (r: Handled<Reply<TokenResponse>, UserByName>)
    ensures r.issued == Some(UserByName(req.username))
    // a token is issued exactly when the account exists and the password is the stored one
    ensures r.reply.Json? <==> lookup.Rows? && req.password == lookup.value.password
    // ... and it is built from the stored account, not from the request
    ensures r.reply.Json? ==>
              r.reply.body.token == Token(lookup.value.id, lookup.value.username, lookup.value.isAdmin)
    ensures lookup == QueryError(RowNotFound) ==> r.reply == Err(NoContent)
    ensures lookup == QueryError(OtherDbError) ==> r.reply == Err(InternalServerError)
    ensures lookup.Rows? && req.password != lookup.value.password ==> r.reply == Err(Unauthorized)
    // exactly four outcomes
    ensures r.reply.Err? ==> r.reply.status in {NoContent, InternalServerError, Unauthorized}
  {
    var reply :=
      match lookup
      case Rows(row) =>
        if req.password == row.password
        then Json(TokenResponse(Token(row.id, row.username, row.isAdmin)))
        else Err(Unauthorized)
      case QueryError(RowNotFound) => Err(NoContent)
      case QueryError(OtherDbError) => Err(InternalServerError);
    Handled(reply, Some(UserByName(req.username)))
  }

  /** Logging in and then presenting the token: when verification gives back the
      claims the token was created from, the next request is attributed to the
      stored account, with its administrator flag. */
  lemma LoginThenResolve(req: LoginRequest, lookup: QueryResult<UserRow>, claims: Identity.Claims)
    requires Login(req, lookup).reply.Json?
    requires var t := Login(req, lookup).reply.body.token;
             claims.sub == t.sub && claims.username == t.username && claims.isAdmin == t.isAdmin
    ensures lookup.Rows?
    ensures Identity.ResolveUser(Some(Identity.Verified(claims)))
            == Identity.AuthUser(lookup.value.id, lookup.value.username, lookup.value.isAdmin, true)
  {
  }
}
