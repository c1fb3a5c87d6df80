# Posts backend: identity, login and like counters in Dafny

This project models the decision logic of a small posts backend (an axum/sqlx
service in Rust). It covers three parts:

- **Identity resolution** (`identity.dfy`). The middleware `get_auth_user` is meant
  to run before the handlers that read `Extension<AuthUser>`. It turns the optional bearer token into an `AuthUser`.
  A missing or unverifiable token yields the fixed anonymous user
  (`user_id = -1`, empty name, not admin, not connected). The middleware never
  rejects a request. Token verification is a library call, so its answer is an
  input (`Verification`).
- **Login** (`login.dfy`). The handler looks the account up by user name and
  compares the password as plain text. It then issues a token or answers 204,
  500 or 401. The lookup's outcome is an input. A token is represented by what
  it is created from: the stored id, user name and admin flag.
- **Post handlers** (`posts.dfy`, `likes.dfy`). `list`, `get_by_id`,
  `delete_post` and `create_post` are pure decisions. Each returns a
  `Handled(reply, issued)` value: the reply, and the SQL statement it sends with
  its bound parameters. `issued` is `None` when the handler answers before it
  touches the database. `like_post` and `unlike_post` are imperative:

  - A `LikeStore` object holds the committed like rows (a set of
    `(user_id, post_id)` pairs) and each post's `likes_count`.
  - A `Transaction` object holds a working copy. Only its `Commit` writes the
    copy back.
  - An early return drops the transaction, so the store stays unchanged.
  - Whether each step fails (begin, insert or delete, update, commit) is an
    input (`Faults`).

  The invariant studied is `Consistent`: every post's counter equals the number
  of distinct users who like it.

`outcomes.dfy` holds the shared values: statuses, replies, and the outcomes of
database statements.

The model follows the code as written, including these behaviours:

- Login compares passwords as plain text; nothing is hashed.
- Any insert error in `like_post` answers 500, never 409 (conflict). Whether
  liking the same post twice errs at all depends on the schema, which is not
  part of this model.
- Unliking a post the caller never liked answers 200, not 404.
- An unknown user name at login answers 204.
- Deleting a post needs the administrator check only, with no owner rule.
- `get_by_id` answers 500 for a missing post, not 404.

The record types in `backend/src/models/auth.rs` lack the `is_admin` field that
the middleware reads and writes. `create_jwt` takes one argument in
`backend/src/auth/token_handler.rs` but is called with three. The model uses the
fields and the call the handlers use: `user_id`, `username`, `is_admin`,
`is_connected`, and a token built from id, user name and admin flag.

## Model

| member | source | states |
|---|---|---|
| Identity.ResolveUser | backend/src/auth/middleware.rs:14-46 | No header or a rejected token gives the anonymous user (-1, "", not admin, not connected). `isConnected` holds iff a header was present and verified. A connected user's id, name and admin flag are the claims'. An unconnected user is never admin. |
| Identity.GetAuthUser | backend/src/auth/middleware.rs:11-53 | The middleware always continues to the handler, never with an error status, and attaches the resolved user. |
| Identity.RejectedIsAbsent | backend/src/auth/middleware.rs:29-45 | A token that fails verification gives exactly what no header gives. |
| Identity.AdminOnlyFromClaims | backend/src/auth/middleware.rs:22-45 | A request counts as admin iff it carries a verified token whose claims say admin. |
| Login.Login | backend/src/handlers/auth_handlers.rs:12-57 | The lookup is by the request's user name. A token is issued iff the row exists and the password equals the stored one exactly. The token is built from the stored id, user name and admin flag. RowNotFound gives 204, another database error 500, a wrong password 401. There are no other outcomes. |
| Login.LoginThenResolve | backend/src/handlers/auth_handlers.rs:26-38 | If verification returns the claims the token was created from, the next request resolves to the stored account, connected, with its admin flag. |
| Posts.ListArgs | backend/src/handlers/post_handlers.rs:16-20 | The bound user id is the caller's when connected and -1 otherwise. Limit defaults to 10 and offset to 0; given values are used as they are. |
| Posts.List | backend/src/handlers/post_handlers.rs:12-52 | `list` always sends the listing statement with `ListArgs`. It returns the fetched rows, or 500 on a database error. |
| Posts.ListRejectedTokenIsAnonymous | backend/src/handlers/post_handlers.rs:14-16 | A rejected token and no token bind the same listing statement, with user id -1. |
| Posts.GetById | backend/src/handlers/post_handlers.rs:59-82 | The handler fetches by id and returns the row. Any database error, a missing row included, gives 500. |
| Posts.DeletePost | backend/src/handlers/post_handlers.rs:89-108 | A non-admin gets 401 and no DELETE is sent. Otherwise one row or more deleted gives 204, zero rows 404, an error 500. 204 comes only from an admin's successful delete. |
| Posts.CreatePost | backend/src/handlers/post_handlers.rs:115-158 | A caller who is not connected gets 401 and nothing is inserted. Otherwise the insert binds the caller's id as owner and the form's content. The handler returns the inserted row, or 500 on an error. |
| Posts.AnonymousCannotCreate | backend/src/handlers/post_handlers.rs:117-120 | A request with no token or a rejected token is refused with 401 before any statement is sent. |
| Likes.Shift | backend/src/handlers/post_handlers.rs:191-194 | The counter update moves only the given post's count, by the delta, and leaves other counts alone. A post id without a row changes nothing. |
| Likes.LikeCountAdd | backend/src/handlers/post_handlers.rs:179-183 | Inserting a new like row raises that post's row count by one and leaves every other post's count alone. |
| Likes.LikeCountRemove | backend/src/handlers/post_handlers.rs:227-231 | Deleting an existing like row lowers that post's row count by one and leaves every other post's count alone. |
| Likes.LikeKeepsConsistent | backend/src/handlers/post_handlers.rs:179-205 | A committed like of a post not liked before keeps every counter equal to its like rows. |
| Likes.DuplicateLikeBreaksConsistency | backend/src/handlers/post_handlers.rs:179-198 | If the insert of an already-liked pair succeeded, the counter would exceed the number of distinct likes of the post by one. The counter matches the distinct likes only if such an insert fails, and the handler does not check for that itself. |
| Likes.UnlikeKeepsConsistent | backend/src/handlers/post_handlers.rs:227-252 | A committed unlike of an existing like keeps every counter equal to its like rows. |
| Likes.UnlikeWithoutLikeBreaksConsistency | backend/src/handlers/post_handlers.rs:227-245 | A committed unlike with no like row leaves the rows unchanged but lowers the counter, which ends one below the rows. |
| Likes.UnlikeWithoutLikeExample | backend/src/handlers/post_handlers.rs:227-245 | Concrete case: post 7 has counter 1 and one like, by user 2. User 1, who never liked it, unlikes it: the like stays, the counter drops to 0, and the tables are inconsistent. |
| Likes.LikeUnlikeRoundTrip | backend/src/handlers/post_handlers.rs:179-245 | Liking a pair that was not liked and then unliking it gives back exactly the tables before: the row and the counter are restored. |
| Likes.TwoUsersLike | backend/src/handlers/post_handlers.rs:191-194 | Two different users liking the same post raise its counter by exactly two, and the tables stay consistent. |
| Likes.Transaction.Begin | backend/src/handlers/post_handlers.rs:173-176 | A transaction starts with a working copy equal to the committed tables. |
| Likes.Transaction.Insert | backend/src/handlers/post_handlers.rs:179-183 | The insert adds the pair to the working copy and reports one row, or errs and changes nothing. |
| Likes.Transaction.Delete | backend/src/handlers/post_handlers.rs:227-231 | The delete removes the pair from the working copy and reports 1 or 0 rows, depending on whether the pair was there, or errs and changes nothing. |
| Likes.Transaction.ShiftCount | backend/src/handlers/post_handlers.rs:238-241 | The update shifts the post's counter in the working copy by the delta, or errs and changes nothing. |
| Likes.Transaction.Commit | backend/src/handlers/post_handlers.rs:200-203 | A successful commit makes the committed tables equal the working copy. A failed commit leaves them unchanged. |
| Likes.LikePost | backend/src/handlers/post_handlers.rs:165-206 | A caller who is not connected gets 401. A connected caller gets 201 iff no step fails, and 500 otherwise. On 201 the pair is added and the post's counter rises by exactly 1. On any other answer the tables are unchanged. A new like on consistent tables keeps them consistent. |
| Likes.UnlikePost | backend/src/handlers/post_handlers.rs:213-253 | As written: 401 when not connected, 200 iff no step fails, 500 otherwise. On 200 the pair is removed and the counter falls by exactly 1, even when no like row existed. Otherwise the tables are unchanged. |
| Likes.UnlikePostChecked | backend/src/handlers/post_handlers.rs:213-253 | Corrected: when the delete removed no row the answer is 404 and nothing is committed. 200 comes only for an existing like. Consistent tables stay consistent on every path. |

## Left out

- Token creation and verification (`backend/src/auth/token_handler.rs`) are left out: signing, the 24-hour expiry and the `JWT_SECRET` variable. The verifier's answer is the `Verification` input, and a token is the data it is created from.
- `get_is_admin`, called by `delete_post`, is not defined in the snapshot's `backend/src/handlers/auth_handlers.rs`. It is not part of this model; its answer is the `isAdmin` input of `Posts.DeletePost`.
- The SQL of `list`, `get_by_id` and `create_post` is not modelled: joins, ordering, `LIMIT`/`OFFSET`, the liked flag and the returned row. Their results are inputs.
- Likes.Transaction.Insert: the like rows are a set of (user, post) pairs, so the model cannot hold a duplicate row. A successful insert of a pair that is already there leaves the set as it was while still reporting one row, where a table without a unique key would gain a second row. `Consistent` therefore compares each counter with the number of distinct likes.
- The schema of `user_likes` and `posts` is not shown. Uniqueness and foreign keys are not modelled; whether an insert fails is an input. `Likes.DuplicateLikeBreaksConsistency` states what depends on that.
- Concurrency and isolation are not modelled: overlapping transactions, the connection pool, async cancellation. Transactions are sequential and take effect at commit.
- Integer widths are not modelled: ids and `likes_count` are 32-bit and `limit`/`offset` 64-bit, while the model uses unbounded integers. A counter update that overflows is an error the database reports, which the model covers as a failing update step.
- Logging (`println!`, `eprintln!`) and the insertion of the user into the request extensions are left out as plumbing.
- Bootstrap and routing (`backend/src/main.rs`, `backend/src/routes/`), the fixture handlers in `backend/src/handlers/user_handlers.rs` and the web front end are left out. They hold no decision logic. The router in `backend/src/main.rs` nests only the user routes and installs no middleware layer, so nothing in these files wires `get_auth_user` in front of the handlers that read `Extension<AuthUser>`.

## Findings

| source | as written | input that shows it | evidently intended | confidence | as-written member | corrected member |
|---|---|---|---|---|---|---|
| backend/src/handlers/post_handlers.rs:227-245 | `unlike_post` ignores the DELETE's rows-affected count and always decrements `likes_count` | Post 7 has counter 1 and one like, by user 2. Connected user 1, who never liked it, unlikes it and every statement succeeds. The answer is 200, the like of user 2 stays and the counter becomes 0. | When no like row was deleted, answer 404 and drop the transaction, so the counter keeps equal to the like rows | high (not executed) | Likes.UnlikePost | Likes.UnlikePostChecked |

`Likes.UnlikeWithoutLikeBreaksConsistency` and `Likes.UnlikeWithoutLikeExample`
exhibit the as-written behaviour. `Likes.UnlikeKeepsConsistent` proves the
corrected one.
