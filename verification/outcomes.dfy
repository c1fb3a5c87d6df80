/** Values shared by the handlers: HTTP statuses, handler replies, and the
    outcomes of database statements, which the model receives as inputs. */
module Outcomes {

  datatype Option<+T> = None | Some(value: T)

  /** The HTTP statuses the handlers can answer with: 200, 201, 204, 401, 404 and 500. */
  datatype Status = Ok | Created | NoContent | Unauthorized | NotFound | InternalServerError

  /** A handler's `Result<Json<T>, StatusCode>`: a JSON body or an error status. */
  datatype Reply<+T> = Json(body: T) | Err(status: Status)

  /** The error a database call reports: no row for a `fetch_one`, or anything else. */
  datatype DbError = RowNotFound | OtherDbError

  /** The outcome of one database statement: its rows (or its rows-affected count) or an error. */
  datatype QueryResult<+T> = Rows(value: T) | QueryError(error: DbError)

  /** What a handler does with one request: the reply it sends, and the statement it
      issues to the database (None when it answers before touching the database). */
  datatype Handled<+R, +Q> = Handled(reply: R, issued: Option<Q>)
}
