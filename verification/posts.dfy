/** The post handlers that decide a reply from the caller's identity and the
    outcome of one database statement: list, get by id, delete and create. */
module Posts {
  import opened Outcomes
  import opened Identity

  /** One post as the handlers return it, joined with its author. */
  datatype PostWithUserData = PostWithUserData(
    id: int, content: string, likesCount: int,
    userId: int, userUsername: string, authIsLiked: bool)

  /** The optional `offset` and `limit` query parameters of a listing. */
  datatype PaginationQuery = PaginationQuery(offset: Option<int>, limit: Option<int>)

  const DefaultLimit: int := 10
  const DefaultOffset: int := 0

  /** The listing statement with its bound parameters: whose likes to flag, and the page. */
  datatype ListQuery = ListQuery(userId: int, limit: int, offset: int)

  /** The parameters `list` binds to its statement. */
  function ListArgs(user: AuthUser, page: PaginationQuery): (q: ListQuery)
    ensures user.isConnected ==> q.userId == user.userId
    ensures !user.isConnected ==> q.userId == -1
    ensures q.limit == (if page.limit.Some? then page.limit.value else 10)
    ensures q.offset == (if page.offset.Some? then page.offset.value else 0)
  {
    var userId := if user.isConnected then user.userId else -1;
    var limit := match page.limit case Some(l) => l case None => DefaultLimit;
    var offset := match page.offset case Some(o) => o case None => DefaultOffset;
    ListQuery(userId, limit, offset)
  }

  /** Lists a page of posts; `fetched` is what the database answered. */
  function List(user: AuthUser, page: PaginationQuery, fetched: QueryResult<seq<PostWithUserData>>)
    : (r: Handled<Reply<seq<PostWithUserData>>, ListQuery>)
    ensures r.issued == Some(ListArgs(user, page))
    ensures fetched.Rows? ==> r.reply == Json(fetched.value)
    ensures fetched.QueryError? ==> r.reply == Err(InternalServerError)
  {
    var reply := match fetched
      case Rows(posts) => Json(posts)
      case QueryError(_) => Err(InternalServerError);
    Handled(reply, Some(ListArgs(user, page)))
  }

  /** A rejected token and no token at all give the same listing statement:
      neither can see another user's likes. */
  lemma ListRejectedTokenIsAnonymous(page: PaginationQuery)
    ensures ListArgs(ResolveUser(Some(Rejected)), page) == ListArgs(ResolveUser(None), page)
    ensures ListArgs(ResolveUser(None), page).userId == -1
  {
  }

  /** The statement fetching one post. */
  datatype PostById = PostById(id: int)

  /** Fetches one post. A missing post is reported like any other database error. */
  function GetById(id: int, fetched: QueryResult<PostWithUserData>): (r: Handled<Reply<PostWithUserData>, PostById>)
    ensures r.issued == Some(PostById(id))
    ensures fetched.Rows? ==> r.reply == Json(fetched.value)
    ensures fetched == QueryError(RowNotFound) ==> r.reply == Err(InternalServerError)
    ensures r.reply.Err? <==> fetched.QueryError?
  {
    var reply := match fetched
      case Rows(post) => Json(post)
      case QueryError(_) => Err(InternalServerError);
    Handled(reply, Some(PostById(id)))
  }

  /** The statement deleting one post. */
  datatype DeletePostById = DeletePostById(id: int)

  /** Deletes a post. `isAdmin` is the administrator check's answer for the caller;
      `deleted` is the number of rows the DELETE affected, or its error. */
  function DeletePost(id: int, isAdmin: bool, deleted: QueryResult<nat>): (r: Handled<Status, DeletePostById>)
    // a caller who is not an administrator gets 401 and deletes nothing
    ensures !isAdmin ==> r.reply == Unauthorized && r.issued == None
    ensures isAdmin ==> r.issued == Some(DeletePostById(id))
    ensures isAdmin && deleted.Rows? && deleted.value > 0 ==> r.reply == NoContent
    ensures isAdmin && deleted == Rows(0) ==> r.reply == NotFound
    ensures isAdmin && deleted.QueryError? ==> r.reply == InternalServerError
    ensures r.reply == NoContent <==> isAdmin && deleted.Rows? && deleted.value > 0
  {
    if !isAdmin then Handled(Unauthorized, None)
    else
      var status := match deleted
        case Rows(n) => if n > 0 then NoContent else NotFound
        case QueryError(_) => InternalServerError;
      Handled(status, Some(DeletePostById(id)))
  }

  /** The form a new post is submitted with. */
  datatype FormPost = FormPost(content: string)

  /** The insert statement with its bound parameters: the owner, the content, and
      the user whose like flag is returned. */
  datatype InsertPost = InsertPost(ownerId: int, content: string, likerId: int)

  /** Creates a post owned by the caller; `inserted` is the row the statement returned. */
  function CreatePost(user: AuthUser, form: FormPost, inserted: QueryResult<PostWithUserData>)
    : (r: Handled<Reply<PostWithUserData>, InsertPost>)
    // a caller who is not connected gets 401 and nothing is inserted
    ensures !user.isConnected ==> r.reply == Err(Unauthorized) && r.issued == None
    // otherwise the new post belongs to the caller and holds the submitted content
    ensures user.isConnected ==> r.issued == Some(InsertPost(user.userId, form.content, user.userId))
    ensures user.isConnected && inserted.Rows? ==> r.reply == Json(inserted.value)
    ensures user.isConnected && inserted.QueryError? ==> r.reply == Err(InternalServerError)
  {
    if !user.isConnected then Handled(Err(Unauthorized), None)
    else
      var reply := match inserted
        case Rows(post) => Json(post)
        case QueryError(_) => Err(InternalServerError);
      Handled(reply, Some(InsertPost(user.userId, form.content, user.userId)))
  }

  /** A request without a usable token cannot create a post: it is refused
      before any statement is sent. */
  lemma AnonymousCannotCreate(header: Option<Verification>, form: FormPost, inserted: QueryResult<PostWithUserData>)
    requires header == None || header == Some(Rejected)
    ensures CreatePost(ResolveUser(header), form, inserted) == Handled(Err(Unauthorized), None)
  {
  }
}
