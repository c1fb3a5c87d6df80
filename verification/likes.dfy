/** Liking and unliking a post. Each handler opens a transaction, changes the
    `user_likes` table and the post's `likes_count`, and commits; returning
    before the commit drops the transaction, so nothing it did is seen. */
module Likes {
  import opened Outcomes
  import opened Identity

  /** A row of `user_likes`: this user likes this post. */
  datatype Like = Like(userId: int, postId: int)

  /** The part of the database the like handlers touch: the like rows, and each
      existing post's `likes_count` by post id. */
  datatype Tables = Tables(likes: set<Like>, counts: map<int, int>)

  /** The number of like rows that reference a post. */
  function LikeCount(likes: set<Like>, postId: int): nat
  {
    |set l | l in likes && l.postId == postId|
  }

  /** Every post's stored counter equals the number of its like rows. */
  predicate Consistent(t: Tables)
  {
    forall p :: p in t.counts ==> t.counts[p] == LikeCount(t.likes, p)
  }

  /** `UPDATE posts SET likes_count = likes_count + delta WHERE id = postId`:
      a post id with no row is left alone, without an error. */
  function Shift(counts: map<int, int>, postId: int, delta: int): (c: map<int, int>)
    ensures c.Keys == counts.Keys
    ensures postId in counts ==> c[postId] == counts[postId] + delta
    ensures forall p :: p in counts && p != postId ==> c[p] == counts[p]
  {
    if postId in counts then counts[postId := counts[postId] + delta] else counts
  }

  /** The tables after a committed like: the row is added and the post's counter
      goes up by one. */
  function Liked(t: Tables, l: Like): Tables
  {
    Tables(t.likes + {l}, Shift(t.counts, l.postId, 1))
  }

  /** The tables after a committed unlike: the row is removed if it was there, and
      the post's counter goes down by one whether or not it was. */
  function Unliked(t: Tables, l: Like): Tables
  {
    Tables(t.likes - {l}, Shift(t.counts, l.postId, -1))
  }

  /** Adding a new like row raises its post's row count by one and no other's. */
  lemma {:induction false} LikeCountAdd(likes: set<Like>, l: Like, p: int)
    requires l !in likes
    ensures LikeCount(likes + {l}, p) == LikeCount(likes, p) + (if l.postId == p then 1 else 0)
  {
    var before := set x | x in likes && x.postId == p;
    var after := set x | x in likes + {l} && x.postId == p;
    if l.postId == p {
      assert after == before + {l};
    } else {
      assert after == before;
    }
  }

  /** Removing an existing like row lowers its post's row count by one and no other's. */
  lemma {:induction false} LikeCountRemove(likes: set<Like>, l: Like, p: int)
    requires l in likes
    ensures LikeCount(likes - {l}, p) == LikeCount(likes, p) - (if l.postId == p then 1 else 0)
  {
    var before := set x | x in likes && x.postId == p;
    var after := set x | x in likes - {l} && x.postId == p;
    if l.postId == p {
      assert before == after + {l};
    } else {
      assert after == before;
    }
  }

  /** Liking a post one has not liked yet keeps every counter equal to its rows. */
  lemma {:induction false} LikeKeepsConsistent(t: Tables, l: Like)
    requires Consistent(t) && l !in t.likes
    ensures Consistent(Liked(t, l))
  {
    var u := Liked(t, l);
    forall p | p in u.counts
      ensures u.counts[p] == LikeCount(u.likes, p)
    {
      LikeCountAdd(t.likes, l, p);
    }
  }

  /** A like of a pair that is already liked still bumps the counter, so the
      counter ends one above the number of distinct likes of the post. The counter
      matches the distinct likes only if the insert of a duplicate pair fails; that
      depends on a uniqueness constraint of the schema, which the handler does not
      check. */
  lemma {:induction false} DuplicateLikeBreaksConsistency(t: Tables, l: Like)
    requires Consistent(t) && l in t.likes && l.postId in t.counts
    ensures !Consistent(Liked(t, l))
    ensures Liked(t, l).counts[l.postId] == LikeCount(Liked(t, l).likes, l.postId) + 1
  {
    var u := Liked(t, l);
    assert u.likes == t.likes;
  }

  /** Unliking a post one has liked keeps every counter equal to its rows. */
  lemma {:induction false} UnlikeKeepsConsistent(t: Tables, l: Like)
    requires Consistent(t) && l in t.likes
    ensures Consistent(Unliked(t, l))
  {
    var u := Unliked(t, l);
    forall p | p in u.counts
      ensures u.counts[p] == LikeCount(u.likes, p)
    {
      LikeCountRemove(t.likes, l, p);
    }
  }

  /** Unliking a post one has not liked still lowers the counter: the like rows are
      unchanged and the counter ends one below their number. */
  lemma {:induction false} UnlikeWithoutLikeBreaksConsistency(t: Tables, l: Like)
    requires Consistent(t) && l !in t.likes && l.postId in t.counts
    ensures !Consistent(Unliked(t, l))
    ensures Unliked(t, l).counts[l.postId] == LikeCount(Unliked(t, l).likes, l.postId) - 1
  {
    var u := Unliked(t, l);
    assert u.likes == t.likes;
  }

  /** A concrete case: post 7 has a counter of 1 and one like, by user 2. User 1,
      who never liked it, unlikes it: the like of user 2 stays and the counter
      drops to 0. */
  lemma UnlikeWithoutLikeExample()
    ensures var t := Tables({Like(2, 7)}, map[7 := 1]);
            var u := Unliked(t, Like(1, 7));
            Consistent(t) && u.likes == {Like(2, 7)} && u.counts[7] == 0 && !Consistent(u)
  {
    var t := Tables({Like(2, 7)}, map[7 := 1]);
    assert (set l | l in t.likes && l.postId == 7) == {Like(2, 7)};
    UnlikeWithoutLikeBreaksConsistency(t, Like(1, 7));
  }

  /** Unliking undoes a like of a pair that was not liked before: the row goes
      away again and the counter returns to where it was. */
  lemma {:induction false} LikeUnlikeRoundTrip(t: Tables, l: Like)
    requires l !in t.likes
    ensures Unliked(Liked(t, l), l) == t
  {
    assert t.likes + {l} - {l} == t.likes;
    assert Shift(Shift(t.counts, l.postId, 1), l.postId, -1) == t.counts;
  }

  /** Two different users liking the same post, one after the other, raise its
      counter by two and keep the tables consistent. */
  lemma {:induction false} TwoUsersLike(t: Tables, a: int, b: int, postId: int)
    requires Consistent(t) && a != b && postId in t.counts
    requires Like(a, postId) !in t.likes && Like(b, postId) !in t.likes
    ensures var u := Liked(Liked(t, Like(a, postId)), Like(b, postId));
            Consistent(u) && u.counts[postId] == t.counts[postId] + 2
  {
    LikeKeepsConsistent(t, Like(a, postId));
    LikeKeepsConsistent(Liked(t, Like(a, postId)), Like(b, postId));
  }

  /** Which steps of a like or unlike fail when they are reached: opening the
      transaction, the insert or delete of the like row, the counter update, and
      the commit. */
  datatype Faults = Faults(begin: bool, write: bool, update: bool, commit: bool)
  {
    predicate Any() { begin || write || update || commit }
  }

  /** The committed state of the tables. */
  class LikeStore {
    var likes: set<Like>
    var counts: map<int, int>

    function State(): Tables
      reads this
    {
      Tables(likes, counts)
    }

    constructor (t: Tables)
      ensures State() == t
    {
      likes, counts := t.likes, t.counts;
    }
  }

  /** An open transaction: a working copy of the tables that only `Commit` publishes. */
  class Transaction {
    const store: LikeStore
    var likes: set<Like>
    var counts: map<int, int>

    function Working(): Tables
      reads this
    {
      Tables(likes, counts)
    }

    constructor Begin(store: LikeStore)
      ensures this.store == store && Working() == store.State()
    {
      this.store := store;
      likes, counts := store.likes, store.counts;
    }

    /** `INSERT INTO user_likes`; `fails` says whether the statement errs. */
    method Insert(l: Like, fails: bool) returns (r: QueryResult<nat>)
      modifies this
      ensures r == if fails then QueryError(OtherDbError) else Rows(1)
      ensures Working() == if fails then old(Working()) else Tables(old(likes) + {l}, old(counts))
    {
      if fails {
        return QueryError(OtherDbError);
      }
      likes := likes + {l};
      return Rows(1);
    }

    /** `DELETE FROM user_likes`; reports how many rows it removed. */
    method Delete(l: Like, fails: bool) returns (r: QueryResult<nat>)
      modifies this
      ensures r == if fails then QueryError(OtherDbError) else Rows(if l in old(likes) then 1 else 0)
      ensures Working() == if fails then old(Working()) else Tables(old(likes) - {l}, old(counts))
    {
      if fails {
        return QueryError(OtherDbError);
      }
      var removed := if l in likes then 1 else 0;
      likes := likes - {l};
      return Rows(removed);
    }

    /** `UPDATE posts SET likes_count = likes_count + delta WHERE id = postId`. */
    method ShiftCount(postId: int, delta: int, fails: bool) returns (r: QueryResult<nat>)
      modifies this
      ensures r == if fails then QueryError(OtherDbError) else Rows(if postId in old(counts) then 1 else 0)
      ensures Working() == if fails then old(Working()) else Tables(old(likes), Shift(old(counts), postId, delta))
    {
      if fails {
        return QueryError(OtherDbError);
      }
      var updated := if postId in counts then 1 else 0;
      counts := Shift(counts, postId, delta);
      return Rows(updated);
    }

    /** Publishes the working copy, unless the commit fails. */
    method Commit(fails: bool) returns (ok: bool)
      modifies store
      ensures ok == !fails
      ensures store.State() == if ok then Working() else old(store.State())
    {
      if fails {
        return false;
      }
      store.likes, store.counts := likes, counts;
      return true;
    }
  }

  /** `like_post`: only a connected caller may like; any failing step answers 500
      and leaves the tables as they were. */
  method LikePost(store: LikeStore, id: int, user: AuthUser, faults: Faults) returns (status: Status)
    modifies store
    ensures !user.isConnected ==> status == Unauthorized
    ensures user.isConnected && faults.Any() ==> status == InternalServerError
    ensures status == Created <==> user.isConnected && !faults.Any()
    ensures store.State() == if status == Created then Liked(old(store.State()), Like(user.userId, id))
                             else old(store.State())
    ensures status == Created && id in old(store.counts) ==> store.counts[id] == old(store.counts[id]) + 1
    ensures Consistent(old(store.State())) && Like(user.userId, id) !in old(store.likes) ==> Consistent(store.State())
  {
    if !user.isConnected {
      return Unauthorized;
    }
    if faults.begin {
      return InternalServerError;
    }
    var tx := new Transaction.Begin(store);
    var inserted := tx.Insert(Like(user.userId, id), faults.write);
    if inserted.QueryError? {
      return InternalServerError;
    }
    var updated := tx.ShiftCount(id, 1, faults.update);
    if updated.QueryError? {
      return InternalServerError;
    }
    var committed := tx.Commit(faults.commit);
    if !committed {
      return InternalServerError;
    }
    if Consistent(old(store.State())) && Like(user.userId, id) !in old(store.likes) {
      LikeKeepsConsistent(old(store.State()), Like(user.userId, id));
    }
    return Created;
  }

  /** `unlike_post` as written: the number of deleted rows is not looked at, so a
      caller who never liked the post still lowers its counter. */
  method UnlikePost(store: LikeStore, id: int, user: AuthUser, faults: Faults) returns (status: Status)
    modifies store
    ensures !user.isConnected ==> status == Unauthorized
    ensures user.isConnected && faults.Any() ==> status == InternalServerError
    ensures status == Ok <==> user.isConnected && !faults.Any()
    ensures store.State() == if status == Ok then Unliked(old(store.State()), Like(user.userId, id))
                             else old(store.State())
    ensures status == Ok && id in old(store.counts) ==> store.counts[id] == old(store.counts[id]) - 1
    ensures Consistent(old(store.State())) && Like(user.userId, id) in old(store.likes) ==> Consistent(store.State())
  {
    if !user.isConnected {
      return Unauthorized;
    }
    if faults.begin {
      return InternalServerError;
    }
    var tx := new Transaction.Begin(store);
    var deleted := tx.Delete(Like(user.userId, id), faults.write);
    if deleted.QueryError? {
      return InternalServerError;
    }
    var updated := tx.ShiftCount(id, -1, faults.update);
    if updated.QueryError? {
      return InternalServerError;
    }
    var committed := tx.Commit(faults.commit);
    if !committed {
      return InternalServerError;
    }
    if Consistent(old(store.State())) && Like(user.userId, id) in old(store.likes) {
      UnlikeKeepsConsistent(old(store.State()), Like(user.userId, id));
    }
    return Ok;
  }

  /** `unlike_post` with the deleted-row count checked: when the caller had no like
      on the post, the transaction is dropped and the answer is 404. The counter then
      stays equal to the number of like rows. */
  method UnlikePostChecked(store: LikeStore, id: int, user: AuthUser, faults: Faults) returns (status: Status)
    modifies store
    ensures !user.isConnected ==> status == Unauthorized
    ensures status == NotFound <==>
              user.isConnected && !faults.begin && !faults.write && Like(user.userId, id) !in old(store.likes)
    ensures status == Ok <==>
              user.isConnected && !faults.Any() && Like(user.userId, id) in old(store.likes)
    ensures status in {Ok, Unauthorized, NotFound, InternalServerError}
    ensures store.State() == if status == Ok then Unliked(old(store.State()), Like(user.userId, id))
                             else old(store.State())
    ensures Consistent(old(store.State())) ==> Consistent(store.State())
  {
    if !user.isConnected {
      return Unauthorized;
    }
    if faults.begin {
      return InternalServerError;
    }
    var tx := new Transaction.Begin(store);
    var deleted := tx.Delete(Like(user.userId, id), faults.write);
    if deleted.QueryError? {
      return InternalServerError;
    }
    if deleted.value == 0 {
      return NotFound;
    }
    var updated := tx.ShiftCount(id, -1, faults.update);
    if updated.QueryError? {
      return InternalServerError;
    }
    var committed := tx.Commit(faults.commit);
    if !committed {
      return InternalServerError;
    }
    if Consistent(old(store.State())) {
      UnlikeKeepsConsistent(old(store.State()), Like(user.userId, id));
    }
    return Ok;
  }
}
