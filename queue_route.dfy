/** `GET /api/extension/queue`: hand the extension up to five comments ready
    to post, marking them `posting`. */
module QueueRoute {
  import opened Wrappers
  import opened Seqs
  import opened Schema
  import opened Database

  /** One entry of the `comments` array in the reply. */
  datatype QueueItem = QueueItem(
    id: Id, text: string, url: string, platform: string, postTitle: string, subreddit: Option<string>)

  datatype Response = NoToken | InvalidToken | Items(comments: seq<QueueItem>)

  const QueueLimit: nat := 5

  predicate IsReady(m: Comment)
  {
    m.status == ReadyToPost
  }

  /** `orderBy(comments.createdAt)`: oldest first. */
  predicate ByCreatedAt(a: Comment, b: Comment)
  {
    a.createdAt <= b.createdAt
  }

  lemma ByCreatedAtIsTotal()
    ensures TotalPreorder(ByCreatedAt)
  {
  }

  /** The five oldest ready comments of all users. */
  function OldestReady(comments: seq<Comment>): (r: seq<Comment>)
    ensures |r| <= QueueLimit
    ensures forall m :: m in r ==> m in comments && m.status == ReadyToPost
    ensures Sorted(r, ByCreatedAt)
  {
    ByCreatedAtIsTotal();
    Top(Filter(comments, IsReady), ByCreatedAt, QueueLimit)
  }

  /** These are the oldest: min(ready, 5) of them, none younger than a ready
      comment left out, and a ready comment is left out only when all five
      places are taken. */
  lemma OldestReadyComplete(comments: seq<Comment>)
    ensures var ready := Filter(comments, IsReady);
      |OldestReady(comments)| == if |ready| <= QueueLimit then |ready| else QueueLimit
    ensures forall m, x :: m in OldestReady(comments) && x in comments && x.status == ReadyToPost && x !in OldestReady(comments) ==>
      m.createdAt <= x.createdAt
    ensures forall x :: x in comments && x.status == ReadyToPost && x !in OldestReady(comments) ==>
      |OldestReady(comments)| == QueueLimit
  {
    ByCreatedAtIsTotal();
    var ready := Filter(comments, IsReady);
    var oldest := OldestReady(comments);
    assert oldest == Top(ready, ByCreatedAt, QueueLimit);
    forall m, x | m in oldest && x in comments && x.status == ReadyToPost && x !in oldest
      ensures m.createdAt <= x.createdAt
    {
      assert x in ready;
      TopKeepsFirst(ready, ByCreatedAt, QueueLimit);
      assert ByCreatedAt(m, x);
    }
    forall x | x in comments && x.status == ReadyToPost && x !in oldest ensures |oldest| == QueueLimit {
      assert x in ready;
      TopFullWhenLeftOut(ready, ByCreatedAt, QueueLimit, x);
    }
  }

  /** `readyComments`: the five oldest ready comments, then those of the user.
      The limit comes before the user filter. */
  function Selected(comments: seq<Comment>, userId: Id): (r: seq<Comment>)
    ensures |r| <= QueueLimit
    ensures forall m :: m in r <==> m in OldestReady(comments) && m.userId == userId
    ensures forall m :: m in r ==> m in comments && m.status == ReadyToPost && m.userId == userId
    ensures Sorted(r, ByCreatedAt)
  {
    var oldest := OldestReady(comments);
    FilterSorted(oldest, ByCreatedAt, (m: Comment) => m.userId == userId);
    Filter(oldest, (m: Comment) => m.userId == userId)
  }

  /** A ready comment of the user that is not handed out waits behind five
      ready comments, of any user, none of them younger. */
  lemma SelectedSkipsOnlyBehindFive(comments: seq<Comment>, userId: Id, x: Comment)
    requires x in comments && x.status == ReadyToPost && x.userId == userId
    requires x !in Selected(comments, userId)
    ensures |OldestReady(comments)| == QueueLimit
    ensures forall m :: m in OldestReady(comments) ==> m.createdAt <= x.createdAt
  {
    OldestReadyComplete(comments);
  }

  /** The ids passed to `inArray`. */
  function IdsOf(s: seq<Comment>): (r: set<Id>)
    ensures forall m :: m in s ==> m.id in r
    ensures forall id :: id in r ==> exists m :: m in s && m.id == id
  {
    set m | m in s :: m.id
  }

  /** `set({ status: "posting", updatedAt: now })`. */
  function MarkPosting(now: Time): (f: Comment -> Comment)
    ensures KeepsKeys(f)
    ensures forall m: Comment :: f(m).status == Posting && f(m).updatedAt == now
  {
    (m: Comment) => m.(status := Posting, updatedAt := now)
  }

  /** The reply entry for a comment; a missing post gives empty strings and
      no subreddit. */
  function Item(posts: seq<DiscoveredPost>, m: Comment): (r: QueueItem)
    ensures r.id == m.id && r.text == m.generatedText
    ensures PostIndex(posts, m.postId).None? ==> r.url == "" && r.platform == "" && r.postTitle == "" && r.subreddit == None
    ensures PostIndex(posts, m.postId).Some? ==>
      var p := posts[PostIndex(posts, m.postId).value];
      p.id == m.postId && r.url == p.url && r.platform == p.platform && r.postTitle == p.title && r.subreddit == p.subreddit
  {
    match PostIndex(posts, m.postId)
    case None => QueueItem(m.id, m.generatedText, "", "", "", None)
    case Some(k) =>
      var p := posts[k];
      QueueItem(m.id, m.generatedText, p.url, p.platform, p.title, p.subreddit)
  }

  /** `GET` with header `x-extension-token` = `token`, at time `now`. */
  method Queue(store: Store, token: Option<string>, now: Time) returns (r: Response)
    requires store.Valid()
    modifies store
    ensures store.Valid() && store.nextId == old(store.nextId)
    ensures token.None? || token == Some("") ==> r == NoToken && store.tables == old(store.tables)
    ensures token.Some? && token != Some("") && UserByToken(old(store.tables).users, token.value).None? ==>
      r == InvalidToken && store.tables == old(store.tables)
    ensures token.Some? && token != Some("") && UserByToken(old(store.tables).users, token.value).Some? ==>
      var sel := Selected(old(store.tables).comments, UserByToken(old(store.tables).users, token.value).value.id);
      && r == Items(Map(sel, (m: Comment) => Item(old(store.tables).posts, m)))
      && store.tables == old(store.tables).(comments := CommentsWhere(old(store.tables).comments,
                                                                        (m: Comment) => m.id in IdsOf(sel), MarkPosting(now)))
  {
    if token.None? || token.value == "" {
      return NoToken;
    }
    var user := UserByToken(store.tables.users, token.value);
    if user.None? {
      return InvalidToken;
    }
    var readyComments := Selected(store.tables.comments, user.value.id);
    var ids := IdsOf(readyComments);
    if |readyComments| > 0 {
      store.UpdateCommentsWhere((m: Comment) => m.id in ids, MarkPosting(now));
    } else {
      NoIdsNoChange(store.tables.comments, MarkPosting(now));
    }
    var posts := store.tables.posts;
    r := Items(Map(readyComments, (m: Comment) => Item(posts, m)));
  }

  /** An update whose id list is empty changes no row. */
  lemma NoIdsNoChange(cs: seq<Comment>, f: Comment -> Comment)
    ensures CommentsWhere(cs, (m: Comment) => m.id in IdsOf([]), f) == cs
  {
  }

  /** After the update, exactly the rows of the selected comments are
      `posting` (stamped `now`) and every other row is as it was. */
  lemma ExactlySelectedMarked(t: Tables, userId: Id, now: Time)
    requires WellFormed(t)
    ensures var sel := Selected(t.comments, userId);
      var cs := CommentsWhere(t.comments, (m: Comment) => m.id in IdsOf(sel), MarkPosting(now));
      && |cs| == |t.comments|
      && forall i :: 0 <= i < |cs| ==>
           && (t.comments[i] in sel ==> cs[i] == t.comments[i].(status := Posting, updatedAt := now))
           && (t.comments[i] !in sel ==> cs[i] == t.comments[i])
  {
    var sel := Selected(t.comments, userId);
    var cs := CommentsWhere(t.comments, (m: Comment) => m.id in IdsOf(sel), MarkPosting(now));
    forall i | 0 <= i < |cs| && t.comments[i] !in sel ensures cs[i] == t.comments[i] {
      if t.comments[i].id in IdsOf(sel) {
        var m :| m in sel && m.id == t.comments[i].id;
        UniqueKeyedRow(t.comments, CommentIdKey, m, i);
      }
    }
  }

  /** A comment handed out once is no longer ready, so no later call (for any
      user) returns it again. */
  lemma NoSecondHandOut(t: Tables, userId: Id, now: Time, laterUser: Id)
    ensures var sel := Selected(t.comments, userId);
      var cs := CommentsWhere(t.comments, (m: Comment) => m.id in IdsOf(sel), MarkPosting(now));
      forall m :: m in Selected(cs, laterUser) ==> m.id !in IdsOf(sel)
  {
    var sel := Selected(t.comments, userId);
    var cs := CommentsWhere(t.comments, (m: Comment) => m.id in IdsOf(sel), MarkPosting(now));
    forall m | m in Selected(cs, laterUser) ensures m.id !in IdsOf(sel) {
      var i :| 0 <= i < |cs| && cs[i] == m;
    }
  }

  /** `n` copies of the ready comment `a` under distinct ids, none of them
      `b`'s, followed by `b`: a queue the comments table can hold. */
  function Backlog(a: Comment, b: Comment, n: nat): (cs: seq<Comment>)
    ensures |cs| == n + 1 && cs[n] == b
    ensures forall i :: 0 <= i < n ==> cs[i] == a.(id := b.id + 1 + i)
    ensures forall i, j :: 0 <= i < j < |cs| ==> cs[i].id != cs[j].id
  {
    seq(n, i requires 0 <= i => a.(id := b.id + 1 + i)) + [b]
  }

  /** The reply can be short although the user has ready comments: while
      five or more older ready comments of another user wait, the user's own
      ready comment is never handed out. */
  lemma ShortReply(a: Comment, b: Comment, n: nat)
    requires a.status == ReadyToPost && b.status == ReadyToPost
    requires a.userId != b.userId && a.createdAt < b.createdAt && n >= QueueLimit
    ensures Selected(Backlog(a, b, n), b.userId) == []
  {
    var cs := Backlog(a, b, n);
    BacklogReady(a, b, n);
    RunSorted(a, b, n);
    OldestOfReadySorted(cs);
    var top := Take(cs, QueueLimit);
    forall m | m in top ensures m.userId != b.userId {
      var i :| 0 <= i < |top| && top[i] == m;
      assert m == cs[i];
    }
    FilterNone(top, (m: Comment) => m.userId == b.userId);
  }

  lemma BacklogReady(a: Comment, b: Comment, n: nat)
    requires a.status == ReadyToPost && b.status == ReadyToPost
    ensures forall m :: m in Backlog(a, b, n) ==> m.status == ReadyToPost
  {
    var cs := Backlog(a, b, n);
    forall m | m in cs ensures m.status == ReadyToPost {
      var i :| 0 <= i < |cs| && cs[i] == m;
    }
  }

  /** On ready comments already in age order, the five oldest are the first five. */
  lemma OldestOfReadySorted(cs: seq<Comment>)
    requires forall m :: m in cs ==> m.status == ReadyToPost
    requires Sorted(cs, ByCreatedAt)
    ensures OldestReady(cs) == Take(cs, QueueLimit)
  {
    FilterAll(cs, IsReady);
    ByCreatedAtIsTotal();
    SortOfSorted(cs, ByCreatedAt);
  }

  lemma RunSorted(a: Comment, b: Comment, n: nat)
    requires a.createdAt < b.createdAt
    ensures Sorted(Backlog(a, b, n), ByCreatedAt)
  {
    var cs := Backlog(a, b, n);
    forall i, j | 0 <= i < j < |cs| ensures ByCreatedAt(cs[i], cs[j]) {
      assert cs[i].createdAt == a.createdAt;
    }
  }
}
