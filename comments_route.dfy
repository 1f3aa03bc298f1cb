/** `GET /api/comments`: the signed-in user's comments, newest first, each
    joined with a summary of its post and its campaign's brand name. */
module CommentsRoute {
  import opened Wrappers
  import opened Seqs
  import opened Schema

  /** `post: { title, url, subreddit, platform }`. */
  datatype PostSummary = PostSummary(title: string, url: string, subreddit: Option<string>, platform: string)

  /** The summary shown when the post row is gone. */
  const NoPost: PostSummary := PostSummary("", "", None, "")

  /** A comment row plus its post summary and `campaign: { brandName }`. */
  datatype CommentItem = CommentItem(comment: Comment, post: PostSummary, brandName: string)

  datatype Response = Unauthorized | Comments(items: seq<CommentItem>)

  const CommentsLimit: nat := 100

  /** `orderBy(desc(createdAt))`. */
  predicate NewerFirst(a: Comment, b: Comment)
  {
    a.createdAt >= b.createdAt
  }

  lemma NewerFirstIsTotal()
    ensures TotalPreorder(NewerFirst)
  {
  }

  function Summary(p: DiscoveredPost): PostSummary
  {
    PostSummary(p.title, p.url, p.subreddit, p.platform)
  }

  /** The summary of the post with id `postId`, or `NoPost`. */
  function PostSummaryOf(posts: seq<DiscoveredPost>, postId: Id): (r: PostSummary)
    ensures (forall p :: p in posts ==> p.id != postId) ==> r == NoPost
    ensures (exists p :: p in posts && p.id == postId) ==>
      exists p :: p in posts && p.id == postId && r == Summary(p)
  {
    match FindFirst(posts, (p: DiscoveredPost) => p.id == postId)
    case None => NoPost
    case Some(p) => Summary(p)
  }

  /** The user's rows as the query returns them: newest first, at most 100. */
  function Newest(comments: seq<Comment>, userId: Id): (r: seq<Comment>)
    ensures |r| <= CommentsLimit
    ensures forall m :: m in r ==> m in comments && m.userId == userId
    ensures Sorted(r, NewerFirst)
  {
    NewerFirstIsTotal();
    Top(Filter(comments, (m: Comment) => m.userId == userId), NewerFirst, CommentsLimit)
  }

  /** The limit is the only loss: `min(owned, 100)` rows, and a row of the
      user left out is no newer than any row kept. */
  lemma NewestComplete(comments: seq<Comment>, userId: Id)
    ensures var r := Newest(comments, userId);
      var mine := Filter(comments, (m: Comment) => m.userId == userId);
      && |r| == (if |mine| <= CommentsLimit then |mine| else CommentsLimit)
      && forall m, n :: m in mine && m !in r && n in r ==> NewerFirst(n, m)
  {
    NewerFirstIsTotal();
    TopKeepsFirst(Filter(comments, (m: Comment) => m.userId == userId), NewerFirst, CommentsLimit);
  }

  /** The per-row join. */
  function Joined(t: Tables, rows: seq<Comment>): (items: seq<CommentItem>)
    ensures |items| == |rows|
    ensures forall i :: 0 <= i < |rows| ==> items[i].comment == rows[i]
  {
    seq(|rows|, i requires 0 <= i < |rows| =>
      CommentItem(rows[i], PostSummaryOf(t.posts, rows[i].postId), CampaignBrand(t.campaigns, rows[i].campaignId)))
  }

  /** The reply to the signed-in user `session`; no session is a 401. */
  function UserComments(t: Tables, session: Option<Id>): (r: Response)
    ensures r.Unauthorized? <==> session.None?
    ensures r.Comments? ==> |r.items| <= CommentsLimit
  {
    if session.None? then Unauthorized
    else Comments(Joined(t, Newest(t.comments, session.value)))
  }

  /** Without a session the reply is a 401 and lists nothing. */
  lemma NoSessionUnauthorized(t: Tables)
    ensures UserComments(t, None) == Unauthorized
  {
  }

  function CommentsOf(items: seq<CommentItem>): seq<Comment>
  {
    seq(|items|, i requires 0 <= i < |items| => items[i].comment)
  }

  /** The reply lists exactly the user's newest rows, in order, each row
      unchanged. */
  lemma UserCommentsAreNewest(t: Tables, userId: Id)
    ensures UserComments(t, Some(userId)).Comments?
    ensures CommentsOf(UserComments(t, Some(userId)).items) == Newest(t.comments, userId)
  {
  }

  /** The item's post summary is that of the comment's own post. */
  predicate OwnPost(posts: seq<DiscoveredPost>, item: CommentItem)
  {
    exists p :: p in posts && p.id == item.comment.postId && item.post == Summary(p)
  }

  /** The item's brand name is that of the comment's own campaign. */
  predicate OwnBrand(campaigns: seq<Campaign>, item: CommentItem)
  {
    exists c :: c in campaigns && c.id == item.comment.campaignId && item.brandName == c.brandName
  }

  /** The joined post and brand name belong to the comment's own post and
      campaign, or are the empty defaults when that row is gone. */
  predicate JoinedRight(t: Tables, item: CommentItem)
  {
    && (OwnPost(t.posts, item) || ((forall p :: p in t.posts ==> p.id != item.comment.postId) && item.post == NoPost))
    && (OwnBrand(t.campaigns, item) || ((forall c :: c in t.campaigns ==> c.id != item.comment.campaignId) && item.brandName == ""))
  }

  /** The join of one comment. */
  lemma JoinOne(t: Tables, m: Comment)
    ensures var item := CommentItem(m, PostSummaryOf(t.posts, m.postId), CampaignBrand(t.campaigns, m.campaignId));
      && JoinedRight(t, item)
      && (m.postId in PostIds(t.posts) ==> OwnPost(t.posts, item))
      && (m.campaignId in CampaignIds(t.campaigns) ==> OwnBrand(t.campaigns, item))
  {
  }

  lemma UserCommentsJoined(t: Tables, userId: Id)
    ensures var items := UserComments(t, Some(userId)).items;
      forall i :: 0 <= i < |items| ==> JoinedRight(t, items[i])
  {
    var items := UserComments(t, Some(userId)).items;
    forall i | 0 <= i < |items| ensures JoinedRight(t, items[i]) {
      JoinOne(t, items[i].comment);
    }
  }

  /** In a well-formed database every comment's post and campaign exist, so
      the empty defaults never show. */
  lemma WellFormedNeverEmpty(t: Tables, userId: Id)
    requires WellFormed(t)
    ensures var items := UserComments(t, Some(userId)).items;
      forall i :: 0 <= i < |items| ==> OwnPost(t.posts, items[i]) && OwnBrand(t.campaigns, items[i])
  {
    var items := UserComments(t, Some(userId)).items;
    var rows := Newest(t.comments, userId);
    forall i | 0 <= i < |items| ensures OwnPost(t.posts, items[i]) && OwnBrand(t.campaigns, items[i]) {
      assert rows[i] in rows;
      JoinOne(t, rows[i]);
    }
  }
}
