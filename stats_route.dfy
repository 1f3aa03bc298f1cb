/** `GET /api/dashboard/stats`: the four counters on the dashboard. */
module StatsRoute {
  import opened Wrappers
  import opened Seqs
  import opened Schema

  datatype Stats = Stats(campaigns: nat, discoveredPosts: nat, pendingComments: nat, postedComments: nat)

  /** The statuses counted as "pending": still on their way to being posted. */
  predicate IsPending(s: CommentStatus)
  {
    s == PendingReview || s == Approved || s == ReadyToPost
  }

  /** The user owns a campaign with the post's campaign id. */
  predicate OwnsPost(campaigns: seq<Campaign>, userId: Id, p: DiscoveredPost)
  {
    exists c :: c in campaigns && c.userId == userId && c.id == p.campaignId
  }

  /** The counters for the signed-in user `session`; without a session
      (`requireSession` throws) every counter is 0. */
  function DashboardStats(t: Tables, session: Option<Id>): (r: Stats)
    ensures r.campaigns <= |t.campaigns| && r.discoveredPosts <= |t.posts|
    ensures r.pendingComments <= |t.comments| && r.postedComments <= |t.comments|
    ensures session.None? ==> r == Stats(0, 0, 0, 0)
    ensures session.Some? && |CampaignIdsOf(t.campaigns, session.value)| == 0 ==> r.discoveredPosts == 0
  {
    if session.None? then Stats(0, 0, 0, 0)
    else
      var userId := session.value;
      var ids := CampaignIdsOf(t.campaigns, userId);
      Stats(
        |Filter(t.campaigns, (c: Campaign) => c.userId == userId && c.status == Active)|,
        if |ids| > 0 then |Filter(t.posts, (p: DiscoveredPost) => p.campaignId in ids)| else 0,
        |Filter(t.comments, (m: Comment) => m.userId == userId && IsPending(m.status))|,
        |Filter(t.comments, (m: Comment) => m.userId == userId && m.status == Posted)|)
  }

  /** Without a session every counter is 0, as for any other thrown error. */
  lemma NoSessionCountsNothing(t: Tables)
    ensures DashboardStats(t, None) == Stats(0, 0, 0, 0)
  {
  }

  /** `discoveredPosts` counts every post of every campaign the user owns, in
      any status; the `length > 0` guard only spares an empty `IN ()`. */
  lemma PostCountIsOwnedPosts(t: Tables, userId: Id)
    ensures DashboardStats(t, Some(userId)).discoveredPosts
         == |Filter(t.posts, (p: DiscoveredPost) => OwnsPost(t.campaigns, userId, p))|
  {
    var ids := CampaignIdsOf(t.campaigns, userId);
    var owns := (p: DiscoveredPost) => OwnsPost(t.campaigns, userId, p);
    if |ids| > 0 {
      FilterExt(t.posts, (p: DiscoveredPost) => p.campaignId in ids, owns);
    } else {
      FilterNone(t.posts, owns);
    }
  }

  /** The pending and posted status sets are disjoint, so together they
      never exceed the user's comments. */
  lemma PendingPlusPostedBounded(t: Tables, userId: Id)
    ensures var s := DashboardStats(t, Some(userId));
      s.pendingComments + s.postedComments <= |Filter(t.comments, (m: Comment) => m.userId == userId)|
  {
    DisjointFiltersBounded(t.comments,
      (m: Comment) => m.userId == userId && IsPending(m.status),
      (m: Comment) => m.userId == userId && m.status == Posted,
      (m: Comment) => m.userId == userId);
  }

  /** A new comment moves the counters of its owner only: `pendingComments`
      when its status is pending_review, approved or ready_to_post, and
      `postedComments` when it is posted; posting, failed and rejected
      count nowhere. */
  lemma NewCommentCounts(t: Tables, userId: Id, m: Comment)
    ensures var before := DashboardStats(t, Some(userId));
      var after := DashboardStats(t.(comments := t.comments + [m]), Some(userId));
      && after.campaigns == before.campaigns && after.discoveredPosts == before.discoveredPosts
      && after.pendingComments == before.pendingComments + (if m.userId == userId && IsPending(m.status) then 1 else 0)
      && after.postedComments == before.postedComments + (if m.userId == userId && m.status == Posted then 1 else 0)
  {
    FilterSnoc(t.comments, m, (x: Comment) => x.userId == userId && IsPending(x.status));
    FilterSnoc(t.comments, m, (x: Comment) => x.userId == userId && x.status == Posted);
  }

  /** A new campaign counts only for its owner, and only while active. */
  lemma NewCampaignCounts(t: Tables, userId: Id, c: Campaign)
    ensures var before := DashboardStats(t, Some(userId));
      var after := DashboardStats(t.(campaigns := t.campaigns + [c]), Some(userId));
      && after.campaigns == before.campaigns + (if c.userId == userId && c.status == Active then 1 else 0)
      && after.pendingComments == before.pendingComments && after.postedComments == before.postedComments
  {
    FilterSnoc(t.campaigns, c, (x: Campaign) => x.userId == userId && x.status == Active);
  }
}
