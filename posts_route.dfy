/** `GET /api/posts`: the signed-in user's discovered posts, best first,
    each with its campaign's brand name. */
module PostsRoute {
  import opened Wrappers
  import opened Seqs
  import opened Schema

  /** A post row plus `campaign: { brandName }`. */
  datatype PostItem = PostItem(post: DiscoveredPost, brandName: string)

  datatype Response = Unauthorized | Posts(items: seq<PostItem>)

  const PostsLimit: nat := 100

  /** `orderBy(desc(relevanceScore), desc(createdAt))`. */
  predicate BetterFirst(a: DiscoveredPost, b: DiscoveredPost)
  {
    a.relevanceScore > b.relevanceScore || (a.relevanceScore == b.relevanceScore && a.createdAt >= b.createdAt)
  }

  lemma BetterFirstIsTotal()
    ensures TotalPreorder(BetterFirst)
  {
  }

  predicate OwnsPost(campaigns: seq<Campaign>, userId: Id, p: DiscoveredPost)
  {
    exists c :: c in campaigns && c.userId == userId && c.id == p.campaignId
  }

  /** `userCampaigns`: the user's campaigns. */
  function UsersCampaigns(campaigns: seq<Campaign>, userId: Id): (r: seq<Campaign>)
    ensures forall c :: c in r <==> c in campaigns && c.userId == userId
  {
    Filter(campaigns, (c: Campaign) => c.userId == userId)
  }

  /** The user's posts as the query returns them, before the join: rows of
      the user's campaigns, best first, at most 100; none for a user
      without campaigns. */
  function Ranked(t: Tables, userId: Id): (r: seq<DiscoveredPost>)
    ensures |r| <= PostsLimit
    ensures forall p :: p in r ==> p in t.posts && OwnsPost(t.campaigns, userId, p)
    ensures Sorted(r, BetterFirst)
    ensures (forall c :: c in t.campaigns ==> c.userId != userId) ==> r == []
  {
    var ids := CampaignIdsOf(t.campaigns, userId);
    var inIds := (p: DiscoveredPost) => p.campaignId in ids;
    var owned := Filter(t.posts, inIds);
    assert |ids| == 0 ==> owned == [] by {
      if |ids| == 0 {
        FilterNone(t.posts, inIds);
      }
    }
    BetterFirstIsTotal();
    Top(owned, BetterFirst, PostsLimit)
  }

  /** The limit is the only loss: `min(owned, 100)` rows, and an owned row
      left out ranks after every row kept. */
  lemma RankedComplete(t: Tables, userId: Id)
    ensures var r := Ranked(t, userId);
      var owned := Filter(t.posts, (p: DiscoveredPost) => OwnsPost(t.campaigns, userId, p));
      && |r| == (if |owned| <= PostsLimit then |owned| else PostsLimit)
      && forall p, q :: p in owned && p !in r && q in r ==> BetterFirst(q, p)
  {
    var ids := CampaignIdsOf(t.campaigns, userId);
    var inIds := (p: DiscoveredPost) => p.campaignId in ids;
    BetterFirstIsTotal();
    TopKeepsFirst(Filter(t.posts, inIds), BetterFirst, PostsLimit);
    FilterExt(t.posts, inIds, (p: DiscoveredPost) => OwnsPost(t.campaigns, userId, p));
  }

  /** The ranked rows, each with the brand name of its campaign among the
      user's campaigns `mine` (`campaignMap[p.campaignId]?.brandName ?? ""`). */
  function WithBrands(mine: seq<Campaign>, ranked: seq<DiscoveredPost>): (items: seq<PostItem>)
    ensures |items| == |ranked|
    ensures forall i :: 0 <= i < |ranked| ==> items[i].post == ranked[i]
  {
    seq(|ranked|, i requires 0 <= i < |ranked| => PostItem(ranked[i], CampaignBrand(mine, ranked[i].campaignId)))
  }

  /** The reply to the signed-in user `session`; no session is a 401. */
  function UserPosts(t: Tables, session: Option<Id>): (r: Response)
    ensures r.Unauthorized? <==> session.None?
    ensures r.Posts? ==> |r.items| <= PostsLimit
  {
    if session.None? then Unauthorized
    else
      var userId := session.value;
      var mine := UsersCampaigns(t.campaigns, userId);
      if |mine| == 0 then Posts([])
      else Posts(WithBrands(mine, Ranked(t, userId)))
  }

  /** Without a session the reply is a 401 and lists nothing. */
  lemma NoSessionUnauthorized(t: Tables)
    ensures UserPosts(t, None) == Unauthorized
  {
  }

  function PostsOf(items: seq<PostItem>): seq<DiscoveredPost>
  {
    seq(|items|, i requires 0 <= i < |items| => items[i].post)
  }

  /** The reply lists exactly the ranked rows, in order; a user without
      campaigns gets `[]`, which is what ranking would give anyway. */
  lemma UserPostsAreRanked(t: Tables, userId: Id)
    ensures UserPosts(t, Some(userId)).Posts?
    ensures PostsOf(UserPosts(t, Some(userId)).items) == Ranked(t, userId)
  {
    var mine := UsersCampaigns(t.campaigns, userId);
    if |mine| == 0 {
      assert forall c :: c in t.campaigns ==> c.userId != userId;
    }
  }

  /** The item carries the brand name of a campaign of the user that the
      post belongs to. */
  predicate OwnBrand(campaigns: seq<Campaign>, userId: Id, item: PostItem)
  {
    exists c :: c in campaigns && c.userId == userId && c.id == item.post.campaignId && item.brandName == c.brandName
  }

  /** Joining rows of the user's campaigns with those campaigns gives each
      row the brand name of its own campaign. */
  lemma WithBrandsOwn(campaigns: seq<Campaign>, userId: Id, ranked: seq<DiscoveredPost>)
    requires forall p :: p in ranked ==> OwnsPost(campaigns, userId, p)
    ensures var items := WithBrands(UsersCampaigns(campaigns, userId), ranked);
      forall i :: 0 <= i < |items| ==> OwnBrand(campaigns, userId, items[i])
  {
    var mine := UsersCampaigns(campaigns, userId);
    var items := WithBrands(mine, ranked);
    forall i | 0 <= i < |items| ensures OwnBrand(campaigns, userId, items[i]) {
      assert ranked[i] in ranked;
      var c :| c in campaigns && c.userId == userId && c.id == ranked[i].campaignId;
      assert c in mine;
      var c' :| c' in mine && c'.id == ranked[i].campaignId && items[i].brandName == c'.brandName;
      assert c' in campaigns && c'.userId == userId;
    }
  }

  /** Every item carries the brand name of its own campaign, which the user
      owns: the `?? ""` fallback never applies. */
  lemma UserPostsBrands(t: Tables, userId: Id)
    ensures UserPosts(t, Some(userId)).Posts?
    ensures var items := UserPosts(t, Some(userId)).items;
      forall i :: 0 <= i < |items| ==> OwnBrand(t.campaigns, userId, items[i])
  {
    WithBrandsOwn(t.campaigns, userId, Ranked(t, userId));
  }

  /** Every item is a row of the table from one of the user's campaigns,
      the list is best first, and there are at most 100. */
  lemma UserPostsOwned(t: Tables, userId: Id)
    ensures UserPosts(t, Some(userId)).Posts?
    ensures var items := UserPosts(t, Some(userId)).items;
      && |items| <= PostsLimit
      && (forall i :: 0 <= i < |items| ==> items[i].post in t.posts && OwnsPost(t.campaigns, userId, items[i].post))
      && (forall i, j :: 0 <= i < j < |items| ==> BetterFirst(items[i].post, items[j].post))
  {
    UserPostsAreRanked(t, userId);
    var items := UserPosts(t, Some(userId)).items;
    var ranked := Ranked(t, userId);
    assert |items| == |ranked|;
    forall i | 0 <= i < |items| ensures items[i].post == ranked[i] {
      assert PostsOf(items)[i] == items[i].post;
    }
    forall i | 0 <= i < |items| ensures items[i].post in t.posts && OwnsPost(t.campaigns, userId, items[i].post) {
      assert ranked[i] in ranked;
    }
  }
}
