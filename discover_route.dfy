/** The discovery cron route: for every active campaign, every subreddit and
    every keyword, search Reddit, keep the hits scoring at least 0.1, and
    insert each one as a `new` post or rescore the row already present. */
module DiscoverRoute {
  import opened Wrappers
  import opened Strings
  import opened Seqs
  import opened Schema
  import opened Database
  import opened Discovery
  import opened CronAuth

  /** What `searchSubreddit(subreddit, keyword)` gave: its hits, or a throw
      that the route catches. */
  datatype SearchResult = Hits(posts: seq<RedditPost>) | Threw
  type Search = (string, string) -> SearchResult

  datatype Response = Unauthorized | Discovered(campaignsProcessed: nat, postsDiscovered: nat)

  predicate IsActive(c: Campaign)
  {
    c.status == Active
  }

  /** A hit is kept unless `relevance < 0.1`. */
  predicate Qualifies(h: RedditPost, keywords: seq<string>)
  {
    !(Relevance(h, keywords) < 0.1)
  }

  /** The row inserted for a hit never seen for the campaign. */
  function NewRow(id: Id, c: Campaign, h: RedditPost, now: Time): (p: DiscoveredPost)
    ensures p.platform == "reddit" && p.status == New && p.campaignId == c.id && p.platformPostId == h.id
    ensures p.body == Prefix(h.selftext, 2000) && |p.body| <= 2000
    ensures p.url == "https://www.reddit.com" + h.permalink
  {
    DiscoveredPost(id, c.id, "reddit", h.id, h.title, Prefix(h.selftext, 2000),
                   "https://www.reddit.com" + h.permalink, Some(h.subreddit),
                   Relevance(h, c.keywords), New, now, now)
  }

  // ----------------------------------------------------- what a run may write

  /** `h` is a qualifying hit of a search the run makes for the active campaign `c`. */
  ghost predicate Found(search: Search, campaigns: seq<Campaign>, c: Campaign, h: RedditPost)
  {
    && c in campaigns && IsActive(c) && Qualifies(h, c.keywords)
    && exists s, k :: s in c.subreddits && k in c.keywords && search(s, k).Hits? && h in search(s, k).posts
  }

  /** The row's score is the relevance of a found hit with the row's key. */
  ghost predicate ScoredBy(p: DiscoveredPost, search: Search, campaigns: seq<Campaign>)
  {
    exists c, h :: Found(search, campaigns, c, h) && c.id == p.campaignId && h.id == p.platformPostId
      && p.relevanceScore == Relevance(h, c.keywords)
  }

  /** An existing row is kept, or only its score and `updatedAt` change. */
  ghost predicate Rescored(p0: DiscoveredPost, p1: DiscoveredPost, now: Time, search: Search, campaigns: seq<Campaign>)
  {
    p1 == p0 || (p1 == p0.(relevanceScore := p1.relevanceScore, updatedAt := now) && ScoredBy(p1, search, campaigns))
  }

  /** A new row is the insert of a found hit, possibly rescored since. */
  ghost predicate Inserted(p: DiscoveredPost, now: Time, search: Search, campaigns: seq<Campaign>)
  {
    && ScoredBy(p, search, campaigns)
    && exists c, h :: Found(search, campaigns, c, h) && p == NewRow(p.id, c, h, now).(relevanceScore := p.relevanceScore)
  }

  /** The tables after part of a run: only posts change; old rows are kept or
      rescored and new rows are appended. */
  ghost predicate Evolved(t0: Tables, t1: Tables, now: Time, search: Search)
  {
    && t1.users == t0.users && t1.campaigns == t0.campaigns && t1.comments == t0.comments
    && |t0.posts| <= |t1.posts|
    && (forall i :: 0 <= i < |t0.posts| ==> Rescored(t0.posts[i], t1.posts[i], now, search, t0.campaigns))
    && (forall i :: |t0.posts| <= i < |t1.posts| ==> Inserted(t1.posts[i], now, search, t0.campaigns))
  }

  lemma EvolvedTrans(t0: Tables, t1: Tables, t2: Tables, now: Time, search: Search)
    requires Evolved(t0, t1, now, search) && Evolved(t1, t2, now, search)
    ensures Evolved(t0, t2, now, search)
  {
    forall i | 0 <= i < |t0.posts| ensures Rescored(t0.posts[i], t2.posts[i], now, search, t0.campaigns) {
      assert Rescored(t1.posts[i], t2.posts[i], now, search, t1.campaigns);
    }
    forall i | |t0.posts| <= i < |t2.posts| ensures Inserted(t2.posts[i], now, search, t0.campaigns) {
      if i < |t1.posts| {
        var p1, p2 := t1.posts[i], t2.posts[i];
        assert Inserted(p1, now, search, t0.campaigns);
        assert Rescored(p1, p2, now, search, t0.campaigns);
        if p2 != p1 {
          var c, h :| Found(search, t0.campaigns, c, h) && p1 == NewRow(p1.id, c, h, now).(relevanceScore := p1.relevanceScore);
          assert p2 == NewRow(p2.id, c, h, now).(relevanceScore := p2.relevanceScore);
        }
      }
    }
  }

  /** What a run leaves, stated plainly: every new row is a `new` Reddit post of
      an active campaign with at least one subreddit and one keyword, scoring
      at least 0.1; an old row either is untouched or keeps everything but its
      score (now at least 0.1) and `updatedAt`. */
  lemma EvolvedEffects(t0: Tables, t1: Tables, now: Time, search: Search)
    requires Evolved(t0, t1, now, search)
    ensures forall i :: |t0.posts| <= i < |t1.posts| ==>
      && t1.posts[i].status == New && t1.posts[i].platform == "reddit" && t1.posts[i].relevanceScore >= 0.1
      && exists c :: c in t0.campaigns && c.id == t1.posts[i].campaignId && IsActive(c)
           && |c.subreddits| > 0 && |c.keywords| > 0
    ensures forall i :: 0 <= i < |t0.posts| ==>
      || t1.posts[i] == t0.posts[i]
      || (&& t1.posts[i] == t0.posts[i].(relevanceScore := t1.posts[i].relevanceScore, updatedAt := now)
          && t1.posts[i].relevanceScore >= 0.1)
  {
    forall i | |t0.posts| <= i < |t1.posts|
      ensures t1.posts[i].status == New && t1.posts[i].platform == "reddit" && t1.posts[i].relevanceScore >= 0.1
      ensures exists c :: (c in t0.campaigns && c.id == t1.posts[i].campaignId && IsActive(c)
                           && |c.subreddits| > 0 && |c.keywords| > 0)
    {
      var p := t1.posts[i];
      assert Inserted(p, now, search, t0.campaigns);
      var c, h :| Found(search, t0.campaigns, c, h) && c.id == p.campaignId && h.id == p.platformPostId
        && p.relevanceScore == Relevance(h, c.keywords);
      BelowThresholdIff(h, c.keywords);
      RelevanceInUnitInterval(h, c.keywords);
      var c', h' :| Found(search, t0.campaigns, c', h') && p == NewRow(p.id, c', h', now).(relevanceScore := p.relevanceScore);
      var s, k :| s in c.subreddits && k in c.keywords && search(s, k).Hits? && h in search(s, k).posts;
    }
    forall i | 0 <= i < |t0.posts| && t1.posts[i] != t0.posts[i]
      ensures t1.posts[i].relevanceScore >= 0.1
    {
      var p := t1.posts[i];
      assert Rescored(t0.posts[i], p, now, search, t0.campaigns);
      var c, h :| Found(search, t0.campaigns, c, h) && c.id == p.campaignId && h.id == p.platformPostId
        && p.relevanceScore == Relevance(h, c.keywords);
    }
  }

  // ------------------------------------------------------------- the counter

  /** The hits that pass the threshold. */
  function Qualifying(hits: seq<RedditPost>, keywords: seq<string>): (n: nat)
    ensures n <= |hits|
  {
    if hits == [] then 0
    else Qualifying(hits[..|hits| - 1], keywords) + (if Qualifies(hits[|hits| - 1], keywords) then 1 else 0)
  }

  lemma QualifyingSnoc(hits: seq<RedditPost>, h: RedditPost, keywords: seq<string>)
    ensures Qualifying(hits + [h], keywords) == Qualifying(hits, keywords) + (if Qualifies(h, keywords) then 1 else 0)
  {
    assert (hits + [h])[..|hits|] == hits;
  }

  /** Hits counted for one (subreddit, keyword) search; a throw counts none. */
  function PairCount(search: Search, c: Campaign, s: string, k: string): nat
  {
    match search(s, k)
    case Threw => 0
    case Hits(hits) => Qualifying(hits, c.keywords)
  }

  function KeywordsCount(search: Search, c: Campaign, s: string, ks: seq<string>): nat
  {
    if ks == [] then 0 else KeywordsCount(search, c, s, ks[..|ks| - 1]) + PairCount(search, c, s, ks[|ks| - 1])
  }

  function SubredditsCount(search: Search, c: Campaign, ss: seq<string>): nat
  {
    if ss == [] then 0 else SubredditsCount(search, c, ss[..|ss| - 1]) + KeywordsCount(search, c, ss[|ss| - 1], c.keywords)
  }

  function CampaignsCount(search: Search, cs: seq<Campaign>): nat
  {
    if cs == [] then 0 else CampaignsCount(search, cs[..|cs| - 1]) + SubredditsCount(search, cs[|cs| - 1], cs[|cs| - 1].subreddits)
  }

  /** A qualifying hit among the hits of a search counts at least once. */
  lemma {:induction false} QualifyingHitCounts(hits: seq<RedditPost>, keywords: seq<string>, h: RedditPost)
    requires h in hits && Qualifies(h, keywords)
    ensures Qualifying(hits, keywords) >= 1
  {
    var init := hits[..|hits| - 1];
    if h != hits[|hits| - 1] {
      assert hits == init + [hits[|hits| - 1]];
      assert h in init;
      QualifyingHitCounts(init, keywords, h);
    }
  }

  /** `postsDiscovered` counts every qualifying hit of every search, so a post
      found under two different keywords is counted once for each. */
  lemma RepeatedHitCountsTwice(search: Search, c: Campaign, s: string, k1: string, k2: string, h: RedditPost)
    requires k1 != k2 && Qualifies(h, c.keywords)
    requires search(s, k1).Hits? && h in search(s, k1).posts
    requires search(s, k2).Hits? && h in search(s, k2).posts
    ensures KeywordsCount(search, c, s, [k1, k2]) == PairCount(search, c, s, k1) + PairCount(search, c, s, k2)
    ensures PairCount(search, c, s, k1) >= 1 && PairCount(search, c, s, k2) >= 1
    ensures KeywordsCount(search, c, s, [k1, k2]) >= 2
  {
    assert [k1, k2][..1] == [k1];
    assert [k1][..0] == [];
    assert KeywordsCount(search, c, s, [k1]) == PairCount(search, c, s, k1);
    QualifyingHitCounts(search(s, k1).posts, c.keywords, h);
    QualifyingHitCounts(search(s, k2).posts, c.keywords, h);
  }

  /** A campaign without subreddits or without keywords counts nothing. */
  lemma {:induction false} NoPairsCountNothing(search: Search, c: Campaign, ss: seq<string>)
    requires ss == [] || c.keywords == []
    ensures SubredditsCount(search, c, ss) == 0
  {
    if ss != [] {
      NoPairsCountNothing(search, c, ss[..|ss| - 1]);
    }
  }

  // ---------------------------------------------------------------- the route

  /** The first row with the campaign's id and the platform post id (`.get()`). */
  function FindPost(posts: seq<DiscoveredPost>, campaignId: Id, platformPostId: string): (r: Option<nat>)
    ensures r.Some? ==>
      r.value < |posts| && posts[r.value].campaignId == campaignId && posts[r.value].platformPostId == platformPostId
    ensures r.None? ==> forall q :: q in posts ==> PostKey(q) != Some((campaignId, platformPostId))
  {
    if posts == [] then None
    else if posts[0].campaignId == campaignId && posts[0].platformPostId == platformPostId then Some(0)
    else
      var r := FindPost(posts[1..], campaignId, platformPostId);
      assert forall q :: q in posts ==> q == posts[0] || q in posts[1..];
      if r.Some? then Some(r.value + 1) else None
  }

  /** A row with the campaign's id and the platform post id is present. */
  predicate Stored(posts: seq<DiscoveredPost>, campaignId: Id, platformPostId: string)
  {
    FindPost(posts, campaignId, platformPostId).Some?
  }

  /** A run never loses a row's key: what was stored stays stored. */
  lemma EvolvedKeepsStored(t0: Tables, t1: Tables, now: Time, search: Search)
    requires Evolved(t0, t1, now, search)
    ensures forall cid, pid :: Stored(t0.posts, cid, pid) ==> Stored(t1.posts, cid, pid)
  {
    forall cid, pid | Stored(t0.posts, cid, pid) ensures Stored(t1.posts, cid, pid) {
      var k := FindPost(t0.posts, cid, pid).value;
      assert Rescored(t0.posts[k], t1.posts[k], now, search, t0.campaigns);
      assert t1.posts[k] in t1.posts && PostKey(t1.posts[k]) == Some((cid, pid));
    }
  }

  /** Every qualifying hit among `hits` has a row for the campaign. */
  ghost predicate HitsStored(posts: seq<DiscoveredPost>, c: Campaign, hits: seq<RedditPost>)
  {
    forall h :: h in hits && Qualifies(h, c.keywords) ==> Stored(posts, c.id, h.id)
  }

  /** Every qualifying hit of the search for `(s, k)` has a row; a throw asks nothing. */
  ghost predicate PairStored(posts: seq<DiscoveredPost>, search: Search, c: Campaign, s: string, k: string)
  {
    search(s, k).Hits? ==> HitsStored(posts, c, search(s, k).posts)
  }

  ghost predicate KeywordsStored(posts: seq<DiscoveredPost>, search: Search, c: Campaign, s: string, ks: seq<string>)
  {
    forall k :: k in ks ==> PairStored(posts, search, c, s, k)
  }

  ghost predicate SubredditsStored(posts: seq<DiscoveredPost>, search: Search, c: Campaign, ss: seq<string>)
  {
    forall s :: s in ss ==> KeywordsStored(posts, search, c, s, c.keywords)
  }

  ghost predicate CampaignsStored(posts: seq<DiscoveredPost>, search: Search, cs: seq<Campaign>)
  {
    forall c :: c in cs ==> SubredditsStored(posts, search, c, c.subreddits)
  }

  /** What was stored stays stored, level by level of the loops. */
  lemma HitsStoredKept(t0: Tables, t1: Tables, now: Time, search: Search, c: Campaign, hits: seq<RedditPost>)
    requires Evolved(t0, t1, now, search) && HitsStored(t0.posts, c, hits)
    ensures HitsStored(t1.posts, c, hits)
  {
    EvolvedKeepsStored(t0, t1, now, search);
  }

  lemma KeywordsStoredKept(t0: Tables, t1: Tables, now: Time, search: Search, c: Campaign, s: string, ks: seq<string>)
    requires Evolved(t0, t1, now, search) && KeywordsStored(t0.posts, search, c, s, ks)
    ensures KeywordsStored(t1.posts, search, c, s, ks)
  {
    EvolvedKeepsStored(t0, t1, now, search);
  }

  lemma SubredditsStoredKept(t0: Tables, t1: Tables, now: Time, search: Search, c: Campaign, ss: seq<string>)
    requires Evolved(t0, t1, now, search) && SubredditsStored(t0.posts, search, c, ss)
    ensures SubredditsStored(t1.posts, search, c, ss)
  {
    EvolvedKeepsStored(t0, t1, now, search);
  }

  lemma CampaignsStoredKept(t0: Tables, t1: Tables, now: Time, search: Search, cs: seq<Campaign>)
    requires Evolved(t0, t1, now, search) && CampaignsStored(t0.posts, search, cs)
    ensures CampaignsStored(t1.posts, search, cs)
  {
    EvolvedKeepsStored(t0, t1, now, search);
  }

  /** One more element handled is one more element stored, level by level. */
  lemma HitsStoredSnoc(posts: seq<DiscoveredPost>, c: Campaign, hits: seq<RedditPost>, h: RedditPost)
    requires HitsStored(posts, c, hits) && (Qualifies(h, c.keywords) ==> Stored(posts, c.id, h.id))
    ensures HitsStored(posts, c, hits + [h])
  {
  }

  lemma KeywordsStoredSnoc(posts: seq<DiscoveredPost>, search: Search, c: Campaign, s: string, ks: seq<string>, k: string)
    requires KeywordsStored(posts, search, c, s, ks) && PairStored(posts, search, c, s, k)
    ensures KeywordsStored(posts, search, c, s, ks + [k])
  {
  }

  lemma SubredditsStoredSnoc(posts: seq<DiscoveredPost>, search: Search, c: Campaign, ss: seq<string>, s: string)
    requires SubredditsStored(posts, search, c, ss) && KeywordsStored(posts, search, c, s, c.keywords)
    ensures SubredditsStored(posts, search, c, ss + [s])
  {
  }

  lemma CampaignsStoredSnoc(posts: seq<DiscoveredPost>, search: Search, cs: seq<Campaign>, c: Campaign)
    requires CampaignsStored(posts, search, cs) && SubredditsStored(posts, search, c, c.subreddits)
    ensures CampaignsStored(posts, search, cs + [c])
  {
  }

  /** Once every search of the active campaigns has been run, every found hit has a row. */
  lemma {:induction false} FoundIsStored(posts: seq<DiscoveredPost>, search: Search, campaigns: seq<Campaign>)
    requires CampaignsStored(posts, search, Filter(campaigns, IsActive))
    ensures forall c, h :: Found(search, campaigns, c, h) ==> Stored(posts, c.id, h.id)
  {
    forall c, h | Found(search, campaigns, c, h) ensures Stored(posts, c.id, h.id) {
      var s, k :| s in c.subreddits && k in c.keywords && search(s, k).Hits? && h in search(s, k).posts;
      assert c in Filter(campaigns, IsActive);
      assert KeywordsStored(posts, search, c, s, c.keywords);
      assert PairStored(posts, search, c, s, k);
    }
  }

  /** The posts table after the update-or-insert of one qualifying hit: the
      row with the hit's key gets the new score and `updatedAt`, or a new row
      with id `nextId` is appended. */
  function Upserted(posts: seq<DiscoveredPost>, nextId: Id, c: Campaign, h: RedditPost, now: Time): (r: seq<DiscoveredPost>)
    ensures |r| == |posts| + (if FindPost(posts, c.id, h.id).None? then 1 else 0)
    ensures Stored(r, c.id, h.id)
  {
    match FindPost(posts, c.id, h.id)
    case Some(k) =>
      var r := posts[k := posts[k].(relevanceScore := Relevance(h, c.keywords), updatedAt := now)];
      assert r[k] in r && PostKey(r[k]) == Some((c.id, h.id));
      r
    case None =>
      var r := posts + [NewRow(nextId, c, h, now)];
      assert r[|posts|] in r && PostKey(r[|posts|]) == Some((c.id, h.id));
      r
  }

  /** An upsert of a found hit is a legal step of a run. */
  lemma UpsertedEvolves(t: Tables, nextId: Id, search: Search, c: Campaign, h: RedditPost, now: Time)
    requires Found(search, t.campaigns, c, h)
    ensures Evolved(t, t.(posts := Upserted(t.posts, nextId, c, h, now)), now, search)
  {
    var p := Upserted(t.posts, nextId, c, h, now);
    match FindPost(t.posts, c.id, h.id)
    case Some(k) =>
      assert ScoredBy(p[k], search, t.campaigns);
      forall i | 0 <= i < |t.posts| ensures Rescored(t.posts[i], p[i], now, search, t.campaigns) {
        if i != k { assert p[i] == t.posts[i]; }
      }
    case None =>
      var q := NewRow(nextId, c, h, now);
      assert p[|t.posts|] == q;
      assert ScoredBy(q, search, t.campaigns);
      assert q == NewRow(q.id, c, h, now).(relevanceScore := q.relevanceScore);
      forall i | 0 <= i < |t.posts| ensures Rescored(t.posts[i], p[i], now, search, t.campaigns) {
        assert p[i] == t.posts[i];
      }
  }

  /** The update-or-insert of one qualifying hit (`relevance` is its score). */
  method Upsert(store: Store, search: Search, c: Campaign, h: RedditPost, relevance: real, now: Time)
    requires store.Valid() && Found(search, store.tables.campaigns, c, h)
    requires relevance == Relevance(h, c.keywords)
    modifies store
    ensures store.Valid()
    ensures store.tables == old(store.tables).(posts := Upserted(old(store.tables).posts, old(store.nextId), c, h, now))
    ensures store.nextId == old(store.nextId) + (if FindPost(old(store.tables).posts, c.id, h.id).None? then 1 else 0)
  {
    var existing := FindPost(store.tables.posts, c.id, h.id);
    if existing.Some? {
      var k := existing.value;
      var p := store.tables.posts[k].(relevanceScore := relevance, updatedAt := now);
      store.UpdatePost(k, p);
    } else {
      var id := store.NewId();
      var p := NewRow(id, c, h, now);
      assert c.id in CampaignIds(store.tables.campaigns);
      store.InsertPost(p);
    }
  }

  /** One hit: skipped below the threshold, otherwise upserted and counted. */
  method DiscoverHit(store: Store, search: Search, c: Campaign, s: string, k: string, h: RedditPost, now: Time)
    returns (counted: bool)
    requires store.Valid() && c in store.tables.campaigns && IsActive(c)
    requires s in c.subreddits && k in c.keywords && search(s, k).Hits? && h in search(s, k).posts
    modifies store
    ensures store.Valid() && Evolved(old(store.tables), store.tables, now, search)
    ensures counted == Qualifies(h, c.keywords)
    ensures counted ==> Stored(store.tables.posts, c.id, h.id)
    ensures !counted ==> store.tables == old(store.tables)
  {
    var relevance := CalculateRelevance(h, c.keywords);
    counted := !(relevance < 0.1);
    if counted {
      ghost var id0 := store.nextId;
      Upsert(store, search, c, h, relevance, now);
      UpsertedEvolves(old(store.tables), id0, search, c, h, now);
    }
  }

  /** One search's hits, in order. */
  method DiscoverHits(store: Store, search: Search, c: Campaign, s: string, k: string, hits: seq<RedditPost>, now: Time)
    returns (n: nat)
    requires store.Valid() && c in store.tables.campaigns && IsActive(c)
    requires s in c.subreddits && k in c.keywords && search(s, k) == Hits(hits)
    modifies store
    ensures store.Valid() && Evolved(old(store.tables), store.tables, now, search)
    ensures n == Qualifying(hits, c.keywords)
    ensures HitsStored(store.tables.posts, c, hits)
  {
    n := 0;
    var j := 0;
    while j < |hits|
      invariant 0 <= j <= |hits|
      invariant store.Valid() && Evolved(old(store.tables), store.tables, now, search)
      invariant n == Qualifying(hits[..j], c.keywords)
      invariant HitsStored(store.tables.posts, c, hits[..j])
    {
      n := DiscoverNextHit(store, search, c, s, k, hits, j, n, now, old(store.tables));
      j := j + 1;
    }
    assert hits[..j] == hits;
  }

  /** One pass of the loop over the hits: the hits before `j` stay handled and
      the `j`-th is handled too. */
  method DiscoverNextHit(store: Store, search: Search, c: Campaign, s: string, k: string, hits: seq<RedditPost>,
                         j: nat, n: nat, now: Time, ghost t0: Tables) returns (n': nat)
    requires store.Valid() && c in store.tables.campaigns && IsActive(c)
    requires s in c.subreddits && k in c.keywords && search(s, k) == Hits(hits) && j < |hits|
    requires Evolved(t0, store.tables, now, search)
    requires n == Qualifying(hits[..j], c.keywords) && HitsStored(store.tables.posts, c, hits[..j])
    modifies store
    ensures store.Valid() && Evolved(t0, store.tables, now, search)
    ensures n' == Qualifying(hits[..j + 1], c.keywords) && HitsStored(store.tables.posts, c, hits[..j + 1])
  {
    var h := hits[j];
    ghost var t1 := store.tables;
    var counted := DiscoverHit(store, search, c, s, k, h, now);
    assert hits[..j + 1] == hits[..j] + [h];
    QualifyingSnoc(hits[..j], h, c.keywords);
    EvolvedTrans(t0, t1, store.tables, now, search);
    HitsStoredKept(t1, store.tables, now, search, c, hits[..j]);
    HitsStoredSnoc(store.tables.posts, c, hits[..j], h);
    n' := if counted then n + 1 else n;
  }

  /** One (subreddit, keyword) pair: a throw is caught and skips the pair. */
  method DiscoverPair(store: Store, search: Search, c: Campaign, s: string, k: string, now: Time) returns (n: nat)
    requires store.Valid() && c in store.tables.campaigns && IsActive(c)
    requires s in c.subreddits && k in c.keywords
    modifies store
    ensures store.Valid() && Evolved(old(store.tables), store.tables, now, search)
    ensures n == PairCount(search, c, s, k)
    ensures search(s, k).Threw? ==> store.tables == old(store.tables)
    ensures PairStored(store.tables.posts, search, c, s, k)
  {
    match search(s, k)
    case Threw =>
      n := 0;
    case Hits(hits) =>
      n := DiscoverHits(store, search, c, s, k, hits, now);
  }

  /** The inner loop over the campaign's keywords. */
  method DiscoverSubreddit(store: Store, search: Search, c: Campaign, s: string, now: Time) returns (n: nat)
    requires store.Valid() && c in store.tables.campaigns && IsActive(c) && s in c.subreddits
    modifies store
    ensures store.Valid() && Evolved(old(store.tables), store.tables, now, search)
    ensures n == KeywordsCount(search, c, s, c.keywords)
    ensures KeywordsStored(store.tables.posts, search, c, s, c.keywords)
  {
    n := 0;
    var i := 0;
    while i < |c.keywords|
      invariant 0 <= i <= |c.keywords|
      invariant store.Valid() && Evolved(old(store.tables), store.tables, now, search)
      invariant n == KeywordsCount(search, c, s, c.keywords[..i])
      invariant KeywordsStored(store.tables.posts, search, c, s, c.keywords[..i])
    {
      assert c.keywords[..i + 1][..i] == c.keywords[..i] && c.keywords[..i + 1] == c.keywords[..i] + [c.keywords[i]];
      ghost var t1 := store.tables;
      var m := DiscoverPair(store, search, c, s, c.keywords[i], now);
      EvolvedTrans(old(store.tables), t1, store.tables, now, search);
      KeywordsStoredKept(t1, store.tables, now, search, c, s, c.keywords[..i]);
      KeywordsStoredSnoc(store.tables.posts, search, c, s, c.keywords[..i], c.keywords[i]);
      n := n + m;
      i := i + 1;
    }
    assert c.keywords[..i] == c.keywords;
  }

  /** The middle loop over the campaign's subreddits. */
  method DiscoverCampaign(store: Store, search: Search, c: Campaign, now: Time) returns (n: nat)
    requires store.Valid() && c in store.tables.campaigns && IsActive(c)
    modifies store
    ensures store.Valid() && Evolved(old(store.tables), store.tables, now, search)
    ensures n == SubredditsCount(search, c, c.subreddits)
    ensures SubredditsStored(store.tables.posts, search, c, c.subreddits)
  {
    n := 0;
    var i := 0;
    while i < |c.subreddits|
      invariant 0 <= i <= |c.subreddits|
      invariant store.Valid() && Evolved(old(store.tables), store.tables, now, search)
      invariant n == SubredditsCount(search, c, c.subreddits[..i])
      invariant SubredditsStored(store.tables.posts, search, c, c.subreddits[..i])
    {
      assert c.subreddits[..i + 1][..i] == c.subreddits[..i] && c.subreddits[..i + 1] == c.subreddits[..i] + [c.subreddits[i]];
      ghost var t1 := store.tables;
      var m := DiscoverSubreddit(store, search, c, c.subreddits[i], now);
      EvolvedTrans(old(store.tables), t1, store.tables, now, search);
      SubredditsStoredKept(t1, store.tables, now, search, c, c.subreddits[..i]);
      SubredditsStoredSnoc(store.tables.posts, search, c, c.subreddits[..i], c.subreddits[i]);
      n := n + m;
      i := i + 1;
    }
    assert c.subreddits[..i] == c.subreddits;
  }

  /** The outer loop over the active campaigns. */
  method DiscoverCampaigns(store: Store, search: Search, active: seq<Campaign>, now: Time) returns (total: nat)
    requires store.Valid() && forall c :: c in active ==> c in store.tables.campaigns && IsActive(c)
    modifies store
    ensures store.Valid() && Evolved(old(store.tables), store.tables, now, search)
    ensures total == CampaignsCount(search, active)
    ensures CampaignsStored(store.tables.posts, search, active)
  {
    total := 0;
    var i := 0;
    while i < |active|
      invariant 0 <= i <= |active|
      invariant store.Valid() && Evolved(old(store.tables), store.tables, now, search)
      invariant total == CampaignsCount(search, active[..i])
      invariant CampaignsStored(store.tables.posts, search, active[..i])
    {
      assert active[..i + 1][..i] == active[..i] && active[..i + 1] == active[..i] + [active[i]];
      assert active[i] in active;
      ghost var t1 := store.tables;
      var m := DiscoverCampaign(store, search, active[i], now);
      EvolvedTrans(old(store.tables), t1, store.tables, now, search);
      CampaignsStoredKept(t1, store.tables, now, search, active[..i]);
      CampaignsStoredSnoc(store.tables.posts, search, active[..i], active[i]);
      total := total + m;
      i := i + 1;
    }
    assert active[..i] == active;
  }

  /** `POST /api/cron/discover`. */
  method Discover(store: Store, production: bool, authorization: Option<string>, cronSecret: Option<string>,
                  search: Search, now: Time) returns (r: Response)
    requires store.Valid()
    modifies store
    ensures store.Valid()
    ensures !CronAuthorized(production, authorization, cronSecret) ==> r == Unauthorized && store.tables == old(store.tables)
    ensures CronAuthorized(production, authorization, cronSecret) ==>
      var active := Filter(old(store.tables).campaigns, IsActive);
      && r == Discovered(|active|, CampaignsCount(search, active))
      && Evolved(old(store.tables), store.tables, now, search)
      && forall c, h :: Found(search, old(store.tables).campaigns, c, h) ==> Stored(store.tables.posts, c.id, h.id)
  {
    if !CronAuthorized(production, authorization, cronSecret) {
      return Unauthorized;
    }
    var active := Filter(store.tables.campaigns, IsActive);
    var total := DiscoverCampaigns(store, search, active, now);
    FoundIsStored(store.tables.posts, search, old(store.tables).campaigns);
    r := Discovered(|active|, total);
  }
}
