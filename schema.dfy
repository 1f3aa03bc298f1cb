/** The four tables of the database (users, campaigns, discovered posts and
    generated comments), their column defaults, the UNIQUE and foreign-key
    constraints, and ON DELETE CASCADE. */
module Schema {
  import opened Wrappers
  import opened Seqs

  /** Row ids; `crypto.randomUUID()` is modelled by a counter in `Database.Store`. */
  type Id = nat
  /** Milliseconds since the epoch. */
  type Time = int

  datatype CampaignStatus = Active | Paused
  datatype PostStatus = New | Queued | Commented | Skipped
  datatype CommentStatus = PendingReview | Approved | ReadyToPost | Posting | Posted | Failed | Rejected

  datatype User = User(
    id: Id, email: string, password: string, name: Option<string>,
    extensionToken: Option<string>, createdAt: Time, updatedAt: Time)

  /** `keywords` and `subreddits` are JSON arrays in the table; here the parsed lists. */
  datatype Campaign = Campaign(
    id: Id, userId: Id, brandName: string, productDescription: string,
    keywords: seq<string>, subreddits: seq<string>, tone: string,
    maxCommentsPerDay: int, autoApprove: bool, status: CampaignStatus,
    createdAt: Time, updatedAt: Time)

  datatype DiscoveredPost = DiscoveredPost(
    id: Id, campaignId: Id, platform: string, platformPostId: string,
    title: string, body: string, url: string, subreddit: Option<string>,
    relevanceScore: real, status: PostStatus, createdAt: Time, updatedAt: Time)

  datatype Comment = Comment(
    id: Id, userId: Id, campaignId: Id, postId: Id, generatedText: string,
    status: CommentStatus, postedAt: Option<Time>, platformUrl: Option<string>,
    createdAt: Time, updatedAt: Time)

  datatype Tables = Tables(
    users: seq<User>, campaigns: seq<Campaign>, posts: seq<DiscoveredPost>, comments: seq<Comment>)

  // ---------------------------------------------------------------- defaults

  const DefaultTone: string := "helpful"
  const DefaultMaxCommentsPerDay: int := 5
  const DefaultAutoApprove: bool := false

  /** A campaign inserted with only its NOT NULL columns without default. */
  function CampaignWithDefaults(
    id: Id, userId: Id, brandName: string, productDescription: string,
    keywords: seq<string>, subreddits: seq<string>, now: Time): (c: Campaign)
    ensures c.tone == "helpful" && c.maxCommentsPerDay == 5 && !c.autoApprove && c.status == Active
    ensures c.id == id && c.userId == userId && c.keywords == keywords && c.subreddits == subreddits
  {
    Campaign(id, userId, brandName, productDescription, keywords, subreddits,
             DefaultTone, DefaultMaxCommentsPerDay, DefaultAutoApprove, Active, now, now)
  }

  /** A discovered post inserted without body, score or status. */
  function PostWithDefaults(
    id: Id, campaignId: Id, platform: string, platformPostId: string,
    title: string, url: string, subreddit: Option<string>, now: Time): (p: DiscoveredPost)
    ensures p.body == "" && p.relevanceScore == 0.0 && p.status == New
    ensures p.id == id && p.campaignId == campaignId && p.platformPostId == platformPostId
  {
    DiscoveredPost(id, campaignId, platform, platformPostId, title, "", url, subreddit, 0.0, New, now, now)
  }

  /** A comment inserted without status, postedAt or platformUrl. */
  function CommentWithDefaults(
    id: Id, userId: Id, campaignId: Id, postId: Id, text: string, now: Time): (m: Comment)
    ensures m.status == PendingReview && m.postedAt == None && m.platformUrl == None
    ensures m.id == id && m.userId == userId && m.campaignId == campaignId && m.postId == postId
    ensures m.generatedText == text && m.createdAt == now
  {
    Comment(id, userId, campaignId, postId, text, PendingReview, None, None, now, now)
  }

  // ------------------------------------------------------------- constraints

  /** A UNIQUE column: no two rows share a non-NULL key (NULLs never clash). */
  ghost predicate UniqueNonNull<T, K>(s: seq<T>, key: T -> Option<K>)
  {
    forall i, j :: 0 <= i < j < |s| && key(s[i]).Some? ==> key(s[i]) != key(s[j])
  }

  function UserIdKey(u: User): Option<Id> { Some(u.id) }
  function EmailKey(u: User): Option<string> { Some(u.email) }
  function TokenKey(u: User): Option<string> { u.extensionToken }
  function CampaignIdKey(c: Campaign): Option<Id> { Some(c.id) }
  function PostIdKey(p: DiscoveredPost): Option<Id> { Some(p.id) }
  /** The composite index `campaign_post_unique`. */
  function PostKey(p: DiscoveredPost): Option<(Id, string)> { Some((p.campaignId, p.platformPostId)) }
  function CommentIdKey(m: Comment): Option<Id> { Some(m.id) }

  function UserIds(users: seq<User>): set<Id> { set u | u in users :: u.id }
  function CampaignIds(campaigns: seq<Campaign>): set<Id> { set c | c in campaigns :: c.id }
  function PostIds(posts: seq<DiscoveredPost>): set<Id> { set p | p in posts :: p.id }

  /** The campaign with the given id (`where(eq(campaigns.id, id)).get()`). */
  function FindCampaign(campaigns: seq<Campaign>, id: Id): (r: Option<Campaign>)
    ensures r.Some? ==> r.value in campaigns && r.value.id == id
  {
    if campaigns == [] then None
    else if campaigns[0].id == id then Some(campaigns[0])
    else FindCampaign(campaigns[1..], id)
  }

  /** `FindCampaign` misses only when no campaign has the id. */
  lemma {:induction false} FindCampaignMisses(campaigns: seq<Campaign>, id: Id)
    ensures FindCampaign(campaigns, id).None? <==> forall c :: c in campaigns ==> c.id != id
  {
    if campaigns != [] && campaigns[0].id != id {
      FindCampaignMisses(campaigns[1..], id);
      assert forall c :: c in campaigns ==> c == campaigns[0] || c in campaigns[1..];
    }
  }

  /** The brand name of the campaign with the given id, or "" when there is
      none (`campaign?.brandName ?? ""`). */
  function CampaignBrand(campaigns: seq<Campaign>, id: Id): (r: string)
    ensures (forall c :: c in campaigns ==> c.id != id) ==> r == ""
    ensures (exists c :: c in campaigns && c.id == id) ==>
      exists c :: c in campaigns && c.id == id && r == c.brandName
  {
    FindCampaignMisses(campaigns, id);
    match FindCampaign(campaigns, id)
    case None => ""
    case Some(c) => c.brandName
  }

  /** The ids of a user's campaigns. */
  function CampaignIdsOf(campaigns: seq<Campaign>, userId: Id): (r: seq<Id>)
    ensures forall id :: id in r <==> exists c :: c in campaigns && c.userId == userId && c.id == id
    ensures |r| == 0 <==> forall c :: c in campaigns ==> c.userId != userId
  {
    var mine := Filter(campaigns, (c: Campaign) => c.userId == userId);
    var r := Map(mine, (c: Campaign) => c.id);
    assert forall id :: id in r ==> exists c :: c in mine && c.id == id;
    assert forall c :: c in mine ==> c.id in r by {
      forall c | c in mine ensures c.id in r {
        var i :| 0 <= i < |mine| && mine[i] == c;
        assert r[i] == c.id;
      }
    }
    assert |r| == 0 ==> forall c :: c in campaigns ==> c.userId != userId by {
      if exists c :: c in campaigns && c.userId == userId {
        var c :| c in campaigns && c.userId == userId;
        assert c in mine && c.id in r;
      }
    }
    assert |mine| > 0 ==> mine[0] in mine;
    r
  }

  /** The user holding an extension token (`where(eq(users.extensionToken, token))`). */
  function UserByToken(users: seq<User>, token: string): (r: Option<User>)
    ensures r.Some? ==> r.value in users && r.value.extensionToken == Some(token)
    ensures r.None? <==> forall u :: u in users ==> u.extensionToken != Some(token)
  {
    FindFirst(users, (u: User) => u.extensionToken == Some(token))
  }

  /** The user registered under an email address. */
  function UserByEmail(users: seq<User>, email: string): (r: Option<User>)
    ensures r.Some? ==> r.value in users && r.value.email == email
    ensures r.None? <==> forall u :: u in users ==> u.email != email
  {
    FindFirst(users, (u: User) => u.email == email)
  }

  /** The text form of a row id, as a client sends it back (decimal digits). */
  function IdText(id: Id): (s: string)
    ensures 1 <= |s|
    ensures forall i :: 0 <= i < |s| ==> '0' <= s[i] <= '9'
  {
    if id < 10 then [Digit(id)] else IdText(id / 10) + [Digit(id % 10)]
  }

  function Digit(d: nat): (c: char)
    requires d < 10
    ensures '0' <= c <= '9'
  {
    (48 + d) as char
  }

  /** Different ids have different texts, so a text names at most one row. */
  lemma {:induction false} IdTextInjective(a: Id, b: Id)
    requires IdText(a) == IdText(b)
    ensures a == b
    decreases a
  {
    var s := IdText(a);
    if a < 10 && b < 10 {
      assert Digit(a) == s[0] == Digit(b);
    } else if a < 10 || b < 10 {
      assert false;
    } else {
      assert IdText(a / 10) == s[..|s| - 1] == IdText(b / 10);
      assert Digit(a % 10) == s[|s| - 1] == Digit(b % 10);
      IdTextInjective(a / 10, b / 10);
    }
  }

  /** The index of the post with the given id. */
  function PostIndex(posts: seq<DiscoveredPost>, id: Id): (r: Option<nat>)
    ensures r.Some? ==> r.value < |posts| && posts[r.value].id == id
  {
    if posts == [] then None
    else if posts[0].id == id then Some(0)
    else
      var r := PostIndex(posts[1..], id);
      if r.Some? then Some(r.value + 1) else None
  }

  /** `PostIndex` misses only when no post has the id. */
  lemma {:induction false} PostIndexMisses(posts: seq<DiscoveredPost>, id: Id)
    ensures PostIndex(posts, id).None? <==> id !in PostIds(posts)
  {
    if posts != [] && posts[0].id != id {
      PostIndexMisses(posts[1..], id);
      assert PostIds(posts) == {posts[0].id} + PostIds(posts[1..]) by {
        assert forall q :: q in posts <==> q == posts[0] || q in posts[1..];
      }
    }
  }

  /** The index of the user with the given id. */
  function UserIndex(users: seq<User>, id: Id): (r: Option<nat>)
    ensures r.Some? ==> r.value < |users| && users[r.value].id == id
    ensures r.None? <==> id !in UserIds(users)
  {
    if users == [] then None
    else if users[0].id == id then Some(0)
    else
      var r := UserIndex(users[1..], id);
      assert UserIds(users) == {users[0].id} + UserIds(users[1..]) by {
        assert forall u :: u in users <==> u == users[0] || u in users[1..];
      }
      if r.Some? then Some(r.value + 1) else None
  }

  /** Every foreign key names an existing row. */
  ghost predicate Referenced(t: Tables)
  {
    && (forall c :: c in t.campaigns ==> c.userId in UserIds(t.users))
    && (forall p :: p in t.posts ==> p.campaignId in CampaignIds(t.campaigns))
    && (forall m :: m in t.comments ==>
          m.userId in UserIds(t.users) && m.campaignId in CampaignIds(t.campaigns) && m.postId in PostIds(t.posts))
  }

  /** The schema's constraints: the primary keys and UNIQUE columns are
      unique, and every foreign key names an existing row. */
  ghost predicate WellFormed(t: Tables)
  {
    && UniqueNonNull(t.users, UserIdKey)
    && UniqueNonNull(t.users, EmailKey)
    && UniqueNonNull(t.users, TokenKey)
    && UniqueNonNull(t.campaigns, CampaignIdKey)
    && UniqueNonNull(t.posts, PostIdKey)
    && UniqueNonNull(t.posts, PostKey)
    && UniqueNonNull(t.comments, CommentIdKey)
    && Referenced(t)
  }

  /** The empty database meets every constraint. */
  lemma EmptyIsWellFormed()
    ensures WellFormed(Tables([], [], [], []))
  {
  }

  /** Every row id lies below `n`, so `n` is a fresh id. */
  ghost predicate IdsBelow(t: Tables, n: Id)
  {
    && (forall u :: u in t.users ==> u.id < n)
    && (forall c :: c in t.campaigns ==> c.id < n)
    && (forall p :: p in t.posts ==> p.id < n)
    && (forall m :: m in t.comments ==> m.id < n)
  }

  // ------------------------------------------- constraint-preserving updates

  lemma UniqueAppend<T, K>(s: seq<T>, x: T, key: T -> Option<K>)
    requires UniqueNonNull(s, key)
    requires key(x).Some? ==> forall y :: y in s ==> key(y) != key(x)
    ensures UniqueNonNull(s + [x], key)
  {
    var s' := s + [x];
    forall i, j | 0 <= i < j < |s'| && key(s'[i]).Some? ensures key(s'[i]) != key(s'[j]) {
      if j == |s| {
        assert s'[i] in s;
      }
    }
  }

  lemma UniqueUpdate<T, K>(s: seq<T>, k: nat, x: T, key: T -> Option<K>)
    requires UniqueNonNull(s, key) && k < |s|
    requires key(x) == key(s[k])
    ensures UniqueNonNull(s[k := x], key)
  {
  }

  /** Under a UNIQUE key a row is determined by its key. */
  lemma UniqueKeyedRow<T, K>(s: seq<T>, key: T -> Option<K>, x: T, k: nat)
    requires UniqueNonNull(s, key) && x in s && k < |s|
    requires key(x).Some? && key(s[k]) == key(x)
    ensures s[k] == x
  {
    var i :| 0 <= i < |s| && s[i] == x;
    if i != k {
      assert false;
    }
  }

  /** Dropping rows never creates a clash. */
  lemma {:induction false} UniqueFilter<T(!new), K>(s: seq<T>, p: T -> bool, key: T -> Option<K>)
    requires UniqueNonNull(s, key)
    ensures UniqueNonNull(Filter(s, p), key)
  {
    if s != [] {
      var init, last := s[..|s| - 1], s[|s| - 1];
      UniqueFilter(init, p, key);
      if p(last) {
        forall y | y in Filter(init, p) && key(y).Some? ensures key(y) != key(last) {
          var i :| 0 <= i < |init| && init[i] == y;
          assert s[i] == y;
        }
        UniqueAppend(Filter(init, p), last, key);
      }
    }
  }

  /** Rewriting one post in place keeps the tables well formed when its id and
      its (campaignId, platformPostId) key are kept. */
  lemma UpdatePostKeepsWellFormed(t: Tables, k: nat, p: DiscoveredPost)
    requires WellFormed(t) && k < |t.posts|
    requires p.id == t.posts[k].id && p.campaignId == t.posts[k].campaignId
    requires p.platformPostId == t.posts[k].platformPostId
    ensures WellFormed(t.(posts := t.posts[k := p]))
    ensures PostIds(t.posts[k := p]) == PostIds(t.posts)
  {
    UniqueUpdate(t.posts, k, p, PostIdKey);
    UniqueUpdate(t.posts, k, p, PostKey);
    var ps := t.posts[k := p];
    assert t.posts[k] in t.posts;
    forall x | x in PostIds(t.posts) ensures x in PostIds(ps) {
      var q :| q in t.posts && q.id == x;
      var i :| 0 <= i < |t.posts| && t.posts[i] == q;
      assert ps[i].id == x;
    }
  }

  /** Inserting a post with a fresh id, an existing campaign and an unused key. */
  lemma InsertPostKeepsWellFormed(t: Tables, p: DiscoveredPost)
    requires WellFormed(t)
    requires p.id !in PostIds(t.posts) && p.campaignId in CampaignIds(t.campaigns)
    requires forall q :: q in t.posts ==> PostKey(q) != PostKey(p)
    ensures WellFormed(t.(posts := t.posts + [p]))
  {
    UniqueAppend(t.posts, p, PostIdKey);
    UniqueAppend(t.posts, p, PostKey);
  }

  /** Rewriting one comment in place keeps its foreign keys and id. */
  lemma UpdateCommentKeepsWellFormed(t: Tables, k: nat, m: Comment)
    requires WellFormed(t) && k < |t.comments|
    requires m.id == t.comments[k].id && m.userId == t.comments[k].userId
    requires m.campaignId == t.comments[k].campaignId && m.postId == t.comments[k].postId
    ensures WellFormed(t.(comments := t.comments[k := m]))
  {
    UniqueUpdate(t.comments, k, m, CommentIdKey);
  }

  /** Inserting a comment with a fresh id whose three parents exist. */
  lemma InsertCommentKeepsWellFormed(t: Tables, m: Comment)
    requires WellFormed(t)
    requires forall x :: x in t.comments ==> x.id != m.id
    requires m.userId in UserIds(t.users) && m.campaignId in CampaignIds(t.campaigns)
    requires m.postId in PostIds(t.posts)
    ensures WellFormed(t.(comments := t.comments + [m]))
  {
    UniqueAppend(t.comments, m, CommentIdKey);
  }

  /** An `UPDATE comments SET ... WHERE sel`: every selected row is rewritten
      by `f`, every other row is kept, and the order is kept. */
  function CommentsWhere(cs: seq<Comment>, sel: Comment -> bool, f: Comment -> Comment): (r: seq<Comment>)
    ensures |r| == |cs|
    ensures forall i :: 0 <= i < |cs| ==> r[i] == if sel(cs[i]) then f(cs[i]) else cs[i]
  {
    if cs == [] then []
    else
      var last := cs[|cs| - 1];
      CommentsWhere(cs[..|cs| - 1], sel, f) + [if sel(last) then f(last) else last]
  }

  /** A rewrite that keeps each comment's id and parents (the columns a
      status update never sets). */
  ghost predicate KeepsKeys(f: Comment -> Comment)
  {
    forall m: Comment :: f(m).id == m.id && f(m).userId == m.userId && f(m).campaignId == m.campaignId && f(m).postId == m.postId
  }

  lemma UpdateCommentsKeepsWellFormed(t: Tables, sel: Comment -> bool, f: Comment -> Comment)
    requires WellFormed(t) && KeepsKeys(f)
    ensures WellFormed(t.(comments := CommentsWhere(t.comments, sel, f)))
  {
    var cs := CommentsWhere(t.comments, sel, f);
    forall m | m in cs
      ensures m.userId in UserIds(t.users) && m.campaignId in CampaignIds(t.campaigns) && m.postId in PostIds(t.posts)
    {
      var i :| 0 <= i < |cs| && cs[i] == m;
      assert t.comments[i] in t.comments;
    }
  }

  /** Inserting a user with a fresh id, an unused email and no token. */
  lemma InsertUserKeepsWellFormed(t: Tables, u: User)
    requires WellFormed(t)
    requires u.id !in UserIds(t.users) && u.extensionToken == None
    requires forall v :: v in t.users ==> v.email != u.email
    ensures WellFormed(t.(users := t.users + [u]))
  {
    UniqueAppend(t.users, u, UserIdKey);
    UniqueAppend(t.users, u, EmailKey);
    UniqueAppend(t.users, u, TokenKey);
  }

  /** Giving user `k` a token no other user holds. */
  lemma SetTokenKeepsWellFormed(t: Tables, k: nat, u: User)
    requires WellFormed(t) && k < |t.users|
    requires u.id == t.users[k].id && u.email == t.users[k].email
    requires u.extensionToken.Some? ==> forall j :: 0 <= j < |t.users| && j != k ==> t.users[j].extensionToken != u.extensionToken
    ensures WellFormed(t.(users := t.users[k := u]))
    ensures UserIds(t.users[k := u]) == UserIds(t.users)
  {
    UniqueUpdate(t.users, k, u, UserIdKey);
    UniqueUpdate(t.users, k, u, EmailKey);
    var us := t.users[k := u];
    forall i, j | 0 <= i < j < |us| && TokenKey(us[i]).Some? ensures TokenKey(us[i]) != TokenKey(us[j]) {
    }
    assert t.users[k] in t.users;
    forall x | x in UserIds(t.users) ensures x in UserIds(us) {
      var v :| v in t.users && v.id == x;
      var i :| 0 <= i < |t.users| && t.users[i] == v;
      assert us[i].id == x;
    }
  }

  // ------------------------------------------------------ ON DELETE CASCADE

  /** Ids of the campaigns removed with the users `du` and the campaigns `dc`. */
  function GoneCampaigns(t: Tables, du: set<Id>, dc: set<Id>): set<Id>
  {
    dc + set c | c in t.campaigns && c.userId in du :: c.id
  }

  /** Ids of the posts removed with those campaigns and the posts `dp`. */
  function GonePosts(t: Tables, du: set<Id>, dc: set<Id>, dp: set<Id>): set<Id>
  {
    dp + set p | p in t.posts && p.campaignId in GoneCampaigns(t, du, dc) :: p.id
  }

  /** Deletes the users `du`, campaigns `dc` and posts `dp` and, following the
      `onDelete: "cascade"` foreign keys, every row that refers to a deleted row. */
  function Cascade(t: Tables, du: set<Id>, dc: set<Id>, dp: set<Id>): (r: Tables)
    ensures forall u :: u in r.users <==> u in t.users && u.id !in du
    ensures forall c :: c in r.campaigns ==> c in t.campaigns && c.id !in dc && c.userId !in du
    ensures forall p :: p in r.posts ==> p in t.posts && p.id !in dp
    ensures forall m :: m in r.comments ==> m in t.comments && m.userId !in du
  {
    var gc := GoneCampaigns(t, du, dc);
    var gp := GonePosts(t, du, dc, dp);
    Tables(
      Filter(t.users, (u: User) => u.id !in du),
      Filter(t.campaigns, (c: Campaign) => c.id !in gc),
      Filter(t.posts, (p: DiscoveredPost) => p.id !in gp),
      Filter(t.comments, (m: Comment) => m.userId !in du && m.campaignId !in gc && m.postId !in gp))
  }

  function DeleteUser(t: Tables, userId: Id): Tables { Cascade(t, {userId}, {}, {}) }
  function DeleteCampaign(t: Tables, campaignId: Id): Tables { Cascade(t, {}, {campaignId}, {}) }
  function DeletePost(t: Tables, postId: Id): Tables { Cascade(t, {}, {}, {postId}) }

  /** A cascading delete keeps the tables well formed, removes the named rows
      and leaves no row that points at a deleted one. */
  lemma CascadeKeepsWellFormed(t: Tables, du: set<Id>, dc: set<Id>, dp: set<Id>)
    requires WellFormed(t)
    ensures var r := Cascade(t, du, dc, dp);
      && WellFormed(r)
      && (forall u :: u in r.users ==> u.id !in du)
      && (forall c :: c in r.campaigns ==> c.id !in dc && c.userId !in du)
      && (forall p :: p in r.posts ==> p.id !in dp && p.campaignId !in dc)
      && (forall m :: m in r.comments ==> m.userId !in du && m.campaignId !in dc && m.postId !in dp)
  {
    var r := Cascade(t, du, dc, dp);
    var gc := GoneCampaigns(t, du, dc);
    var gp := GonePosts(t, du, dc, dp);
    UniqueFilter(t.users, (u: User) => u.id !in du, UserIdKey);
    UniqueFilter(t.users, (u: User) => u.id !in du, EmailKey);
    UniqueFilter(t.users, (u: User) => u.id !in du, TokenKey);
    UniqueFilter(t.campaigns, (c: Campaign) => c.id !in gc, CampaignIdKey);
    UniqueFilter(t.posts, (p: DiscoveredPost) => p.id !in gp, PostIdKey);
    UniqueFilter(t.posts, (p: DiscoveredPost) => p.id !in gp, PostKey);
    UniqueFilter(t.comments, (m: Comment) => m.userId !in du && m.campaignId !in gc && m.postId !in gp, CommentIdKey);
    forall c | c in r.campaigns ensures c.userId in UserIds(r.users) && c.userId !in du {
      assert c in t.campaigns && c.id !in gc;
      var u :| u in t.users && u.id == c.userId;
      assert u in r.users;
    }
    forall p | p in r.posts ensures p.campaignId in CampaignIds(r.campaigns) && p.campaignId !in dc {
      assert p in t.posts && p.id !in gp;
      var c :| c in t.campaigns && c.id == p.campaignId;
      assert c.id !in gc;
      assert c in r.campaigns;
    }
    forall m | m in r.comments
      ensures m.userId in UserIds(r.users) && m.campaignId in CampaignIds(r.campaigns) && m.postId in PostIds(r.posts)
    {
      assert m in t.comments;
      var u :| u in t.users && u.id == m.userId;
      assert u in r.users;
      var c :| c in t.campaigns && c.id == m.campaignId;
      assert c in r.campaigns;
      var p :| p in t.posts && p.id == m.postId;
      assert p in r.posts;
    }
  }

  /** Nothing else goes: a row survives a cascading delete exactly when it is
      not named and every row it refers to survives. */
  lemma CascadeKeepsTheRest(t: Tables, du: set<Id>, dc: set<Id>, dp: set<Id>)
    requires WellFormed(t)
    ensures var r := Cascade(t, du, dc, dp);
      && (forall u :: u in r.users <==> u in t.users && u.id !in du)
      && (forall c :: c in r.campaigns <==> c in t.campaigns && c.id !in dc && c.userId in UserIds(r.users))
      && (forall p :: p in r.posts <==> p in t.posts && p.id !in dp && p.campaignId in CampaignIds(r.campaigns))
      && (forall m :: m in r.comments <==>
            m in t.comments && m.userId in UserIds(r.users) && m.campaignId in CampaignIds(r.campaigns)
            && m.postId in PostIds(r.posts))
  {
    CascadeKeepsCampaigns(t, du, dc, dp);
    CascadeKeepsPosts(t, du, dc, dp);
    CascadeKeepsComments(t, du, dc, dp);
  }

  lemma CascadeKeepsCampaigns(t: Tables, du: set<Id>, dc: set<Id>, dp: set<Id>)
    requires UniqueNonNull(t.campaigns, CampaignIdKey)
    requires forall c :: c in t.campaigns ==> c.userId in UserIds(t.users)
    ensures var r := Cascade(t, du, dc, dp);
      forall c :: c in r.campaigns <==> c in t.campaigns && c.id !in dc && c.userId in UserIds(r.users)
  {
    var r := Cascade(t, du, dc, dp);
    var gc := GoneCampaigns(t, du, dc);
    forall c | c in t.campaigns ensures c in r.campaigns <==> c.id !in dc && c.userId in UserIds(r.users) {
      if c.id !in dc && c.userId in UserIds(r.users) {
        var u :| u in r.users && u.id == c.userId;
        forall c' | c' in t.campaigns && c'.id == c.id ensures c' == c {
          var k :| 0 <= k < |t.campaigns| && t.campaigns[k] == c';
          UniqueKeyedRow(t.campaigns, CampaignIdKey, c, k);
        }
      }
      if c in r.campaigns {
        var u :| u in t.users && u.id == c.userId;
        assert u in r.users;
      }
    }
  }

  lemma CascadeKeepsPosts(t: Tables, du: set<Id>, dc: set<Id>, dp: set<Id>)
    requires UniqueNonNull(t.posts, PostIdKey)
    requires forall p :: p in t.posts ==> p.campaignId in CampaignIds(t.campaigns)
    ensures var r := Cascade(t, du, dc, dp);
      forall p :: p in r.posts <==> p in t.posts && p.id !in dp && p.campaignId in CampaignIds(r.campaigns)
  {
    var r := Cascade(t, du, dc, dp);
    var gc := GoneCampaigns(t, du, dc);
    var gp := GonePosts(t, du, dc, dp);
    forall p | p in t.posts ensures p in r.posts <==> p.id !in dp && p.campaignId in CampaignIds(r.campaigns) {
      if p.id !in dp && p.campaignId in CampaignIds(r.campaigns) {
        var c :| c in r.campaigns && c.id == p.campaignId;
        forall p' | p' in t.posts && p'.id == p.id ensures p' == p {
          var k :| 0 <= k < |t.posts| && t.posts[k] == p';
          UniqueKeyedRow(t.posts, PostIdKey, p, k);
        }
      }
      if p in r.posts {
        var c :| c in t.campaigns && c.id == p.campaignId;
        assert c in r.campaigns;
      }
    }
  }

  lemma CascadeKeepsComments(t: Tables, du: set<Id>, dc: set<Id>, dp: set<Id>)
    requires forall m :: m in t.comments ==>
      m.userId in UserIds(t.users) && m.campaignId in CampaignIds(t.campaigns) && m.postId in PostIds(t.posts)
    ensures var r := Cascade(t, du, dc, dp);
      forall m :: m in r.comments <==>
        m in t.comments && m.userId in UserIds(r.users) && m.campaignId in CampaignIds(r.campaigns)
        && m.postId in PostIds(r.posts)
  {
    var r := Cascade(t, du, dc, dp);
    forall m | m in t.comments
      ensures m in r.comments <==>
        m.userId in UserIds(r.users) && m.campaignId in CampaignIds(r.campaigns) && m.postId in PostIds(r.posts)
    {
      if m in r.comments {
        var u :| u in t.users && u.id == m.userId;
        assert u in r.users;
        var c :| c in t.campaigns && c.id == m.campaignId;
        assert c in r.campaigns;
        var p :| p in t.posts && p.id == m.postId;
        assert p in r.posts;
      }
    }
  }

  // ------------------------------------------------------------- lifecycle

  /** The comment status changes made anywhere in the system: review on the
      dashboard, hand-out by the queue route, and the extension's report. */
  predicate CommentStep(from: CommentStatus, to: CommentStatus)
  {
    || (from == PendingReview && (to == Approved || to == Rejected))
    || (from == Approved && to == ReadyToPost)
    || (from == ReadyToPost && to == Posting)
    || to == Posted || to == Failed
  }

  /** The post status changes: the dashboard's queue or skip, and generation. */
  predicate PostStep(from: PostStatus, to: PostStatus)
  {
    || (from == New && (to == Queued || to == Skipped))
    || (from == Queued && to == Commented)
  }
}
