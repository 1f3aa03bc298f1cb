/** The generation cron route: take up to 20 queued posts (lowest relevance
    first), drop those that already have a comment, and for each one whose
    campaign is under its daily cap ask the generator for a comment, insert it
    and mark the post `commented`. */
module GenerateRoute {
  import opened Wrappers
  import opened Seqs
  import opened Schema
  import opened Database
  import opened CronAuth

  /** What `generateComment` gave: a text (possibly empty), or a throw that the
      route catches. */
  datatype GenOutcome = Text(text: string) | Threw
  type Generator = (DiscoveredPost, Campaign) -> GenOutcome

  datatype Response = Unauthorized | Generated(generated: nat)

  const BatchSize: nat := 20

  predicate IsQueued(p: DiscoveredPost)
  {
    p.status == Queued
  }

  /** `orderBy(discoveredPosts.relevanceScore)`: ascending. */
  predicate ByRelevance(a: DiscoveredPost, b: DiscoveredPost)
  {
    a.relevanceScore <= b.relevanceScore
  }

  lemma ByRelevanceIsTotal()
    ensures TotalPreorder(ByRelevance)
  {
  }

  predicate HasComment(comments: seq<Comment>, postId: Id)
  {
    exists m :: m in comments && m.postId == postId
  }

  /** The posts without any comment, in their order. */
  function Uncommented(posts: seq<DiscoveredPost>, comments: seq<Comment>): (r: seq<DiscoveredPost>)
    ensures |r| <= |posts| && multiset(r) <= multiset(posts)
    ensures forall p :: p in r <==> p in posts && !HasComment(comments, p.id)
    ensures Sorted(posts, ByRelevance) ==> Sorted(r, ByRelevance)
  {
    var keep := (p: DiscoveredPost) => !HasComment(comments, p.id);
    FilterKeepsOrder(posts, keep);
    Filter(posts, keep)
  }

  lemma FilterKeepsOrder(posts: seq<DiscoveredPost>, keep: DiscoveredPost -> bool)
    ensures Sorted(posts, ByRelevance) ==> Sorted(Filter(posts, keep), ByRelevance)
  {
    if Sorted(posts, ByRelevance) {
      FilterSorted(posts, ByRelevance, keep);
    }
  }

  /** `posts`: the queued posts by ascending relevance, at most 20. */
  function Batch(t: Tables): (r: seq<DiscoveredPost>)
    ensures |r| <= BatchSize && Sorted(r, ByRelevance)
  {
    ByRelevanceIsTotal();
    Top(Filter(t.posts, IsQueued), ByRelevance, BatchSize)
  }

  /** The batch is the 20 lowest-scored queued posts: it holds
      min(queued, 20) queued posts, and no queued post left out scores lower
      than one taken, so a post is left out only when the batch is full. */
  lemma BatchIsLowestQueued(t: Tables)
    ensures var queued := Filter(t.posts, IsQueued);
      |Batch(t)| == if |queued| <= BatchSize then |queued| else BatchSize
    ensures forall p :: p in Batch(t) ==> p in t.posts && p.status == Queued
    ensures forall p, q :: p in Batch(t) && q in t.posts && q.status == Queued && q !in Batch(t) ==>
      p.relevanceScore <= q.relevanceScore
    ensures forall q :: q in t.posts && q.status == Queued && q !in Batch(t) ==> |Batch(t)| == BatchSize
  {
    ByRelevanceIsTotal();
    var queued := Filter(t.posts, IsQueued);
    var batch := Batch(t);
    assert batch == Top(queued, ByRelevance, BatchSize);
    forall p, q | p in batch && q in t.posts && q.status == Queued && q !in batch
      ensures p.relevanceScore <= q.relevanceScore
    {
      assert q in queued;
      TopKeepsFirst(queued, ByRelevance, BatchSize);
      assert ByRelevance(p, q);
    }
    forall q | q in t.posts && q.status == Queued && q !in batch ensures |batch| == BatchSize {
      assert q in queued;
      TopFullWhenLeftOut(queued, ByRelevance, BatchSize, q);
    }
  }

  /** `postsToProcess`: the batch less the posts that already have a comment. */
  function ToProcess(t: Tables): (r: seq<DiscoveredPost>)
    ensures |r| <= BatchSize
    ensures forall p :: p in r <==> p in Batch(t) && !HasComment(t.comments, p.id)
    ensures forall p :: p in r ==> p in t.posts && p.status == Queued
    ensures Sorted(r, ByRelevance)
  {
    BatchIsLowestQueued(t);
    Uncommented(Batch(t), t.comments)
  }

  /** With at most 20 queued posts, every queued post without a comment is processed. */
  lemma SmallQueueAllProcessed(t: Tables, p: DiscoveredPost)
    requires p in t.posts && p.status == Queued && !HasComment(t.comments, p.id)
    requires |Filter(t.posts, IsQueued)| <= BatchSize
    ensures p in ToProcess(t)
  {
    ByRelevanceIsTotal();
    var queued := Filter(t.posts, IsQueued);
    TopKeepsFirst(queued, ByRelevance, BatchSize);
    assert p in multiset(queued);
  }

  /** Comments of the campaign created at or after local midnight. */
  function TodayCount(comments: seq<Comment>, campaignId: Id, todayStart: Time): (n: nat)
    ensures n <= |comments|
  {
    if comments == [] then 0
    else
      var last := comments[|comments| - 1];
      TodayCount(comments[..|comments| - 1], campaignId, todayStart)
        + (if last.campaignId == campaignId && last.createdAt >= todayStart then 1 else 0)
  }

  lemma TodayCountSnoc(comments: seq<Comment>, m: Comment, campaignId: Id, todayStart: Time)
    ensures TodayCount(comments + [m], campaignId, todayStart)
      == TodayCount(comments, campaignId, todayStart) + (if m.campaignId == campaignId && m.createdAt >= todayStart then 1 else 0)
  {
    assert (comments + [m])[..|comments|] == comments;
  }

  /** The daily cap of the campaign with that id; no campaign, no comments. */
  function Cap(campaigns: seq<Campaign>, campaignId: Id): int
  {
    match FindCampaign(campaigns, campaignId)
    case None => 0
    case Some(c) => c.maxCommentsPerDay
  }

  function Max(a: int, b: int): int
  {
    if a < b then b else a
  }

  /** `campaign.autoApprove ? "ready_to_post" : "pending_review"`. */
  function InitialStatus(c: Campaign): (s: CommentStatus)
    ensures s == ReadyToPost <==> c.autoApprove
    ensures s == PendingReview <==> !c.autoApprove
  {
    if c.autoApprove then ReadyToPost else PendingReview
  }

  /** A comment the run inserted: its campaign's user, the initial status, a
      non-empty text, no posting data yet. */
  ghost predicate NewComment(m: Comment, campaigns: seq<Campaign>, now: Time)
  {
    && FindCampaign(campaigns, m.campaignId).Some?
    && m.userId == FindCampaign(campaigns, m.campaignId).value.userId
    && m.status == InitialStatus(FindCampaign(campaigns, m.campaignId).value)
    && m.generatedText != "" && m.postedAt == None && m.platformUrl == None
    && m.createdAt == now && m.updatedAt == now
  }

  /** Every campaign ends with a today-count no larger than its starting count
      or its cap, whichever is larger. */
  ghost predicate CapKept(c0: seq<Comment>, c1: seq<Comment>, campaigns: seq<Campaign>, todayStart: Time)
  {
    forall cid :: TodayCount(c1, cid, todayStart) <= Max(TodayCount(c0, cid, todayStart), Cap(campaigns, cid))
  }

  /** The post with that id has a row marked `commented`. */
  ghost predicate CommentedIn(posts: seq<DiscoveredPost>, postId: Id)
  {
    exists k :: 0 <= k < |posts| && posts[k].id == postId && posts[k].status == Commented
  }

  /** The loop body for `post` on tables `t`, where `nextId` is the id the
      insert takes: the tables and next id it leaves, and whether it inserted
      a comment.  Every early `continue` and every caught throw leaves the
      tables as they were; an insert whose post row is gone is refused by the
      `post_id` foreign key and caught the same way. */
  function Step(t: Tables, nextId: Id, post: DiscoveredPost, generate: Generator, todayStart: Time, now: Time)
    : (r: (Tables, Id, bool))
    ensures !r.2 ==> r.0 == t && r.1 == nextId
    ensures r.2 ==> r.1 == nextId + 1 && |r.0.comments| == |t.comments| + 1
  {
    match FindCampaign(t.campaigns, post.campaignId)
    case None => (t, nextId, false)
    case Some(c) =>
      if TodayCount(t.comments, post.campaignId, todayStart) >= c.maxCommentsPerDay then (t, nextId, false)
      else
        match generate(post, c)
        case Threw => (t, nextId, false)
        case Text(text) =>
          if text == "" then (t, nextId, false)
          else
            match PostIndex(t.posts, post.id)
            case None => (t, nextId, false)
            case Some(k) =>
              var m := Comment(nextId, c.userId, post.campaignId, post.id, text, InitialStatus(c), None, None, now, now);
              var row := t.posts[k].(status := Commented, updatedAt := now);
              (t.(comments := t.comments + [m], posts := t.posts[k := row]), nextId + 1, true)
  }

  /** What one step does: users and campaigns stay, a post row either stays
      or becomes `commented`; a step that inserts appends one fresh comment of
      the generated shape for `post`, under the campaign's cap, with the post
      now `commented`; and a step that does not insert changes nothing. */
  lemma StepEffects(t: Tables, nextId: Id, post: DiscoveredPost, generate: Generator, todayStart: Time, now: Time)
    ensures var r := Step(t, nextId, post, generate, todayStart, now);
      r.0.users == t.users && r.0.campaigns == t.campaigns && |r.0.posts| == |t.posts|
    ensures var r := Step(t, nextId, post, generate, todayStart, now);
      forall i :: 0 <= i < |t.posts| ==>
        || r.0.posts[i] == t.posts[i]
        || (r.2 && t.posts[i].id == post.id && r.0.posts[i] == t.posts[i].(status := Commented, updatedAt := now))
    ensures var r := Step(t, nextId, post, generate, todayStart, now);
      !r.2 ==> r.0.comments == t.comments && r.1 == nextId
    ensures var r := Step(t, nextId, post, generate, todayStart, now);
      r.2 ==>
        && r.1 == nextId + 1
        && |r.0.comments| == |t.comments| + 1 && r.0.comments[..|t.comments|] == t.comments
        && r.0.comments[|t.comments|].id == nextId
        && r.0.comments[|t.comments|].postId == post.id
        && r.0.comments[|t.comments|].campaignId == post.campaignId
        && NewComment(r.0.comments[|t.comments|], t.campaigns, now)
        && TodayCount(t.comments, post.campaignId, todayStart) < Cap(t.campaigns, post.campaignId)
        && CommentedIn(r.0.posts, post.id)
  {
    var r := Step(t, nextId, post, generate, todayStart, now);
    if r.2 {
      var k := PostIndex(t.posts, post.id).value;
      assert r.0.posts[k].id == post.id && r.0.posts[k].status == Commented;
    }
  }

  /** A step inserts whenever the campaign exists, is under its cap, the
      generator returns a non-empty text and the post row is still there. */
  lemma StepInsertsWhenAble(t: Tables, nextId: Id, post: DiscoveredPost, generate: Generator, todayStart: Time, now: Time)
    requires FindCampaign(t.campaigns, post.campaignId).Some?
    requires TodayCount(t.comments, post.campaignId, todayStart) < Cap(t.campaigns, post.campaignId)
    requires generate(post, FindCampaign(t.campaigns, post.campaignId).value) !in {Threw, Text("")}
    requires post.id in PostIds(t.posts)
    ensures Step(t, nextId, post, generate, todayStart, now).2
  {
    PostIndexMisses(t.posts, post.id);
  }

  /** The loop over `posts`, one `Step` after another, counting the inserts. */
  function Steps(t: Tables, nextId: Id, posts: seq<DiscoveredPost>, generate: Generator, todayStart: Time, now: Time)
    : (r: (Tables, Id, nat))
    ensures r.2 <= |posts|
    ensures r.1 == nextId + r.2 && |r.0.comments| == |t.comments| + r.2
    decreases |posts|
  {
    if posts == [] then (t, nextId, 0)
    else
      var r := Steps(t, nextId, posts[..|posts| - 1], generate, todayStart, now);
      var s := Step(r.0, r.1, posts[|posts| - 1], generate, todayStart, now);
      (s.0, s.1, if s.2 then r.2 + 1 else r.2)
  }

  /** The run only appends comments, one per insert, with consecutive fresh
      ids; users, campaigns and the number of posts stay the same. */
  lemma {:induction false} StepsFrame(t: Tables, nextId: Id, posts: seq<DiscoveredPost>, generate: Generator,
                                      todayStart: Time, now: Time)
    ensures var r := Steps(t, nextId, posts, generate, todayStart, now);
      && r.0.users == t.users && r.0.campaigns == t.campaigns && |r.0.posts| == |t.posts|
      && r.2 <= |posts| && r.1 == nextId + r.2
      && |r.0.comments| == |t.comments| + r.2 && r.0.comments[..|t.comments|] == t.comments
      && forall j :: |t.comments| <= j < |r.0.comments| ==> r.0.comments[j].id == nextId + (j - |t.comments|)
    decreases |posts|
  {
    if posts != [] {
      var init := posts[..|posts| - 1];
      StepsFrame(t, nextId, init, generate, todayStart, now);
      var (t1, id1, n) := Steps(t, nextId, init, generate, todayStart, now);
      var (t2, id2, inserted) := Step(t1, id1, posts[|posts| - 1], generate, todayStart, now);
      StepEffects(t1, id1, posts[|posts| - 1], generate, todayStart, now);
      if inserted {
        assert t2.comments[..|t.comments|] == t1.comments[..|t1.comments|][..|t.comments|];
      }
    }
  }

  /** No campaign ends the run above both its starting count for today and
      its daily cap. */
  lemma {:induction false} StepsKeepCap(t: Tables, nextId: Id, posts: seq<DiscoveredPost>, generate: Generator,
                                        todayStart: Time, now: Time)
    ensures CapKept(t.comments, Steps(t, nextId, posts, generate, todayStart, now).0.comments, t.campaigns, todayStart)
    decreases |posts|
  {
    if posts == [] {
      forall cid ensures TodayCount(t.comments, cid, todayStart) <= Max(TodayCount(t.comments, cid, todayStart), Cap(t.campaigns, cid)) {
      }
    } else {
      var init := posts[..|posts| - 1];
      StepsKeepCap(t, nextId, init, generate, todayStart, now);
      StepsFrame(t, nextId, init, generate, todayStart, now);
      var (t1, id1, n) := Steps(t, nextId, init, generate, todayStart, now);
      var (t2, id2, inserted) := Step(t1, id1, posts[|posts| - 1], generate, todayStart, now);
      StepEffects(t1, id1, posts[|posts| - 1], generate, todayStart, now);
      if inserted {
        var m := t2.comments[|t1.comments|];
        assert t2.comments == t1.comments + [m];
        CapStep(t.comments, t1.comments, t.campaigns, m, todayStart);
      }
    }
  }

  lemma CapStep(c0: seq<Comment>, c1: seq<Comment>, campaigns: seq<Campaign>, m: Comment, todayStart: Time)
    requires CapKept(c0, c1, campaigns, todayStart)
    requires TodayCount(c1, m.campaignId, todayStart) < Cap(campaigns, m.campaignId)
    ensures CapKept(c0, c1 + [m], campaigns, todayStart)
  {
    forall cid ensures TodayCount(c1 + [m], cid, todayStart) <= Max(TodayCount(c0, cid, todayStart), Cap(campaigns, cid)) {
      TodayCountSnoc(c1, m, cid, todayStart);
    }
  }

  /** Every comment the run added belongs to one of the processed posts and
      has the shape of a fresh generated comment. */
  lemma {:induction false} StepsAddedComments(t: Tables, nextId: Id, posts: seq<DiscoveredPost>, generate: Generator,
                                              todayStart: Time, now: Time)
    ensures var r := Steps(t, nextId, posts, generate, todayStart, now);
      forall j :: |t.comments| <= j < |r.0.comments| ==>
        && NewComment(r.0.comments[j], t.campaigns, now)
        && exists p :: p in posts && p.id == r.0.comments[j].postId && p.campaignId == r.0.comments[j].campaignId
    decreases |posts|
  {
    if posts != [] {
      var init := posts[..|posts| - 1];
      var post := posts[|posts| - 1];
      StepsAddedComments(t, nextId, init, generate, todayStart, now);
      StepsFrame(t, nextId, init, generate, todayStart, now);
      var (t1, id1, n) := Steps(t, nextId, init, generate, todayStart, now);
      var (t2, id2, inserted) := Step(t1, id1, post, generate, todayStart, now);
      StepEffects(t1, id1, post, generate, todayStart, now);
      forall j | |t.comments| <= j < |t2.comments|
        ensures NewComment(t2.comments[j], t.campaigns, now)
        ensures exists p :: p in posts && p.id == t2.comments[j].postId && p.campaignId == t2.comments[j].campaignId
      {
        if j < |t1.comments| {
          assert t2.comments[j] == t1.comments[j];
          var p :| p in init && p.id == t1.comments[j].postId && p.campaignId == t1.comments[j].campaignId;
          assert p in posts;
        } else {
          assert post in posts;
        }
      }
    }
  }

  /** The post of every comment the run added is now `commented`. */
  lemma {:induction false} StepsCommentedPosts(t: Tables, nextId: Id, posts: seq<DiscoveredPost>, generate: Generator,
                                               todayStart: Time, now: Time)
    ensures var r := Steps(t, nextId, posts, generate, todayStart, now);
      forall j :: |t.comments| <= j < |r.0.comments| ==> CommentedIn(r.0.posts, r.0.comments[j].postId)
    decreases |posts|
  {
    if posts != [] {
      var init := posts[..|posts| - 1];
      var post := posts[|posts| - 1];
      StepsCommentedPosts(t, nextId, init, generate, todayStart, now);
      StepsFrame(t, nextId, init, generate, todayStart, now);
      var (t1, id1, n) := Steps(t, nextId, init, generate, todayStart, now);
      var (t2, id2, inserted) := Step(t1, id1, post, generate, todayStart, now);
      StepEffects(t1, id1, post, generate, todayStart, now);
      forall j | |t.comments| <= j < |t2.comments|
        ensures CommentedIn(t2.posts, t2.comments[j].postId)
      {
        if j < |t1.comments| {
          assert t2.comments[j] == t1.comments[j];
          StepKeepsCommented(t1, id1, post, generate, todayStart, now, t1.comments[j].postId);
        }
      }
    }
  }

  /** A later step never takes a post out of `commented`. */
  lemma StepKeepsCommented(t: Tables, nextId: Id, post: DiscoveredPost, generate: Generator, todayStart: Time, now: Time,
                           postId: Id)
    requires CommentedIn(t.posts, postId)
    ensures CommentedIn(Step(t, nextId, post, generate, todayStart, now).0.posts, postId)
  {
    var t' := Step(t, nextId, post, generate, todayStart, now).0;
    StepEffects(t, nextId, post, generate, todayStart, now);
    var k :| 0 <= k < |t.posts| && t.posts[k].id == postId && t.posts[k].status == Commented;
    assert t'.posts[k].id == postId && t'.posts[k].status == Commented;
  }

  /** A post row the run changed is now `commented`, stamped `now`, and has a
      comment added by the run. */
  lemma {:induction false} StepsMarkedPosts(t: Tables, nextId: Id, posts: seq<DiscoveredPost>, generate: Generator,
                                            todayStart: Time, now: Time)
    ensures var r := Steps(t, nextId, posts, generate, todayStart, now);
      && |r.0.posts| == |t.posts|
      && forall i :: 0 <= i < |t.posts| ==>
        || r.0.posts[i] == t.posts[i]
        || (&& r.0.posts[i] == t.posts[i].(status := Commented, updatedAt := now)
            && (exists p :: p in posts && p.id == t.posts[i].id)
            && (exists j :: |t.comments| <= j < |r.0.comments| && r.0.comments[j].postId == t.posts[i].id))
    decreases |posts|
  {
    if posts != [] {
      var init := posts[..|posts| - 1];
      var post := posts[|posts| - 1];
      StepsMarkedPosts(t, nextId, init, generate, todayStart, now);
      StepsFrame(t, nextId, init, generate, todayStart, now);
      var (t1, id1, n) := Steps(t, nextId, init, generate, todayStart, now);
      var (t2, id2, inserted) := Step(t1, id1, post, generate, todayStart, now);
      StepEffects(t1, id1, post, generate, todayStart, now);
      forall i | 0 <= i < |t.posts| && t2.posts[i] != t.posts[i]
        ensures t2.posts[i] == t.posts[i].(status := Commented, updatedAt := now)
        ensures exists p :: p in posts && p.id == t.posts[i].id
        ensures exists j :: |t.comments| <= j < |t2.comments| && t2.comments[j].postId == t.posts[i].id
      {
        if t1.posts[i] != t.posts[i] {
          var p :| p in init && p.id == t.posts[i].id;
          assert p in posts;
          var j :| |t.comments| <= j < |t1.comments| && t1.comments[j].postId == t.posts[i].id;
          if inserted {
            assert t2.comments[j] == t1.comments[..|t1.comments|][j];
          }
        } else {
          assert post in posts;
          assert t2.comments[|t1.comments|].postId == post.id;
        }
      }
    }
  }

  /** The loop body for one post. */
  method ProcessPost(store: Store, post: DiscoveredPost, generate: Generator, todayStart: Time, now: Time)
    returns (inserted: bool)
    requires store.Valid()
    modifies store
    ensures store.Valid()
    ensures (store.tables, store.nextId, inserted) == Step(old(store.tables), old(store.nextId), post, generate, todayStart, now)
  {
    var campaign := FindCampaign(store.tables.campaigns, post.campaignId);
    if campaign.None? {
      return false;
    }
    var c := campaign.value;
    var todayCount := TodayCount(store.tables.comments, post.campaignId, todayStart);
    if todayCount >= c.maxCommentsPerDay {
      return false;
    }
    var outcome := generate(post, c);
    if outcome.Threw? || outcome.text == "" {
      return false;
    }
    var index := PostIndex(store.tables.posts, post.id);
    if index.None? {
      return false;
    }
    var k := index.value;
    var row := store.tables.posts[k];
    assert row in store.tables.posts;
    var id := store.NewId();
    var m := Comment(id, c.userId, post.campaignId, post.id, outcome.text, InitialStatus(c), None, None, now, now);
    store.InsertComment(m);
    store.UpdatePost(k, row.(status := Commented, updatedAt := now));
    inserted := true;
  }

  /** A post row the route changed was queued, uncommented and among the
      chosen batch: generation only ever moves a post from `queued` to
      `commented`. */
  lemma OnlyChosenPostsMarked(t: Tables, nextId: Id, generate: Generator, todayStart: Time, now: Time)
    requires WellFormed(t)
    ensures var r := Steps(t, nextId, ToProcess(t), generate, todayStart, now);
      && |r.0.posts| == |t.posts|
      && forall i :: 0 <= i < |t.posts| && r.0.posts[i] != t.posts[i] ==>
           && t.posts[i] in ToProcess(t) && !HasComment(t.comments, t.posts[i].id)
           && PostStep(t.posts[i].status, r.0.posts[i].status)
  {
    var chosen := ToProcess(t);
    StepsMarkedPosts(t, nextId, chosen, generate, todayStart, now);
    var r := Steps(t, nextId, chosen, generate, todayStart, now);
    forall i | 0 <= i < |t.posts| && r.0.posts[i] != t.posts[i]
      ensures t.posts[i] in chosen && !HasComment(t.comments, t.posts[i].id)
      ensures PostStep(t.posts[i].status, r.0.posts[i].status)
    {
      var p :| p in chosen && p.id == t.posts[i].id;
      UniqueKeyedRow(t.posts, PostIdKey, p, i);
    }
  }

  /** One more pass of the loop is one more step of the run. */
  lemma StepsExtend(t0: Tables, id0: Id, posts: seq<DiscoveredPost>, j: nat, generate: Generator,
                    todayStart: Time, now: Time, before: (Tables, Id, nat), t: Tables, id: Id, inserted: bool,
                    count: nat)
    requires j < |posts|
    requires before == Steps(t0, id0, posts[..j], generate, todayStart, now)
    requires (t, id, inserted) == Step(before.0, before.1, posts[j], generate, todayStart, now)
    requires count == if inserted then before.2 + 1 else before.2
    ensures (t, id, count) == Steps(t0, id0, posts[..j + 1], generate, todayStart, now)
  {
    var upto := posts[..j + 1];
    assert upto[..j] == posts[..j] && upto[j] == posts[j];
  }

  /** One pass of the loop, on `posts[j]`, with the count so far. */
  method ProcessNext(store: Store, posts: seq<DiscoveredPost>, j: nat, generated: nat, generate: Generator,
                     todayStart: Time, now: Time, ghost t0: Tables, ghost id0: Id)
    returns (count: nat)
    requires j < |posts|
    requires store.Valid()
    requires (store.tables, store.nextId, generated) == Steps(t0, id0, posts[..j], generate, todayStart, now)
    modifies store
    ensures store.Valid()
    ensures (store.tables, store.nextId, count) == Steps(t0, id0, posts[..j + 1], generate, todayStart, now)
  {
    ghost var before := (store.tables, store.nextId, generated);
    var inserted := ProcessPost(store, posts[j], generate, todayStart, now);
    count := if inserted then generated + 1 else generated;
    StepsExtend(t0, id0, posts, j, generate, todayStart, now, before, store.tables, store.nextId, inserted, count);
  }

  /** The `for (const post of postsToProcess)` loop. */
  method ProcessAll(store: Store, posts: seq<DiscoveredPost>, generate: Generator, todayStart: Time, now: Time)
    returns (generated: nat)
    requires store.Valid()
    modifies store
    ensures store.Valid()
    ensures var run := Steps(old(store.tables), old(store.nextId), posts, generate, todayStart, now);
      store.tables == run.0 && store.nextId == run.1 && generated == run.2
  {
    ghost var t0, id0 := store.tables, store.nextId;
    generated := 0;
    var j := 0;
    while j < |posts|
      invariant 0 <= j <= |posts|
      invariant store.Valid()
      invariant (store.tables, store.nextId, generated) == Steps(t0, id0, posts[..j], generate, todayStart, now)
    {
      generated := ProcessNext(store, posts, j, generated, generate, todayStart, now, t0, id0);
      j := j + 1;
    }
    assert posts[..j] == posts;
  }

  /** `POST /api/cron/generate`, with the current time `now` and local
      midnight `todayStart` passed in. */
  method Generate(store: Store, production: bool, authorization: Option<string>, cronSecret: Option<string>,
                  generate: Generator, todayStart: Time, now: Time) returns (r: Response)
    requires store.Valid()
    modifies store
    ensures store.Valid()
    ensures !CronAuthorized(production, authorization, cronSecret) ==>
      r == Unauthorized && store.tables == old(store.tables) && store.nextId == old(store.nextId)
    ensures CronAuthorized(production, authorization, cronSecret) ==>
      var run := Steps(old(store.tables), old(store.nextId), ToProcess(old(store.tables)), generate, todayStart, now);
      && r == Generated(run.2) && store.tables == run.0 && store.nextId == run.1
      && r.generated <= BatchSize
      && |store.tables.comments| == |old(store.tables).comments| + r.generated
      && CapKept(old(store.tables).comments, store.tables.comments, old(store.tables).campaigns, todayStart)
  {
    if !CronAuthorized(production, authorization, cronSecret) {
      return Unauthorized;
    }
    ghost var t0, id0 := store.tables, store.nextId;
    var postsToProcess := ToProcess(store.tables);
    var generated := ProcessAll(store, postsToProcess, generate, todayStart, now);
    StepsFrame(t0, id0, postsToProcess, generate, todayStart, now);
    StepsKeepCap(t0, id0, postsToProcess, generate, todayStart, now);
    r := Generated(generated);
  }
}
