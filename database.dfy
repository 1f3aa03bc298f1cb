/** The database the routes share: the four tables, updated in place, and the
    source of fresh row ids. */
module Database {
  import opened Wrappers
  import opened Schema

  class Store {
    var tables: Tables
    /** The next id to hand out; every id in use is smaller. */
    var nextId: Id

    ghost predicate Valid()
      reads this
    {
      WellFormed(tables) && IdsBelow(tables, nextId)
    }

    constructor ()
      ensures Valid() && tables == Tables([], [], [], [])
    {
      tables := Tables([], [], [], []);
      nextId := 0;
    }

    /** A row id that no row uses (`crypto.randomUUID()`). */
    method NewId() returns (id: Id)
      requires Valid()
      modifies this
      ensures Valid() && tables == old(tables)
      ensures id == old(nextId) && nextId == id + 1
      ensures forall u :: u in tables.users ==> u.id < id
      ensures forall c :: c in tables.campaigns ==> c.id < id
      ensures forall p :: p in tables.posts ==> p.id < id
      ensures forall m :: m in tables.comments ==> m.id < id
    {
      id := nextId;
      nextId := nextId + 1;
    }

    /** INSERT INTO discovered_posts. */
    method InsertPost(p: DiscoveredPost)
      requires Valid() && p.id < nextId
      requires p.id !in PostIds(tables.posts) && p.campaignId in CampaignIds(tables.campaigns)
      requires forall q :: q in tables.posts ==> PostKey(q) != PostKey(p)
      modifies this
      ensures Valid() && nextId == old(nextId)
      ensures tables == old(tables).(posts := old(tables).posts + [p])
    {
      InsertPostKeepsWellFormed(tables, p);
      tables := tables.(posts := tables.posts + [p]);
    }

    /** UPDATE discovered_posts for the row at index `k`, keeping its keys. */
    method UpdatePost(k: nat, p: DiscoveredPost)
      requires Valid() && k < |tables.posts|
      requires p.id == tables.posts[k].id && p.campaignId == tables.posts[k].campaignId
      requires p.platformPostId == tables.posts[k].platformPostId
      modifies this
      ensures Valid() && nextId == old(nextId)
      ensures tables == old(tables).(posts := old(tables).posts[k := p])
    {
      UpdatePostKeepsWellFormed(tables, k, p);
      tables := tables.(posts := tables.posts[k := p]);
    }

    /** INSERT INTO comments. */
    method InsertComment(m: Comment)
      requires Valid() && m.id < nextId
      requires forall x :: x in tables.comments ==> x.id != m.id
      requires m.userId in UserIds(tables.users) && m.campaignId in CampaignIds(tables.campaigns)
      requires m.postId in PostIds(tables.posts)
      modifies this
      ensures Valid() && nextId == old(nextId)
      ensures tables == old(tables).(comments := old(tables).comments + [m])
    {
      InsertCommentKeepsWellFormed(tables, m);
      tables := tables.(comments := tables.comments + [m]);
    }

    /** UPDATE comments for the row at index `k`, keeping its id and parents. */
    method UpdateComment(k: nat, m: Comment)
      requires Valid() && k < |tables.comments|
      requires m.id == tables.comments[k].id && m.userId == tables.comments[k].userId
      requires m.campaignId == tables.comments[k].campaignId && m.postId == tables.comments[k].postId
      modifies this
      ensures Valid() && nextId == old(nextId)
      ensures tables == old(tables).(comments := old(tables).comments[k := m])
    {
      UpdateCommentKeepsWellFormed(tables, k, m);
      tables := tables.(comments := tables.comments[k := m]);
    }

    /** INSERT INTO users. */
    method InsertUser(u: User)
      requires Valid() && u.id < nextId && u.extensionToken == None
      requires u.id !in UserIds(tables.users)
      requires forall v :: v in tables.users ==> v.email != u.email
      modifies this
      ensures Valid() && nextId == old(nextId)
      ensures tables == old(tables).(users := old(tables).users + [u])
    {
      InsertUserKeepsWellFormed(tables, u);
      tables := tables.(users := tables.users + [u]);
    }

    /** UPDATE users for the row at index `k`, keeping its id and email; a new
        token must be one no other user holds (the UNIQUE index). */
    method UpdateUser(k: nat, u: User)
      requires Valid() && k < |tables.users|
      requires u.id == tables.users[k].id && u.email == tables.users[k].email
      requires u.extensionToken.Some? ==>
        forall j :: 0 <= j < |tables.users| && j != k ==> tables.users[j].extensionToken != u.extensionToken
      modifies this
      ensures Valid() && nextId == old(nextId)
      ensures tables == old(tables).(users := old(tables).users[k := u])
    {
      SetTokenKeepsWellFormed(tables, k, u);
      tables := tables.(users := tables.users[k := u]);
    }

    /** UPDATE comments SET ... WHERE `sel`, as one statement. */
    method UpdateCommentsWhere(sel: Comment -> bool, f: Comment -> Comment)
      requires Valid() && KeepsKeys(f)
      modifies this
      ensures Valid() && nextId == old(nextId)
      ensures tables == old(tables).(comments := CommentsWhere(old(tables).comments, sel, f))
    {
      UpdateCommentsKeepsWellFormed(tables, sel, f);
      tables := tables.(comments := CommentsWhere(tables.comments, sel, f));
    }
  }
}
