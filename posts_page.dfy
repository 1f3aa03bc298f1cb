/** The dashboard's discovered-posts list: the rows fetched from
    `GET /api/posts` and the Queue and Skip buttons of new posts. */
module PostsPage {
  import opened Schema
  import opened PostsRoute

  /** The body of the fetch: a JSON array of post items, any other JSON value,
      or a failed request. */
  datatype Fetched = Items(items: seq<PostItem>) | NotAnArray | FetchFailed

  /** The buttons beside a post. */
  datatype Action = Queue | Skip

  /** `PATCH /api/posts/{id}` with body `{ status }`. */
  datatype Request = SetStatus(id: Id, status: PostStatus)

  function IdOf(item: PostItem): Id
  {
    item.post.id
  }

  function StatusOf(item: PostItem): PostStatus
  {
    item.post.status
  }

  /** `Array.isArray(data) ? data : []`. */
  function Loaded(data: Fetched): (r: seq<PostItem>)
    requires !data.FetchFailed?
    ensures data.Items? ==> r == data.items
    ensures data.NotAnArray? ==> r == []
  {
    if data.Items? then data.items else []
  }

  /** `prev.map(p => p.id === id ? { ...p, status } : p)`: the rows with that
      id take the new status and keep every other field; the other rows, the
      length and the order are kept. */
  function WithStatus(items: seq<PostItem>, id: Id, status: PostStatus): (r: seq<PostItem>)
    ensures |r| == |items|
    ensures forall i :: 0 <= i < |items| ==> IdOf(r[i]) == IdOf(items[i])
    ensures forall i :: 0 <= i < |items| && IdOf(items[i]) != id ==> r[i] == items[i]
    ensures forall i :: 0 <= i < |items| && IdOf(items[i]) == id ==>
      StatusOf(r[i]) == status && r[i].(post := r[i].post.(status := StatusOf(items[i]))) == items[i]
  {
    seq(|items|, i requires 0 <= i < |items| =>
      if IdOf(items[i]) == id then items[i].(post := items[i].post.(status := status)) else items[i])
  }

  /** The buttons shown for a post: Queue and Skip for a new post, none
      otherwise. */
  function Actions(item: PostItem): (r: set<Action>)
    ensures Queue in r <==> StatusOf(item) == New
    ensures Skip in r <==> StatusOf(item) == New
  {
    if StatusOf(item) == New then {Queue, Skip} else {}
  }

  /** The status each button sets. */
  function Target(a: Action): PostStatus
  {
    match a
    case Queue => Queued
    case Skip => Skipped
  }

  // ---------------------------------------------------------------- lemmas

  /** Every status a button offers to set is a legal step of the post
      lifecycle. */
  lemma ActionsFollowLifecycle(item: PostItem)
    ensures forall a :: a in Actions(item) ==> PostStep(StatusOf(item), Target(a))
  {
  }

  /** The later of two updates to the same post wins. */
  lemma LastUpdateWins(items: seq<PostItem>, id: Id, first: PostStatus, second: PostStatus)
    ensures WithStatus(WithStatus(items, id, first), id, second) == WithStatus(items, id, second)
  {
  }

  /** Updates to different posts commute. */
  lemma UpdatesCommute(items: seq<PostItem>, a: Id, sa: PostStatus, b: Id, sb: PostStatus)
    requires a != b
    ensures WithStatus(WithStatus(items, a, sa), b, sb) == WithStatus(WithStatus(items, b, sb), a, sa)
  {
  }

  /** After an update no button is left on the updated post, since neither
      `queued` nor `skipped` is `new`. */
  lemma UpdatedPostOffersNothing(items: seq<PostItem>, id: Id, a: Action)
    ensures forall x :: x in WithStatus(items, id, Target(a)) && IdOf(x) == id ==> Actions(x) == {}
  {
  }

  // ------------------------------------------------------------------ page

  /** `PostsPage`'s state. */
  class Page {
    var posts: seq<PostItem>
    var loading: bool

    constructor ()
      ensures posts == [] && loading
    {
      posts, loading := [], true;
    }

    /** The mount effect: store the list (or `[]` for a non-array) and stop
        loading; a failed request only stops loading. */
    method Load(data: Fetched)
      modifies this
      ensures data.FetchFailed? ==> posts == old(posts)
      ensures !data.FetchFailed? ==> posts == Loaded(data)
      ensures !loading
    {
      if !data.FetchFailed? {
        posts := if data.Items? then data.items else [];
      }
      loading := false;
    }

    /** `queuePost(id)`: the PATCH sets the post's status to queued, and
        then the rows with that id show it. */
    method QueuePost(id: Id) returns (sent: Request)
      modifies this
      ensures sent == SetStatus(id, Queued)
      ensures posts == WithStatus(old(posts), id, Queued)
      ensures loading == old(loading)
    {
      sent := SetStatus(id, Queued);
      posts := WithStatus(posts, id, Queued);
    }

    /** `skipPost(id)`: the PATCH sets the post's status to skipped, and
        then the rows with that id show it. */
    method SkipPost(id: Id) returns (sent: Request)
      modifies this
      ensures sent == SetStatus(id, Skipped)
      ensures posts == WithStatus(old(posts), id, Skipped)
      ensures loading == old(loading)
    {
      sent := SetStatus(id, Skipped);
      posts := WithStatus(posts, id, Skipped);
    }
  }
}
