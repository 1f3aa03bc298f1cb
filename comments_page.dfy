/** The dashboard's comment queue: the list fetched from `GET /api/comments`,
    the status filter, the review buttons and the inline editor. */
module CommentsPage {
  import opened Wrappers
  import opened Seqs
  import opened Schema
  import opened CommentsRoute

  /** The body of the fetch: a JSON array of comment items, any other JSON
      value, or a failed request. */
  datatype Fetched = Items(items: seq<CommentItem>) | NotAnArray | FetchFailed

  /** The filter tab: everything, or one status. */
  datatype StatusFilter = All | Only(status: CommentStatus)

  /** The tabs offered, in order; there is none for `posting` or `rejected`. */
  const Tabs: seq<StatusFilter> :=
    [All, Only(PendingReview), Only(Approved), Only(ReadyToPost), Only(Posted), Only(Failed)]

  /** The buttons under a comment. */
  datatype Action = Approve | Edit | Reject | SendToExtension

  function IdOf(item: CommentItem): Id
  {
    item.comment.id
  }

  function StatusOf(item: CommentItem): CommentStatus
  {
    item.comment.status
  }

  /** `Array.isArray(data) ? data : []`. */
  function Loaded(data: Fetched): (r: seq<CommentItem>)
    requires !data.FetchFailed?
    ensures data.Items? ==> r == data.items
    ensures data.NotAnArray? ==> r == []
  {
    if data.Items? then data.items else []
  }

  /** `prev.map(c => c.id === id ? { ...c, status } : c)`: the rows with
      that id take the new status and keep every other field; the other rows,
      the length and the order are kept. */
  function WithStatus(items: seq<CommentItem>, id: Id, status: CommentStatus): (r: seq<CommentItem>)
    ensures |r| == |items|
    ensures forall i :: 0 <= i < |items| ==> IdOf(r[i]) == IdOf(items[i])
    ensures forall i :: 0 <= i < |items| && IdOf(items[i]) != id ==> r[i] == items[i]
    ensures forall i :: 0 <= i < |items| && IdOf(items[i]) == id ==>
      StatusOf(r[i]) == status && r[i].(comment := r[i].comment.(status := StatusOf(items[i]))) == items[i]
  {
    seq(|items|, i requires 0 <= i < |items| =>
      if IdOf(items[i]) == id then items[i].(comment := items[i].comment.(status := status)) else items[i])
  }

  /** `prev.map(c => c.id === id ? { ...c, generatedText: text } : c)`: the
      same shape as `WithStatus`, for the text. */
  function WithText(items: seq<CommentItem>, id: Id, text: string): (r: seq<CommentItem>)
    ensures |r| == |items|
    ensures forall i :: 0 <= i < |items| ==> IdOf(r[i]) == IdOf(items[i]) && StatusOf(r[i]) == StatusOf(items[i])
    ensures forall i :: 0 <= i < |items| && IdOf(items[i]) != id ==> r[i] == items[i]
    ensures forall i :: 0 <= i < |items| && IdOf(items[i]) == id ==>
      r[i].comment.generatedText == text
      && r[i].(comment := r[i].comment.(generatedText := items[i].comment.generatedText)) == items[i]
  {
    seq(|items|, i requires 0 <= i < |items| =>
      if IdOf(items[i]) == id then items[i].(comment := items[i].comment.(generatedText := text)) else items[i])
  }

  /** The comments shown under `filter`: all of them, or those with the
      chosen status, in list order. */
  function Visible(items: seq<CommentItem>, filter: StatusFilter): (r: seq<CommentItem>)
    ensures forall x :: x in r <==> x in items && (filter.Only? ==> StatusOf(x) == filter.status)
  {
    match filter
    case All => items
    case Only(s) => Filter(items, (x: CommentItem) => StatusOf(x) == s)
  }

  /** The buttons shown for `item` while `editingId` is being edited. */
  function Actions(item: CommentItem, editingId: Option<Id>): (r: set<Action>)
    ensures Approve in r <==> StatusOf(item) == PendingReview && editingId != Some(IdOf(item))
    ensures Edit in r <==> Approve in r
    ensures Reject in r <==> Approve in r
    ensures SendToExtension in r <==> StatusOf(item) == Approved
  {
    (if StatusOf(item) == PendingReview && editingId != Some(IdOf(item)) then {Approve, Edit, Reject} else {})
      + (if StatusOf(item) == Approved then {SendToExtension} else {})
  }

  /** The status a button sets; `Edit` opens the editor and sets none. */
  function Target(a: Action): Option<CommentStatus>
  {
    match a
    case Approve => Some(Approved)
    case Reject => Some(Rejected)
    case SendToExtension => Some(ReadyToPost)
    case Edit => None
  }

  // ---------------------------------------------------------------- lemmas

  /** Setting a status twice is the same as setting it once. */
  lemma WithStatusIdempotent(items: seq<CommentItem>, id: Id, status: CommentStatus)
    ensures WithStatus(WithStatus(items, id, status), id, status) == WithStatus(items, id, status)
  {
  }

  /** Once its status is set, a comment shows under that status's tab and
      under no other status's tab. */
  lemma UpdatedShowsUnderItsStatus(items: seq<CommentItem>, id: Id, status: CommentStatus, f: StatusFilter)
    requires f.Only?
    ensures forall x :: x in WithStatus(items, id, status) && IdOf(x) == id ==>
      (x in Visible(WithStatus(items, id, status), f) <==> f.status == status)
  {
  }

  /** The "All" tab is the whole list; a status tab keeps the list's order. */
  lemma VisibleKeepsOrder(items: seq<CommentItem>, filter: StatusFilter)
    ensures filter.All? ==> Visible(items, filter) == items
    ensures filter.Only? ==>
      Visible(items, filter) == Filter(items, (x: CommentItem) => StatusOf(x) == filter.status)
    ensures |Visible(items, filter)| <= |items|
  {
  }

  /** `posting` and `rejected` comments show only under "All". */
  lemma HiddenStatuses(items: seq<CommentItem>, x: CommentItem)
    requires x in items && (StatusOf(x) == Posting || StatusOf(x) == Rejected)
    ensures forall f :: f in Tabs && x in Visible(items, f) ==> f == All
  {
  }

  /** Every status a button sets is a legal step of the comment lifecycle. */
  lemma ActionsFollowLifecycle(item: CommentItem, editingId: Option<Id>)
    ensures forall a :: a in Actions(item, editingId) && Target(a).Some? ==>
      CommentStep(StatusOf(item), Target(a).value)
  {
  }

  /** A comment being edited offers no button; a `posting`, `posted`,
      `failed` or `rejected` one offers none at all. */
  lemma NoActionsOutsideReview(item: CommentItem, editingId: Option<Id>)
    ensures StatusOf(item) !in {PendingReview, Approved} ==> Actions(item, editingId) == {}
    ensures StatusOf(item) == PendingReview && editingId == Some(IdOf(item)) ==> Actions(item, editingId) == {}
  {
  }

  // ------------------------------------------------------------------ page

  /** `CommentsPage`'s state. */
  class Page {
    var comments: seq<CommentItem>
    var loading: bool
    var editingId: Option<Id>
    var editText: string
    var filter: StatusFilter

    constructor ()
      ensures comments == [] && loading && editingId == None && editText == "" && filter == All
    {
      comments, loading, editingId, editText, filter := [], true, None, "", All;
    }

    /** The mount effect: store the list (or `[]` for a non-array) and stop
        loading; a failed request only stops loading. */
    method Load(data: Fetched)
      modifies this
      ensures data.FetchFailed? ==> comments == old(comments)
      ensures !data.FetchFailed? ==> comments == Loaded(data)
      ensures !loading
      ensures editingId == old(editingId) && editText == old(editText) && filter == old(filter)
    {
      if !data.FetchFailed? {
        comments := if data.Items? then data.items else [];
      }
      loading := false;
    }

    /** `updateStatus(id, status)`, after the PATCH request. */
    method UpdateStatus(id: Id, status: CommentStatus)
      modifies this
      ensures comments == WithStatus(old(comments), id, status)
      ensures loading == old(loading) && editingId == old(editingId)
      ensures editText == old(editText) && filter == old(filter)
    {
      comments := WithStatus(comments, id, status);
    }

    /** The Edit button: open the editor on that comment's text. */
    method StartEdit(item: CommentItem)
      modifies this
      ensures editingId == Some(IdOf(item)) && editText == item.comment.generatedText
      ensures comments == old(comments) && loading == old(loading) && filter == old(filter)
    {
      editingId := Some(IdOf(item));
      editText := item.comment.generatedText;
    }

    /** `saveEdit(id)`, after the PATCH request: the edited text replaces
        that comment's text and the editor closes. */
    method SaveEdit(id: Id)
      modifies this
      ensures comments == WithText(old(comments), id, old(editText))
      ensures editingId == None
      ensures editText == old(editText) && loading == old(loading) && filter == old(filter)
    {
      comments := WithText(comments, id, editText);
      editingId := None;
    }

    /** The Cancel button. */
    method CancelEdit()
      modifies this
      ensures editingId == None
      ensures comments == old(comments) && editText == old(editText)
      ensures loading == old(loading) && filter == old(filter)
    {
      editingId := None;
    }

    /** A tab's click. */
    method SetFilter(f: StatusFilter)
      modifies this
      ensures filter == f
      ensures comments == old(comments) && editingId == old(editingId)
      ensures editText == old(editText) && loading == old(loading)
    {
      filter := f;
    }
  }
}
