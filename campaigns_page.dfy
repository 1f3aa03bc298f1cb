/** The dashboard's campaign list: the rows fetched from `GET /api/campaigns`,
    the pause/resume toggle and deletion behind a confirm dialog. */
module CampaignsPage {
  import opened Schema
  import opened Wrappers
  import opened Seqs

  /** A row of the list as the page reads it; the status is the text the
      server sent. */
  datatype CampaignRow = CampaignRow(
    id: Id, brandName: string, productDescription: string, tone: string,
    maxCommentsPerDay: int, status: string, createdAt: Time,
    discoveredPosts: nat, comments: nat)

  /** The body of the fetch: a JSON array of rows, any other JSON value, or a
      failed request. */
  datatype Fetched = Rows(rows: seq<CampaignRow>) | NotAnArray | FetchFailed

  /** The PATCH or DELETE the page sends. */
  datatype Request = SetStatus(id: Id, status: string) | Delete(id: Id)

  /** `Array.isArray(data) ? data : []`. */
  function Loaded(data: Fetched): (r: seq<CampaignRow>)
    requires !data.FetchFailed?
    ensures data.Rows? ==> r == data.rows
    ensures data.NotAnArray? ==> r == []
  {
    if data.Rows? then data.rows else []
  }

  /** `currentStatus === "active" ? "paused" : "active"`. */
  function Toggled(status: string): (r: string)
    ensures status == "active" <==> r == "paused"
    ensures status != "active" <==> r == "active"
  {
    if status == "active" then "paused" else "active"
  }

  /** `prev.map(c => c.id === id ? { ...c, status } : c)`: the rows with that
      id take the new status and keep every other field; the other rows, the
      length and the order are kept. */
  function WithStatus(rows: seq<CampaignRow>, id: Id, status: string): (r: seq<CampaignRow>)
    ensures |r| == |rows|
    ensures forall i :: 0 <= i < |rows| ==> r[i].id == rows[i].id
    ensures forall i :: 0 <= i < |rows| && rows[i].id != id ==> r[i] == rows[i]
    ensures forall i :: 0 <= i < |rows| && rows[i].id == id ==>
      r[i].status == status && r[i].(status := rows[i].status) == rows[i]
  {
    seq(|rows|, i requires 0 <= i < |rows| => if rows[i].id == id then rows[i].(status := status) else rows[i])
  }

  predicate NotId(id: Id, c: CampaignRow)
  {
    c.id != id
  }

  /** `prev.filter(c => c.id !== id)`. */
  function Without(rows: seq<CampaignRow>, id: Id): (r: seq<CampaignRow>)
    ensures forall c :: c in r <==> c in rows && c.id != id
    ensures |r| <= |rows|
  {
    Filter(rows, c => NotId(id, c))
  }

  // ---------------------------------------------------------------- lemmas

  /** Toggling twice returns a server status to itself. */
  lemma ToggleTwice(status: string)
    requires status == "active" || status == "paused"
    ensures Toggled(Toggled(status)) == status
  {
  }

  /** Any text other than "active", "paused" included, resumes the campaign;
      so toggling twice from such a text ends at "active", not at the text. */
  lemma ToggleUnknownStatus(status: string)
    requires status != "active"
    ensures Toggled(status) == "active" && Toggled(Toggled(status)) == "paused"
  {
  }

  /** Deleting keeps the other rows in their order, and deleting an id that
      is not listed changes nothing. */
  lemma WithoutKeepsOthers(rows: seq<CampaignRow>, id: Id)
    ensures (forall c :: c in rows ==> c.id != id) ==> Without(rows, id) == rows
    ensures forall c :: c in rows && c.id == id ==> c !in Without(rows, id)
    ensures |Without(rows, id)| == |rows| - |Filter(rows, (c: CampaignRow) => c.id == id)|
    ensures forall k :: 0 <= k <= |rows| ==> Without(rows, id) == Without(rows[..k], id) + Without(rows[k..], id)
  {
    if forall c :: c in rows ==> c.id != id {
      FilterAll(rows, c => NotId(id, c));
    }
    WithoutCount(rows, id);
    WithoutKeepsOrder(rows, id);
  }

  /** Cutting the list anywhere, the rows kept before the cut come before
      those kept after it. */
  lemma WithoutKeepsOrder(rows: seq<CampaignRow>, id: Id)
    ensures forall k :: 0 <= k <= |rows| ==> Without(rows, id) == Without(rows[..k], id) + Without(rows[k..], id)
  {
    forall k | 0 <= k <= |rows| ensures Without(rows, id) == Without(rows[..k], id) + Without(rows[k..], id) {
      var a, b := rows[..k], rows[k..];
      assert rows == a + b;
      FilterConcat(a, b, c => NotId(id, c));
    }
  }

  /** The rows kept and the rows removed together make up the list. */
  lemma {:induction false} WithoutCount(rows: seq<CampaignRow>, id: Id)
    ensures |Without(rows, id)| + |Filter(rows, (c: CampaignRow) => c.id == id)| == |rows|
    decreases |rows|
  {
    if rows != [] {
      var init := rows[..|rows| - 1];
      assert rows == init + [rows[|rows| - 1]];
      WithoutCount(init, id);
    }
  }

  // ------------------------------------------------------------------ page

  /** `CampaignsPage`'s state. */
  class Page {
    var campaigns: seq<CampaignRow>
    var loading: bool

    constructor ()
      ensures campaigns == [] && loading
    {
      campaigns, loading := [], true;
    }

    /** The mount effect: store the list (or `[]` for a non-array) and stop
        loading; a failed request only stops loading. */
    method Load(data: Fetched)
      modifies this
      ensures data.FetchFailed? ==> campaigns == old(campaigns)
      ensures !data.FetchFailed? ==> campaigns == Loaded(data)
      ensures !loading
    {
      if !data.FetchFailed? {
        campaigns := if data.Rows? then data.rows else [];
      }
      loading := false;
    }

    /** `toggleStatus(id, currentStatus)`: the PATCH carries the toggled
        status, which then replaces the status of the rows with that id. */
    method ToggleStatus(id: Id, currentStatus: string) returns (sent: Request)
      modifies this
      ensures sent == SetStatus(id, Toggled(currentStatus))
      ensures campaigns == WithStatus(old(campaigns), id, Toggled(currentStatus))
      ensures loading == old(loading)
    {
      var newStatus := if currentStatus == "active" then "paused" else "active";
      sent := SetStatus(id, newStatus);
      campaigns := WithStatus(campaigns, id, newStatus);
    }

    /** `deleteCampaign(id)`, with the answer to the confirm dialog as a
        parameter: declined, nothing is sent and nothing changes. */
    method DeleteCampaign(id: Id, confirmed: bool) returns (sent: Option<Request>)
      modifies this
      ensures !confirmed ==> sent == None && campaigns == old(campaigns)
      ensures confirmed ==> sent == Some(Delete(id)) && campaigns == Without(old(campaigns), id)
      ensures loading == old(loading)
    {
      if !confirmed {
        return None;
      }
      sent := Some(Delete(id));
      campaigns := Without(campaigns, id);
    }
  }
}
