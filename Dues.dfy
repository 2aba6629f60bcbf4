/**
 * The dues page: a server-paged list of dues records filtered by status, search text and an
 * overdue switch, with a local status patch after a successful update, the overdue marker and
 * the clamped page controls.
 */
module Dues {
  import opened Wrappers
  import Pager

  datatype DuesStatus = Pending | Partial | PaidUp

  /** A dues record; `dueDate` is the due date's time in milliseconds, `None` when it has none. */
  datatype DuesRecord = DuesRecord(
    mongoId: string,
    amount: int,
    status: DuesStatus,
    name: string,
    phoneNumber: string,
    dueDate: Option<int>)

  datatype StatusFilter = AllStatuses | OnlyStatus(status: DuesStatus)

  // ---- local status patch ----

  /** `dues.map(d => d._id === id ? { ...d, status } : d)`. */
  function PatchStatus(dues: seq<DuesRecord>, id: string, status: DuesStatus): (r: seq<DuesRecord>)
    ensures |r| == |dues|
    ensures forall i :: 0 <= i < |r| ==> r[i].status == if dues[i].mongoId == id then status else dues[i].status
    ensures forall i :: 0 <= i < |r| ==> r[i].(status := dues[i].status) == dues[i]
  {
    if dues == [] then []
    else
      var d := dues[0];
      [if d.mongoId == id then d.(status := status) else d] + PatchStatus(dues[1..], id, status)
  }

  /** Only the records with the given id are touched. */
  lemma PatchStatusTouchesOnlyId(dues: seq<DuesRecord>, id: string, status: DuesStatus, i: int)
    requires 0 <= i < |dues| && dues[i].mongoId != id
    ensures PatchStatus(dues, id, status)[i] == dues[i]
  {
    var r := PatchStatus(dues, id, status);
    assert r[i].(status := dues[i].status) == dues[i];
  }

  /** Patching is idempotent: sending the same status twice leaves the list as after the first time. */
  lemma PatchStatusIdempotent(dues: seq<DuesRecord>, id: string, status: DuesStatus)
    ensures PatchStatus(PatchStatus(dues, id, status), id, status) == PatchStatus(dues, id, status)
  {
    var once := PatchStatus(dues, id, status);
    var twice := PatchStatus(once, id, status);
    forall i | 0 <= i < |twice|
      ensures twice[i] == once[i]
    {
      assert twice[i].(status := once[i].status) == once[i];
    }
  }

  // ---- overdue ----

  /** `isOverdue`: no due date is never overdue; otherwise the date is before the current time. */
  predicate IsOverdue(dueDate: Option<int>, now: int) {
    dueDate.Some? && dueDate.value < now
  }

  /** Once overdue, a record stays overdue as time goes on; a record with no due date never is. */
  lemma OverdueStays(dueDate: Option<int>, now: int, later: int)
    requires IsOverdue(dueDate, now) && now <= later
    ensures IsOverdue(dueDate, later)
    ensures forall t :: !IsOverdue(None, t)
  {
  }

  /** The overdue switch picks the endpoint. */
  function Endpoint(showOverdue: bool): (path: string)
    ensures path == "/dues/overdue" <==> showOverdue
    ensures path == "/dues" <==> !showOverdue
  {
    if showOverdue then "/dues/overdue" else "/dues"
  }

  /** The query the fetch sends. */
  datatype DuesQuery = DuesQuery(endpoint: string, page: int, limit: int, status: StatusFilter, searchTerm: string)

  /** A successful response: the page of records and the number of pages. */
  datatype DuesResponse = DuesResponse(dues: seq<DuesRecord>, totalPages: int)

  class DuesPage {
    var dues: seq<DuesRecord>
    var isLoading: bool
    var page: int
    var limit: int
    var totalPages: int
    var statusFilter: StatusFilter
    var searchTerm: string
    var editingId: Option<string>
    var showOverdue: bool

    predicate Valid()
      reads this
    {
      page >= 1
    }

    constructor()
      ensures Valid()
      ensures dues == [] && isLoading && page == 1 && limit == 10 && totalPages == 1
      ensures statusFilter == AllStatuses && searchTerm == "" && editingId == None && !showOverdue
    {
      dues, isLoading, page, limit, totalPages := [], true, 1, 10, 1;
      statusFilter, searchTerm, editingId, showOverdue := AllStatuses, "", None, false;
    }

    function Query(): DuesQuery
      reads this
    {
      DuesQuery(Endpoint(showOverdue), page, limit, statusFilter, searchTerm)
    }

    /** `fetchDues` after the request: a successful response replaces the records and the page count. */
    method ApplyDuesResponse(response: Option<DuesResponse>)
      modifies this
      ensures response.Some? ==> dues == response.value.dues && totalPages == response.value.totalPages
      ensures response.None? ==> dues == old(dues) && totalPages == old(totalPages)
      ensures !isLoading
      ensures page == old(page) && statusFilter == old(statusFilter) && searchTerm == old(searchTerm)
      ensures showOverdue == old(showOverdue) && editingId == old(editingId)
    {
      isLoading := true;
      if response.Some? {
        dues := response.value.dues;
        totalPages := response.value.totalPages;
      }
      isLoading := false;
    }

    /** `updateDuesStatus`: on success the record's status is patched locally; nothing changes otherwise. */
    method UpdateDuesStatus(id: string, status: DuesStatus, success: bool)
      modifies this
      ensures success ==> dues == PatchStatus(old(dues), id, status)
      ensures !success ==> dues == old(dues)
      ensures page == old(page) && totalPages == old(totalPages) && statusFilter == old(statusFilter)
      ensures searchTerm == old(searchTerm) && showOverdue == old(showOverdue) && editingId == old(editingId)
    {
      if success {
        dues := PatchStatus(dues, id, status);
      }
    }

    method SetSearchTerm(term: string)
      requires Valid()
      modifies this
      ensures Valid() && searchTerm == term && page == 1
      ensures statusFilter == old(statusFilter) && showOverdue == old(showOverdue) && dues == old(dues)
    {
      searchTerm := term;
      page := 1;
    }

    method SetStatusFilter(filter: StatusFilter)
      requires Valid()
      modifies this
      ensures Valid() && statusFilter == filter && page == 1
      ensures searchTerm == old(searchTerm) && showOverdue == old(showOverdue) && dues == old(dues)
    {
      statusFilter := filter;
      page := 1;
    }

    method ToggleOverdue()
      requires Valid()
      modifies this
      ensures Valid() && showOverdue == !old(showOverdue) && page == 1
      ensures Query().endpoint == Endpoint(!old(showOverdue))
      ensures searchTerm == old(searchTerm) && statusFilter == old(statusFilter) && dues == old(dues)
    {
      showOverdue := !showOverdue;
      page := 1;
    }

    /** The pager is rendered once loading is over and there is more than one page. */
    predicate ShowsPager()
      reads this
    {
      !isLoading && totalPages > 1
    }

    /** Previous, which exists only while the pager is shown and is enabled off the first page. */
    method Previous()
      requires Valid() && ShowsPager() && page != 1
      modifies this
      ensures Valid() && page == Pager.PreviousPage(old(page))
      ensures totalPages == old(totalPages) && dues == old(dues)
    {
      page := if page - 1 > 1 then page - 1 else 1;
    }

    /** Next, which exists only while the pager is shown and is enabled off the last page. */
    method Next()
      requires Valid() && ShowsPager() && page != totalPages
      modifies this
      ensures Valid() && page == Pager.NextPage(old(page), totalPages)
      ensures totalPages == old(totalPages) && dues == old(dues)
    {
      page := if totalPages < page + 1 then totalPages else page + 1;
    }

    /** The edit button toggles which record is being edited. */
    method ToggleEditing(id: string)
      modifies this
      ensures editingId == if old(editingId) == Some(id) then None else Some(id)
      ensures dues == old(dues) && page == old(page)
    {
      editingId := if editingId == Some(id) then None else Some(id);
    }
  }
}
