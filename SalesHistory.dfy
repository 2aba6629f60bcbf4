/**
 * The owner's sales-history page: one page of sale transactions fetched for a date period, the
 * list of staff who appear in it, the client-side staff filter, the revenue of what is shown,
 * and the page controls.
 */
module SalesHistory {
  import opened Wrappers
  import Js
  import Seqs
  import Pager

  /** A sale transaction; `staffName` is `staffId?.name`, absent when the record has no staff. */
  datatype Transaction = Transaction(mongoId: string, amount: int, staffName: Option<string>, createdAt: string)

  datatype PaginationData = PaginationData(total: int, page: int, limit: int, totalPages: int)

  /** The period the backend filters by. */
  datatype DateFilter = Today | Week | Month | AllTime

  // ---- staff list ----

  /** `transactions.map(t => t.staffId?.name).filter(Boolean)`. */
  function StaffNames(ts: seq<Transaction>): (names: seq<string>)
    ensures forall i :: 0 <= i < |names| ==> names[i] != ""
    ensures forall x :: x in names <==> x != "" && exists i :: 0 <= i < |ts| && ts[i].staffName == Some(x)
  {
    if ts == [] then []
    else
      var rest := StaffNames(ts[1..]);
      assert forall i :: 0 <= i < |ts| - 1 ==> ts[1..][i] == ts[i + 1];
      if Js.TruthyStr(ts[0].staffName) then [ts[0].staffName.value] + rest else rest
  }

  /** The index of the first occurrence of `x` in `s`. */
  function IndexOf(s: seq<string>, x: string): (k: nat)
    requires x in s
    ensures k < |s| && s[k] == x
    ensures forall j :: 0 <= j < k ==> s[j] != x
  {
    if s[0] == x then 0 else 1 + IndexOf(s[1..], x)
  }

  /** `Array.from(new Set(s))`: each value once, in the order it first appears. */
  function Dedup(s: seq<string>): (r: seq<string>)
    ensures forall i, j :: 0 <= i < j < |r| ==> r[i] != r[j]
    ensures forall x :: x in r <==> x in s
  {
    if s == [] then []
    else
      var d := Dedup(s[..|s| - 1]);
      assert s == s[..|s| - 1] + [s[|s| - 1]];
      if s[|s| - 1] in d then d else d + [s[|s| - 1]]
  }

  /** The distinct values keep the order of their first occurrences. */
  lemma {:induction false} DedupFirstOccurrenceOrder(s: seq<string>)
    ensures forall i, j :: 0 <= i < j < |Dedup(s)| ==> IndexOf(s, Dedup(s)[i]) < IndexOf(s, Dedup(s)[j])
  {
    if s != [] {
      var init, last := s[..|s| - 1], s[|s| - 1];
      DedupFirstOccurrenceOrder(init);
      var d := Dedup(init);
      assert s == init + [last];
      forall x | x in init
        ensures IndexOf(s, x) == IndexOf(init, x)
      {
        PrefixIndexOf(init, [last], x);
      }
      if last !in d {
        assert last !in init;
        var r := d + [last];
        forall i, j | 0 <= i < j < |r|
          ensures IndexOf(s, r[i]) < IndexOf(s, r[j])
        {
          if j == |r| - 1 {
            assert r[i] in init;
            assert IndexOf(s, r[j]) == |s| - 1;
          }
        }
      }
    }
  }

  lemma {:induction false} PrefixIndexOf(a: seq<string>, b: seq<string>, x: string)
    requires x in a
    ensures IndexOf(a + b, x) == IndexOf(a, x)
  {
    if a[0] != x {
      assert (a + b)[1..] == a[1..] + b;
      PrefixIndexOf(a[1..], b, x);
    }
  }

  /** `uniqueStaff`. */
  function UniqueStaff(ts: seq<Transaction>): (names: seq<string>)
    ensures forall i, j :: 0 <= i < j < |names| ==> names[i] != names[j]
    ensures forall x :: x in names <==> x != "" && exists i :: 0 <= i < |ts| && ts[i].staffName == Some(x)
  {
    Dedup(StaffNames(ts))
  }

  /**
   * The staff list names every non-empty staff name of the loaded transactions, once each, and
   * nothing else, in the order the names first appear.
   */
  lemma UniqueStaffExact(ts: seq<Transaction>)
    ensures forall x :: x in UniqueStaff(ts) <==> x != "" && exists i :: 0 <= i < |ts| && ts[i].staffName == Some(x)
    ensures forall i, j :: 0 <= i < j < |UniqueStaff(ts)| ==> UniqueStaff(ts)[i] != UniqueStaff(ts)[j]
    ensures forall i, j :: 0 <= i < j < |UniqueStaff(ts)| ==>
              IndexOf(StaffNames(ts), UniqueStaff(ts)[i]) < IndexOf(StaffNames(ts), UniqueStaff(ts)[j])
  {
    DedupFirstOccurrenceOrder(StaffNames(ts));
  }

  // ---- staff filter and revenue ----

  function SoldBy(name: string): Transaction -> bool {
    (t: Transaction) => t.staffName == Some(name)
  }

  /** `displayedTransactions`: everything for "all", otherwise the transactions of that staff member. */
  function Displayed(ts: seq<Transaction>, staffFilter: string): (r: seq<Transaction>)
    ensures staffFilter == "all" ==> r == ts
    ensures staffFilter != "all" ==> forall i :: 0 <= i < |r| ==> r[i].staffName == Some(staffFilter)
  {
    if staffFilter == "all" then ts
    else
      var r := Seqs.Filter(ts, SoldBy(staffFilter));
      assert forall i :: 0 <= i < |r| ==> SoldBy(staffFilter)(r[i]);
      r
  }

  /** A staff filter keeps every transaction of that staff member, as often as it occurs, and no other. */
  lemma DisplayedCounts(ts: seq<Transaction>, staffFilter: string, t: Transaction)
    requires staffFilter != "all"
    ensures multiset(Displayed(ts, staffFilter))[t] == if t.staffName == Some(staffFilter) then multiset(ts)[t] else 0
  {
    Seqs.FilterCount(ts, SoldBy(staffFilter), t);
  }

  /** `reduce((acc, t) => acc + t.amount, 0)`. */
  function TotalRevenue(ts: seq<Transaction>): (total: int)
    ensures (forall i :: 0 <= i < |ts| ==> ts[i].amount >= 0) ==> total >= 0
  {
    if ts == [] then 0 else ts[0].amount + TotalRevenue(ts[1..])
  }

  function NotSoldBy(name: string): Transaction -> bool {
    (t: Transaction) => t.staffName != Some(name)
  }

  /** One staff member's revenue and everyone else's add up to the page's revenue. */
  lemma {:induction false} RevenueSplitsByStaff(ts: seq<Transaction>, name: string)
    requires name != "all"
    ensures TotalRevenue(Displayed(ts, name)) + TotalRevenue(Seqs.Filter(ts, NotSoldBy(name))) == TotalRevenue(ts)
  {
    if ts != [] {
      RevenueSplitsByStaff(ts[1..], name);
      var t, rest := ts[0], ts[1..];
      var mine, others := Seqs.Filter(rest, SoldBy(name)), Seqs.Filter(rest, NotSoldBy(name));
      if t.staffName == Some(name) {
        assert Seqs.Filter(ts, SoldBy(name)) == [t] + mine;
        assert ([t] + mine)[1..] == mine;
        assert Seqs.Filter(ts, NotSoldBy(name)) == others;
      } else {
        assert Seqs.Filter(ts, NotSoldBy(name)) == [t] + others;
        assert ([t] + others)[1..] == others;
        assert Seqs.Filter(ts, SoldBy(name)) == mine;
      }
    }
  }

  /** The query sent for a page of history. */
  datatype HistoryRequest = HistoryRequest(page: int, limit: int, filter: DateFilter, kind: string)

  /** A successful response's transactions and pagination. */
  datatype HistoryPage = HistoryPage(transactions: seq<Transaction>, pagination: PaginationData)

  class SalesHistoryPage {
    var dateFilter: DateFilter
    var currentPage: int
    var staffFilter: string
    var transactions: seq<Transaction>
    var pagination: Option<PaginationData>
    var isLoading: bool

    predicate Valid()
      reads this
    {
      currentPage >= 1
    }

    constructor()
      ensures Valid()
      ensures dateFilter == Today && currentPage == 1 && staffFilter == "all"
      ensures transactions == [] && pagination == None && !isLoading
    {
      dateFilter, currentPage, staffFilter := Today, 1, "all";
      transactions, pagination, isLoading := [], None, false;
    }

    /** The request the fetch effect sends: fifty sales of the current page and period. */
    function Request(): HistoryRequest
      reads this
    {
      HistoryRequest(currentPage, 50, dateFilter, "SALE")
    }

    /** The fetch effect's outcome: a successful response replaces the list and the pagination. */
    method ApplyHistoryResponse(response: Option<HistoryPage>)
      modifies this
      ensures response.Some? ==> transactions == response.value.transactions && pagination == Some(response.value.pagination)
      ensures response.None? ==> transactions == old(transactions) && pagination == old(pagination)
      ensures !isLoading
      ensures dateFilter == old(dateFilter) && currentPage == old(currentPage) && staffFilter == old(staffFilter)
    {
      isLoading := true;
      if response.Some? {
        transactions := response.value.transactions;
        pagination := Some(response.value.pagination);
      }
      isLoading := false;
    }

    /** Choosing a period replaces it and returns to the first page. */
    method SetDateFilter(v: DateFilter)
      requires Valid()
      modifies this
      ensures Valid() && dateFilter == v && currentPage == 1
      ensures staffFilter == old(staffFilter) && transactions == old(transactions) && pagination == old(pagination)
    {
      dateFilter := v;
      currentPage := 1;
    }

    /** Choosing a staff member filters the loaded page only; the page number is kept. */
    method SetStaffFilter(v: string)
      requires Valid()
      modifies this
      ensures Valid() && staffFilter == v && currentPage == old(currentPage) && dateFilter == old(dateFilter)
      ensures transactions == old(transactions) && pagination == old(pagination)
    {
      staffFilter := v;
    }

    method Previous()
      requires Valid()
      modifies this
      ensures Valid() && currentPage == Pager.PreviousPage(old(currentPage))
      ensures dateFilter == old(dateFilter) && staffFilter == old(staffFilter)
    {
      currentPage := if currentPage - 1 > 1 then currentPage - 1 else 1;
    }

    method Next()
      requires Valid()
      modifies this
      ensures Valid() && currentPage == old(currentPage) + 1
      ensures dateFilter == old(dateFilter) && staffFilter == old(staffFilter)
    {
      currentPage := currentPage + 1;
    }

    /** The pager shows when the backend reports more than one page. */
    predicate ShowsPager()
      reads this
    {
      pagination.Some? && pagination.value.totalPages > 1
    }

    predicate PreviousDisabled()
      reads this
      requires pagination.Some?
    {
      pagination.value.page == 1
    }

    predicate NextDisabled()
      reads this
      requires pagination.Some?
    {
      pagination.value.page >= pagination.value.totalPages
    }
  }
}
