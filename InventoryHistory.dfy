/**
 * The owner's inventory-history page: a fixed log of purchases and expenses, filtered by type and
 * by a case-insensitive search of the description, shown ten entries to a page with purchase and
 * expense totals over the filtered log.
 */
module InventoryHistory {
  import Js
  import Seqs

  datatype EntryType = Purchase | Expense

  datatype InventoryEntry = InventoryEntry(id: string, description: string, amount: int, date: string, kind: EntryType)

  /** The type selector: every type, or one of them. */
  datatype TypeFilter = AllTypes | OnlyType(kind: EntryType)

  const ItemsPerPage: nat := 10

  /** The page's log: the four entries of the shared mock log followed by six more. */
  const AllInventory: seq<InventoryEntry> := [
    InventoryEntry("1", "Bulk Purchase from Party A - Sherwanis", 50000, "2024-01-15", Purchase),
    InventoryEntry("2", "Saree Collection from Varanasi Supplier", 35000, "2024-01-12", Purchase),
    InventoryEntry("3", "Kids Wear from Delhi Market", 15000, "2024-01-10", Purchase),
    InventoryEntry("4", "Shop Maintenance", 5000, "2024-01-08", Expense),
    InventoryEntry("5", "Staff Salary - January", 25000, "2024-01-05", Expense),
    InventoryEntry("6", "Kurta Collection from Lucknow", 45000, "2024-01-03", Purchase),
    InventoryEntry("7", "Electricity Bill", 3500, "2024-01-01", Expense),
    InventoryEntry("8", "Lehenga Set from Mumbai", 80000, "2023-12-28", Purchase),
    InventoryEntry("9", "Shop Decoration", 8000, "2023-12-25", Expense),
    InventoryEntry("10", "Winter Collection from Delhi", 55000, "2023-12-20", Purchase)
  ]

  // ---- filtering ----

  function OfType(kind: EntryType): InventoryEntry -> bool {
    (e: InventoryEntry) => e.kind == kind
  }

  /** The description, lower-cased, contains the query, lower-cased (the query is not trimmed). */
  predicate MatchesSearch(e: InventoryEntry, query: string) {
    Js.Includes(Js.ToLower(e.description), Js.ToLower(query))
  }

  function Mentions(query: string): InventoryEntry -> bool {
    (e: InventoryEntry) => MatchesSearch(e, query)
  }

  function ApplyType(entries: seq<InventoryEntry>, filter: TypeFilter): (r: seq<InventoryEntry>)
    ensures |r| <= |entries|
    ensures filter.OnlyType? ==> forall i :: 0 <= i < |r| ==> r[i].kind == filter.kind
  {
    if filter.OnlyType? then Seqs.Filter(entries, OfType(filter.kind)) else entries
  }

  /** `filteredInventory`: the type filter, then the search when the query is not blank. */
  function FilterInventory(entries: seq<InventoryEntry>, filter: TypeFilter, query: string): (r: seq<InventoryEntry>)
    ensures |r| <= |entries|
    ensures filter.OnlyType? ==> forall i :: 0 <= i < |r| ==> r[i].kind == filter.kind
    ensures !Js.IsBlank(query) ==> forall i :: 0 <= i < |r| ==> MatchesSearch(r[i], query)
  {
    var byType := ApplyType(entries, filter);
    Js.TrimEmptyIffBlank(query);
    if Js.Trim(query) != [] then
      var r := Seqs.Filter(byType, Mentions(query));
      assert forall i :: 0 <= i < |r| ==> Mentions(query)(r[i]);
      if filter.OnlyType? then
        Seqs.FilterPreserves(byType, Mentions(query), OfType(filter.kind));
        r
      else r
    else byType
  }

  /** A blank or white-space-only query applies no search. */
  lemma BlankQuerySearchesNothing(entries: seq<InventoryEntry>, filter: TypeFilter, query: string)
    requires Js.IsBlank(query)
    ensures FilterInventory(entries, filter, query) == ApplyType(entries, filter)
  {
    Js.TrimEmptyIffBlank(query);
  }

  /**
   * The filtered log holds each entry exactly as often as the log does when it has the selected
   * type and (for a non-blank query) mentions the query, and otherwise not at all.
   */
  lemma FilterInventoryCounts(entries: seq<InventoryEntry>, filter: TypeFilter, query: string, x: InventoryEntry)
    ensures multiset(FilterInventory(entries, filter, query))[x]
            == if (filter.OnlyType? ==> x.kind == filter.kind) && (Js.IsBlank(query) || MatchesSearch(x, query))
               then multiset(entries)[x] else 0
  {
    Js.TrimEmptyIffBlank(query);
    if filter.OnlyType? {
      Seqs.FilterCount(entries, OfType(filter.kind), x);
    }
    if !Js.IsBlank(query) {
      Seqs.FilterCount(ApplyType(entries, filter), Mentions(query), x);
    }
  }

  // ---- pagination ----

  /** `Math.ceil(n / ITEMS_PER_PAGE)`. */
  function TotalPages(n: nat): (pages: nat)
    ensures pages * ItemsPerPage >= n
    ensures pages == 0 || (pages - 1) * ItemsPerPage < n
  {
    (n + ItemsPerPage - 1) / ItemsPerPage
  }

  /** `slice((page - 1) * ITEMS_PER_PAGE, page * ITEMS_PER_PAGE)`. */
  function PageOf<T>(entries: seq<T>, page: int): (r: seq<T>)
    ensures |r| <= ItemsPerPage
  {
    Js.Slice(entries, (page - 1) * ItemsPerPage, page * ItemsPerPage)
  }

  function Min(a: int, b: int): int {
    if a < b then a else b
  }

  /** A page from 1 on is the contiguous window of the list that starts at `(page - 1) * 10`. */
  lemma PageWindow<T>(entries: seq<T>, page: int)
    requires page >= 1
    ensures PageOf(entries, page)
            == entries[Min((page - 1) * ItemsPerPage, |entries|)..Min(page * ItemsPerPage, |entries|)]
  {
    Js.SliceInRange(entries, (page - 1) * ItemsPerPage, page * ItemsPerPage);
  }

  /** A page from 1 on has entries exactly when it is one of the `TotalPages` pages. */
  lemma PageNonEmptyIff<T>(entries: seq<T>, page: int)
    requires page >= 1
    ensures PageOf(entries, page) != [] <==> page <= TotalPages(|entries|)
  {
    PageWindow(entries, page);
  }

  /** Pages 1 to k, one after another. */
  function FirstPages<T>(entries: seq<T>, k: nat): seq<T> {
    if k == 0 then [] else FirstPages(entries, k - 1) + PageOf(entries, k)
  }

  lemma {:induction false} FirstPagesArePrefix<T>(entries: seq<T>, k: nat)
    ensures FirstPages(entries, k) == entries[..Min(k * ItemsPerPage, |entries|)]
  {
    if k > 0 {
      FirstPagesArePrefix(entries, k - 1);
      PageWindow(entries, k);
      var a, b := Min((k - 1) * ItemsPerPage, |entries|), Min(k * ItemsPerPage, |entries|);
      assert entries[..a] + entries[a..b] == entries[..b];
    }
  }

  /** The pages, read in order, give back the whole filtered list: nothing is skipped or repeated. */
  lemma PagesCoverList<T>(entries: seq<T>)
    ensures FirstPages(entries, TotalPages(|entries|)) == entries
  {
    FirstPagesArePrefix(entries, TotalPages(|entries|));
  }

  /** The numbers in "Showing x to y of n". */
  function ShowingFrom(page: int): int {
    (page - 1) * ItemsPerPage + 1
  }

  function ShowingTo(page: int, n: nat): int {
    Min(page * ItemsPerPage, n)
  }

  /** On any existing page, "Showing x to y" names exactly the entries on that page, by position from 1. */
  lemma ShowingMatchesPage<T>(entries: seq<T>, page: int)
    requires 1 <= page <= TotalPages(|entries|)
    ensures 1 <= ShowingFrom(page) <= ShowingTo(page, |entries|) <= |entries|
    ensures |PageOf(entries, page)| == ShowingTo(page, |entries|) - ShowingFrom(page) + 1
    ensures PageOf(entries, page)[0] == entries[ShowingFrom(page) - 1]
  {
    PageWindow(entries, page);
  }

  /** The pager is shown when there is more than one page, that is for more than ten entries. */
  lemma PagerShownIff(n: nat)
    ensures TotalPages(n) > 1 <==> n > ItemsPerPage
  {
  }

  // ---- totals ----

  function SumAmounts(entries: seq<InventoryEntry>): int {
    if entries == [] then 0 else entries[0].amount + SumAmounts(entries[1..])
  }

  function TotalPurchases(entries: seq<InventoryEntry>): int {
    SumAmounts(Seqs.Filter(entries, OfType(Purchase)))
  }

  function TotalExpenses(entries: seq<InventoryEntry>): int {
    SumAmounts(Seqs.Filter(entries, OfType(Expense)))
  }

  /** Every entry is a purchase or an expense, so the two totals split the sum of the amounts. */
  lemma {:induction false} TotalsSplitSum(entries: seq<InventoryEntry>)
    ensures TotalPurchases(entries) + TotalExpenses(entries) == SumAmounts(entries)
  {
    if entries != [] {
      TotalsSplitSum(entries[1..]);
      var e, rest := entries[0], entries[1..];
      var purchases, expenses := Seqs.Filter(rest, OfType(Purchase)), Seqs.Filter(rest, OfType(Expense));
      if e.kind == Purchase {
        assert Seqs.Filter(entries, OfType(Purchase)) == [e] + purchases;
        assert ([e] + purchases)[1..] == purchases;
        assert Seqs.Filter(entries, OfType(Expense)) == expenses;
      } else {
        assert Seqs.Filter(entries, OfType(Expense)) == [e] + expenses;
        assert ([e] + expenses)[1..] == expenses;
        assert Seqs.Filter(entries, OfType(Purchase)) == purchases;
      }
    }
  }

  /** With the type filter on purchases, the expense total is zero. */
  lemma PurchasesOnlyHasNoExpenses(entries: seq<InventoryEntry>, query: string)
    ensures TotalExpenses(FilterInventory(entries, OnlyType(Purchase), query)) == 0
    ensures TotalPurchases(FilterInventory(entries, OnlyType(Purchase), query))
            == SumAmounts(FilterInventory(entries, OnlyType(Purchase), query))
  {
    var r := FilterInventory(entries, OnlyType(Purchase), query);
    Seqs.FilterKeepsNone(r, OfType(Expense));
    TotalsSplitSum(r);
  }

  /** The page's own log: ten entries, so a single page and no pager. */
  lemma InitialLogFitsOnePage()
    ensures |AllInventory| == 10 && TotalPages(|AllInventory|) == 1
    ensures PageOf(AllInventory, 1) == AllInventory
  {
    PageWindow(AllInventory, 1);
  }

  /** The page's state: the query, the type selection and the page number. */
  class InventoryHistoryPage {
    var searchQuery: string
    var typeFilter: TypeFilter
    var currentPage: int

    constructor()
      ensures searchQuery == "" && typeFilter == AllTypes && currentPage == 1
    {
      searchQuery, typeFilter, currentPage := "", AllTypes, 1;
    }

    function Filtered(): seq<InventoryEntry>
      reads this
    {
      FilterInventory(AllInventory, typeFilter, searchQuery)
    }

    function Paginated(): seq<InventoryEntry>
      reads this
    {
      PageOf(Filtered(), currentPage)
    }

    /** Typing in the search box replaces the query and returns to the first page. */
    method SetSearchQuery(query: string)
      modifies this
      ensures searchQuery == query && currentPage == 1 && typeFilter == old(typeFilter)
    {
      searchQuery := query;
      currentPage := 1;
    }

    /** Choosing a type replaces the selection and returns to the first page. */
    method SetTypeFilter(filter: TypeFilter)
      modifies this
      ensures typeFilter == filter && currentPage == 1 && searchQuery == old(searchQuery)
    {
      typeFilter := filter;
      currentPage := 1;
    }

    /** A numbered page button. */
    method GoToPage(page: int)
      modifies this
      ensures currentPage == page && searchQuery == old(searchQuery) && typeFilter == old(typeFilter)
    {
      currentPage := page;
    }
  }
}
