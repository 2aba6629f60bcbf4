/**
 * The recent-activity hook: a local copy of the sales list, the paid/due filter and the
 * date-or-amount sort that produce the displayed list, and the optimistic payment update that
 * rewrites the selected record.
 */
module RecentActivity {
  import opened Wrappers
  import Js
  import Seqs
  import Sorting

  /**
   * A sale record as the list holds it. Absent or NaN numbers are `None`; `createdAt` is the
   * record's time in milliseconds, `None` when the record has no (or an empty) date.
   */
  datatype Sale = Sale(
    id: Option<string>,
    mongoId: Option<string>,
    status: Option<string>,
    price: Option<real>,
    amount: Option<real>,
    createdAt: Option<int>,
    amountPaid: Option<real>,
    dueAmount: Option<real>,
    productName: string)

  datatype FilterOption = All | PaidOnly | DueOnly

  datatype SortOption = Newest | Oldest | HighAmount | LowAmount

  // ---- filter ----

  /** Status 'paid', or no status at all and a positive price or amount. */
  predicate IsPaid(s: Sale) {
    s.status == Some("paid") || (!Js.TruthyStr(s.status) && (Js.Positive(s.price) || Js.Positive(s.amount)))
  }

  predicate IsDue(s: Sale) {
    s.status == Some("due")
  }

  predicate Keeps(f: FilterOption, s: Sale) {
    match f
    case All => true
    case PaidOnly => IsPaid(s)
    case DueOnly => IsDue(s)
  }

  /** The filter step of `processedSales`: 'all' keeps the list, the others keep the records they accept. */
  function ApplyFilter(sales: seq<Sale>, f: FilterOption): (r: seq<Sale>)
    ensures f == All ==> r == sales
    ensures |r| <= |sales|
    ensures forall i :: 0 <= i < |r| ==> Keeps(f, r[i])
  {
    match f
    case All => sales
    case PaidOnly => Seqs.Filter(sales, IsPaid)
    case DueOnly => Seqs.Filter(sales, IsDue)
  }

  /** No record is both paid and due. */
  lemma PaidAndDueDisjoint(s: Sale)
    ensures !(IsPaid(s) && IsDue(s))
  {
  }

  /** The two filters do not cover the list: a record with no status, price or amount is in neither. */
  lemma FiltersDoNotCoverAll()
    ensures var s := Sale(Some("s1"), None, None, None, None, None, None, None, "Shirt");
      !IsPaid(s) && !IsDue(s) && ApplyFilter([s], PaidOnly) == [] && ApplyFilter([s], DueOnly) == []
  {
    var s := Sale(Some("s1"), None, None, None, None, None, None, None, "Shirt");
    assert Seqs.Filter([s], IsPaid) == [] + Seqs.Filter([s][1..], IsPaid);
    assert Seqs.Filter([s], IsDue) == [] + Seqs.Filter([s][1..], IsDue);
  }

  /** The filtered list keeps each record exactly as often as the list holds it, when the filter accepts it. */
  lemma FilterCounts(sales: seq<Sale>, f: FilterOption, x: Sale)
    ensures multiset(ApplyFilter(sales, f))[x] == if Keeps(f, x) then multiset(sales)[x] else 0
  {
    match f
    case All =>
    case PaidOnly => Seqs.FilterCount(sales, IsPaid, x);
    case DueOnly => Seqs.FilterCount(sales, IsDue, x);
  }

  // ---- sort ----

  /** `createdAt ? new Date(createdAt).getTime() : 0`. */
  function DateOf(s: Sale): int {
    if s.createdAt.Some? then s.createdAt.value else 0
  }

  /** `amount || price || 0`. */
  function AmountOf(s: Sale): real {
    Js.FirstTruthy(s.amount, s.price)
  }

  /** The comparator handed to `Array.prototype.sort`, as written for each option. */
  function Compare(a: Sale, b: Sale, opt: SortOption): real {
    match opt
    case Oldest => (DateOf(a) - DateOf(b)) as real
    case HighAmount => AmountOf(b) - AmountOf(a)
    case LowAmount => AmountOf(a) - AmountOf(b)
    case Newest => (DateOf(b) - DateOf(a)) as real
  }

  /** The key the comparator orders by, ascending: negated for newest-first and highest-first. */
  function SortKey(s: Sale, opt: SortOption): real {
    match opt
    case Oldest => DateOf(s) as real
    case HighAmount => -AmountOf(s)
    case LowAmount => AmountOf(s)
    case Newest => -(DateOf(s) as real)
  }

  /** Each comparator is the difference of the keys, so sorting with it sorts by the key. */
  lemma CompareIsKeyDifference(a: Sale, b: Sale, opt: SortOption)
    ensures Compare(a, b, opt) == SortKey(a, opt) - SortKey(b, opt)
    ensures Compare(a, b, opt) < 0.0 <==> SortKey(a, opt) < SortKey(b, opt)
    ensures Compare(a, b, opt) == -Compare(b, a, opt)
  {
  }

  /** The option's key as a function value. */
  function KeyOf(opt: SortOption): Sale -> real {
    s => SortKey(s, opt)
  }

  /**
   * `processedSales`: filter a copy of the list, then sort it. The comparator is the difference of
   * the option's keys and `Array.prototype.sort` is stable, so the result is the stable sort by key.
   */
  function Processed(sales: seq<Sale>, f: FilterOption, opt: SortOption): (r: seq<Sale>)
    ensures Sorting.SortedBy(r, KeyOf(opt))
    ensures multiset(r) == multiset(ApplyFilter(sales, f))
  {
    Sorting.SortBy(ApplyFilter(sales, f), KeyOf(opt))
  }

  /**
   * The displayed list is ordered by the option's key and holds each record the filter accepts
   * exactly as often as the list does, and no other.
   */
  lemma ProcessedContents(sales: seq<Sale>, f: FilterOption, opt: SortOption, x: Sale)
    ensures Sorting.SortedBy(Processed(sales, f, opt), KeyOf(opt))
    ensures multiset(Processed(sales, f, opt))[x] == if Keeps(f, x) then multiset(sales)[x] else 0
  {
    FilterCounts(sales, f, x);
  }

  /** Records with equal keys (the same date, or the same amount) keep the order the list gives them. */
  lemma ProcessedKeepsTies(sales: seq<Sale>, f: FilterOption, opt: SortOption, k: real)
    ensures Seqs.Filter(Processed(sales, f, opt), Sorting.KeyIs(KeyOf(opt), k))
            == Seqs.Filter(ApplyFilter(sales, f), Sorting.KeyIs(KeyOf(opt), k))
  {
    Sorting.SortByStable(ApplyFilter(sales, f), KeyOf(opt), k);
  }

  /** Newest first: dates never increase along the displayed list. */
  lemma NewestFirst(sales: seq<Sale>, f: FilterOption, i: int, j: int)
    requires 0 <= i < j < |Processed(sales, f, Newest)|
    ensures DateOf(Processed(sales, f, Newest)[i]) >= DateOf(Processed(sales, f, Newest)[j])
  {
    var r := Processed(sales, f, Newest);
    assert KeyOf(Newest)(r[i]) <= KeyOf(Newest)(r[j]);
  }

  /** Highest amount first: amounts never increase along the displayed list. */
  lemma HighestAmountFirst(sales: seq<Sale>, f: FilterOption, i: int, j: int)
    requires 0 <= i < j < |Processed(sales, f, HighAmount)|
    ensures AmountOf(Processed(sales, f, HighAmount)[i]) >= AmountOf(Processed(sales, f, HighAmount)[j])
  {
    var r := Processed(sales, f, HighAmount);
    assert KeyOf(HighAmount)(r[i]) <= KeyOf(HighAmount)(r[j]);
  }

  /** The "high amount" key is the negated "low amount" key. */
  lemma HighKeyNegatesLow()
    ensures forall x :: KeyOf(HighAmount)(x) == -KeyOf(LowAmount)(x)
  {
  }

  /** Different records of `s` have different amounts, so in any reordering the amount names the record. */
  lemma DistinctAmountsDetermine(s: seq<Sale>, t: seq<Sale>)
    requires multiset(t) == multiset(s)
    requires forall i, j :: 0 <= i < j < |s| ==> AmountOf(s[i]) != AmountOf(s[j])
    ensures Sorting.KeyDetermines(multiset(t), KeyOf(HighAmount))
  {
    forall x, y | x in multiset(t) && y in multiset(t) && KeyOf(HighAmount)(x) == KeyOf(HighAmount)(y)
      ensures x == y
    {
      assert x in multiset(s) && y in multiset(s);
      var i :| 0 <= i < |s| && s[i] == x;
      var j :| 0 <= j < |s| && s[j] == y;
      assert AmountOf(s[i]) == AmountOf(s[j]);
    }
  }

  /**
   * When the filtered records all have different amounts, "high amount" lists them in exactly the
   * reverse order of "low amount".
   */
  lemma HighLowReversed(sales: seq<Sale>, f: FilterOption)
    requires forall i, j :: 0 <= i < j < |ApplyFilter(sales, f)| ==>
               AmountOf(ApplyFilter(sales, f)[i]) != AmountOf(ApplyFilter(sales, f)[j])
    ensures Processed(sales, f, HighAmount) == Sorting.Reverse(Processed(sales, f, LowAmount))
  {
    var high, low := Processed(sales, f, HighAmount), Processed(sales, f, LowAmount);
    HighKeyNegatesLow();
    Sorting.ReverseSortedBy(low, KeyOf(LowAmount), KeyOf(HighAmount));
    Sorting.ReversePermutes(low);
    DistinctAmountsDetermine(ApplyFilter(sales, f), high);
    Sorting.SortedPermutationUnique(high, Sorting.Reverse(low), KeyOf(HighAmount));
  }

  // ---- payment update ----

  /** `price || amount || 0`: the total a payment is set against (note the order, unlike `AmountOf`). */
  function TotalOf(s: Sale): real {
    Js.FirstTruthy(s.price, s.amount)
  }

  /**
   * The record after a payment: the paid amount grows by `amount`, the due is what the new paid
   * amount leaves of the total (never negative), and the status says whether anything is due.
   */
  function PaidUpdate(sale: Sale, amount: real): (r: Sale)
    ensures r.amountPaid == Some(Js.OrZero(sale.amountPaid) + amount)
    ensures r.dueAmount.Some? && r.dueAmount.value >= 0.0
    ensures r.dueAmount.value == 0.0 || r.dueAmount.value == TotalOf(sale) - r.amountPaid.value
    ensures r.dueAmount.value >= TotalOf(sale) - r.amountPaid.value
    ensures r.status == Some("paid") <==> r.dueAmount.value == 0.0
    ensures r.status == Some("paid") || r.status == Some("due")
    ensures r.id == sale.id && r.mongoId == sale.mongoId && r.price == sale.price && r.amount == sale.amount
    ensures r.createdAt == sale.createdAt && r.productName == sale.productName
  {
    var newPaid := Js.OrZero(sale.amountPaid) + amount;
    var total := TotalOf(sale);
    var newDue := if total - newPaid > 0.0 then total - newPaid else 0.0;
    sale.(amountPaid := Some(newPaid), dueAmount := Some(newDue), status := Some(if newDue <= 0.0 then "paid" else "due"))
  }

  /** A payment that covers the total moves the record to the paid filter; a smaller one keeps it due. */
  lemma PaymentSettles(sale: Sale, amount: real)
    ensures Js.OrZero(sale.amountPaid) + amount >= TotalOf(sale) ==>
              IsPaid(PaidUpdate(sale, amount)) && !IsDue(PaidUpdate(sale, amount))
    ensures Js.OrZero(sale.amountPaid) + amount < TotalOf(sale) ==>
              && IsDue(PaidUpdate(sale, amount)) && !IsPaid(PaidUpdate(sale, amount))
              && PaidUpdate(sale, amount).dueAmount == Some(TotalOf(sale) - Js.OrZero(sale.amountPaid) - amount)
  {
  }

  /**
   * The identity test as written: `sale.id === selected.id || sale._id === selected.id`. Two absent
   * ids compare equal, so when the selected record has no `id` every record without one matches.
   */
  predicate MatchesAsWritten(sale: Sale, selected: Sale) {
    sale.id == selected.id || sale.mongoId == selected.id
  }

  /** The selected record's key: its `id`, or its Mongo `_id` when it has no `id`. */
  function SelectedKey(selected: Sale): Option<string> {
    if selected.id.Some? then selected.id else selected.mongoId
  }

  /** The identity test as intended: a present key equal to the record's `id` or `_id`. */
  predicate Matches(sale: Sale, selected: Sale) {
    SelectedKey(selected).Some? && (sale.id == SelectedKey(selected) || sale.mongoId == SelectedKey(selected))
  }

  /** The two tests agree whenever the selected record carries an `id`. */
  lemma MatchesAgreesWhenIdPresent(sale: Sale, selected: Sale)
    requires selected.id.Some?
    ensures Matches(sale, selected) <==> MatchesAsWritten(sale, selected)
  {
  }

  /** A record always matches itself when it has any key, under the intended test. */
  lemma SelectedMatchesItself(selected: Sale)
    requires selected.id.Some? || selected.mongoId.Some?
    ensures Matches(selected, selected)
  {
  }

  /** `localSales.map(...)` with the given identity test. */
  function MapPayment(sales: seq<Sale>, selected: Sale, amount: real, intended: bool): (r: seq<Sale>)
    ensures |r| == |sales|
    ensures forall i :: 0 <= i < |sales| ==>
              r[i] == if (if intended then Matches(sales[i], selected) else MatchesAsWritten(sales[i], selected))
                      then PaidUpdate(sales[i], amount) else sales[i]
  {
    if sales == [] then []
    else
      var head := if (if intended then Matches(sales[0], selected) else MatchesAsWritten(sales[0], selected))
                  then PaidUpdate(sales[0], amount) else sales[0];
      [head] + MapPayment(sales[1..], selected, amount, intended)
  }

  function ApplyPaymentAsWritten(sales: seq<Sale>, selected: Sale, amount: real): seq<Sale> {
    MapPayment(sales, selected, amount, false)
  }

  /** The optimistic update: every record matching the selection is paid, every other record is kept. */
  function ApplyPayment(sales: seq<Sale>, selected: Sale, amount: real): seq<Sale> {
    MapPayment(sales, selected, amount, true)
  }

  /** When record `j` is the only match, the update rewrites it and nothing else. */
  lemma ApplyPaymentRewritesOne(sales: seq<Sale>, selected: Sale, amount: real, j: int)
    requires 0 <= j < |sales| && Matches(sales[j], selected)
    requires forall i :: 0 <= i < |sales| && i != j ==> !Matches(sales[i], selected)
    ensures |ApplyPayment(sales, selected, amount)| == |sales|
    ensures ApplyPayment(sales, selected, amount)[j] == PaidUpdate(sales[j], amount)
    ensures forall i :: 0 <= i < |sales| && i != j ==> ApplyPayment(sales, selected, amount)[i] == sales[i]
  {
  }

  /** Whenever the selected record has an `id`, the corrected update and the written one give the same list. */
  lemma ApplyPaymentAgreesWhenIdPresent(sales: seq<Sale>, selected: Sale, amount: real)
    requires selected.id.Some?
    ensures ApplyPayment(sales, selected, amount) == ApplyPaymentAsWritten(sales, selected, amount)
  {
  }

  /**
   * As written, when the selected record has no `id`, every record without an `id` matches and is
   * paid, whatever its `_id`.
   */
  lemma MissingIdPaysEveryRecord(sales: seq<Sale>, selected: Sale, amount: real, i: int)
    requires selected.id.None? && 0 <= i < |sales| && sales[i].id.None?
    ensures ApplyPaymentAsWritten(sales, selected, amount)[i] == PaidUpdate(sales[i], amount)
  {
  }

  /**
   * Two records that carry only a Mongo `_id`: paying against the first one, as written, also pays
   * the second; the intended test pays the first alone.
   */
  lemma MissingIdTwoRecords()
    ensures var a := Sale(None, Some("a1"), Some("due"), Some(600.0), None, None, Some(0.0), Some(600.0), "Saree");
      var b := Sale(None, Some("b2"), Some("due"), Some(900.0), None, None, Some(0.0), Some(900.0), "Lehenga");
      && ApplyPaymentAsWritten([a, b], a, 100.0)[1] != b
      && ApplyPayment([a, b], a, 100.0)[1] == b
      && ApplyPayment([a, b], a, 100.0)[0] == PaidUpdate(a, 100.0)
  {
    var a := Sale(None, Some("a1"), Some("due"), Some(600.0), None, None, Some(0.0), Some(600.0), "Saree");
    var b := Sale(None, Some("b2"), Some("due"), Some(900.0), None, None, Some(0.0), Some(900.0), "Lehenga");
    MissingIdPaysEveryRecord([a, b], a, 100.0, 1);
    assert PaidUpdate(b, 100.0).amountPaid == Some(100.0);
    assert !Matches(b, a);
  }

  /** The hook's state: the local copy of the sales, the filter and sort choices and the selection. */
  class ActivityState {
    var localSales: seq<Sale>
    var activeFilter: FilterOption
    var sortOption: SortOption
    var selectedSale: Option<Sale>
    var isUpdating: bool

    constructor()
      ensures localSales == [] && activeFilter == All && sortOption == Newest
      ensures selectedSale == None && !isUpdating
    {
      localSales, activeFilter, sortOption := [], All, Newest;
      selectedSale, isUpdating := None, false;
    }

    /** The list shown: a function of the state, computed on a copy, so reading it changes nothing. */
    function ProcessedSales(): seq<Sale>
      reads this
    {
      Processed(localSales, activeFilter, sortOption)
    }

    /** The effect that copies the incoming list whenever it is present. */
    method SyncInitialSales(initialSales: Option<seq<Sale>>)
      modifies this`localSales
      ensures localSales == if initialSales.Some? then initialSales.value else old(localSales)
    {
      if initialSales.Some? {
        localSales := initialSales.value;
      }
    }

    method SetActiveFilter(f: FilterOption)
      modifies this`activeFilter
      ensures activeFilter == f
    {
      activeFilter := f;
    }

    method SetSortOption(opt: SortOption)
      modifies this`sortOption
      ensures sortOption == opt
    {
      sortOption := opt;
    }

    method SetSelectedSale(s: Option<Sale>)
      modifies this`selectedSale
      ensures selectedSale == s
    {
      selectedSale := s;
    }

    /**
     * `updatePayment`: with nothing selected nothing changes; otherwise the selected record is paid
     * in the local list, the update flag drops and the selection is cleared.
     */
    method UpdatePayment(amount: real)
      modifies this
      ensures old(selectedSale).None? ==>
                localSales == old(localSales) && selectedSale == old(selectedSale) && isUpdating == old(isUpdating)
      ensures old(selectedSale).Some? ==>
                && localSales == ApplyPayment(old(localSales), old(selectedSale).value, amount)
                && selectedSale == None && !isUpdating
      ensures old(selectedSale).Some? && old(selectedSale).value.id.Some? ==>
                localSales == ApplyPaymentAsWritten(old(localSales), old(selectedSale).value, amount)
      ensures activeFilter == old(activeFilter) && sortOption == old(sortOption)
    {
      if selectedSale.None? {
        return;
      }
      isUpdating := true;
      if selectedSale.value.id.Some? {
        ApplyPaymentAgreesWhenIdPresent(localSales, selectedSale.value, amount);
      }
      localSales := ApplyPayment(localSales, selectedSale.value, amount);
      isUpdating := false;
      selectedSale := None;
    }
  }
}
