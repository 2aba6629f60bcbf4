/**
 * The sale-recording hook: the selected product, the full-or-due payment tab, the amount paid now,
 * the customer fields, and `submitSale`, which validates the form and builds the ordered list of
 * payment entries posted to the backend.
 */
module RecordSale {
  import opened Wrappers
  import opened Domain
  import Js
  import Seqs

  datatype PaymentTab = FullTab | DueTab

  /** A product as returned by the product search. */
  datatype Product = Product(id: string, name: string, price: real, stockStatus: string)

  /** The customer a due is recorded against. */
  datatype DuesDetails = DuesDetails(name: string, phoneNumber: string, dueDate: string)

  /** A payment entry is either an amount paid now in some mode, or the remaining due. */
  datatype EntryKind = PaidNow(mode: PaymentMode) | Dues

  datatype PaymentEntry = PaymentEntry(kind: EntryKind, amount: real, duesDetails: Option<DuesDetails>)

  /** The validation errors `submitSale` reports instead of posting. */
  datatype SaleError =
    | NoProductSelected
    | PayingMoreThanPrice
    | NegativePayment
    | MissingCustomerDetails
    | PhoneNotTenDigits

  /**
   * The form state `submitSale` reads. `partialAmount` is the amount-paid-now field as
   * `parseFloat` reads it (`None` for NaN: an empty or unreadable field).
   */
  datatype SaleForm = SaleForm(
    product: Option<Product>,
    tab: PaymentTab,
    mode: PaymentMode,
    partialAmount: Option<real>,
    customerName: string,
    customerPhone: string,
    dueDate: string)

  /** `selectedProduct?.price || 0`. */
  function TotalAmount(product: Option<Product>): (total: real)
    ensures product.None? ==> total == 0.0
    ensures product.Some? ==> total == product.value.price
  {
    if product.Some? then product.value.price else 0.0
  }

  /** `parseFloat(partialAmount) || 0`. */
  function PayingNow(partialAmount: Option<real>): (paying: real)
    ensures partialAmount.None? ==> paying == 0.0
    ensures partialAmount.Some? ==> paying == partialAmount.value
  {
    Js.OrZero(partialAmount)
  }

  /** `Math.max(0, totalAmount - payingNow)`. */
  function DueRemaining(total: real, paying: real): (due: real)
    ensures due >= 0.0 && due >= total - paying
    ensures due == 0.0 || due == total - paying
  {
    if total - paying > 0.0 then total - paying else 0.0
  }

  /** What is paid now and what stays due add up to the price whenever the amount paid now is in range. */
  lemma PaidPlusDueIsTotal(total: real, paying: real)
    requires 0.0 <= paying <= total
    ensures paying + DueRemaining(total, paying) == total
    ensures DueRemaining(total, paying) == 0.0 <==> paying == total
  {
  }

  function SumAmounts(entries: seq<PaymentEntry>): real {
    if entries == [] then 0.0 else entries[0].amount + SumAmounts(entries[1..])
  }

  lemma {:induction false} SumAmountsAppend(a: seq<PaymentEntry>, b: seq<PaymentEntry>)
    ensures SumAmounts(a + b) == SumAmounts(a) + SumAmounts(b)
  {
    if a == [] {
      assert a + b == b;
    } else {
      assert (a + b)[0] == a[0];
      assert (a + b)[1..] == a[1..] + b;
      SumAmountsAppend(a[1..], b);
    }
  }

  /**
   * The due-tab checks, in the order the hook makes them. `rejectNegative` adds the range check
   * the hook leaves out (see `NegativeDownPaymentOvercharges`).
   */
  function CheckDueTab(f: SaleForm, total: real, paying: real, rejectNegative: bool): Option<SaleError> {
    if paying > total then Some(PayingMoreThanPrice)
    else if rejectNegative && paying < 0.0 then Some(NegativePayment)
    else if f.customerName == "" || f.customerPhone == "" || f.dueDate == "" then Some(MissingCustomerDetails)
    else if Js.Utf16Length(f.customerPhone) != 10 then Some(PhoneNotTenDigits)
    else None
  }

  /** The entries of a valid due-tab sale: the down payment if any, then the due if any. */
  function DueEntries(f: SaleForm, paying: real, due: real): seq<PaymentEntry> {
    (if paying > 0.0 then [PaymentEntry(PaidNow(f.mode), paying, None)] else [])
    + (if due > 0.0 then [PaymentEntry(Dues, due, Some(DuesDetails(f.customerName, f.customerPhone, f.dueDate)))] else [])
  }

  lemma DueEntriesSum(f: SaleForm, paying: real, due: real)
    ensures SumAmounts(DueEntries(f, paying, due))
            == (if paying > 0.0 then paying else 0.0) + (if due > 0.0 then due else 0.0)
  {
    SumAmountsAppend(
      if paying > 0.0 then [PaymentEntry(PaidNow(f.mode), paying, None)] else [],
      if due > 0.0 then [PaymentEntry(Dues, due, Some(DuesDetails(f.customerName, f.customerPhone, f.dueDate)))] else []);
  }

  function Plan(f: SaleForm, rejectNegative: bool): Result<seq<PaymentEntry>, SaleError> {
    if f.product.None? then Err(NoProductSelected)
    else
      var total := TotalAmount(f.product);
      var paying := PayingNow(f.partialAmount);
      if f.tab == FullTab then Ok([PaymentEntry(PaidNow(f.mode), total, None)])
      else
        match CheckDueTab(f, total, paying, rejectNegative)
        case Some(e) => Err(e)
        case None => Ok(DueEntries(f, paying, DueRemaining(total, paying)))
  }

  /** `submitSale`'s validation and payment list exactly as the hook writes them. */
  function PaymentPlanAsWritten(f: SaleForm): (r: Result<seq<PaymentEntry>, SaleError>)
    ensures f.product.None? ==> r == Err(NoProductSelected)
    ensures r.Ok? && PayingNow(f.partialAmount) >= 0.0 ==> SumAmounts(r.value) == TotalAmount(f.product)
    ensures r.Ok? ==> forall i :: 0 <= i < |r.value| && r.value[i].kind == Dues ==>
              && r.value[i].duesDetails.Some?
              && r.value[i].duesDetails.value.name != ""
              && Js.Utf16Length(r.value[i].duesDetails.value.phoneNumber) == 10
  {
    var paying := PayingNow(f.partialAmount);
    DueEntriesSum(f, paying, DueRemaining(TotalAmount(f.product), paying));
    Plan(f, false)
  }

  /** `submitSale`'s validation and payment list, with a negative amount paid now rejected. */
  function PaymentPlan(f: SaleForm): (r: Result<seq<PaymentEntry>, SaleError>)
    ensures f.product.None? ==> r == Err(NoProductSelected)
    ensures r.Ok? ==> SumAmounts(r.value) == TotalAmount(f.product)
    ensures r.Ok? ==> forall i :: 0 <= i < |r.value| && r.value[i].kind == Dues ==>
              && r.value[i].duesDetails.Some?
              && r.value[i].duesDetails.value.name != ""
              && Js.Utf16Length(r.value[i].duesDetails.value.phoneNumber) == 10
  {
    var paying := PayingNow(f.partialAmount);
    DueEntriesSum(f, paying, DueRemaining(TotalAmount(f.product), paying));
    Plan(f, true)
  }

  /** On the full tab the payload is one entry for the whole price in the chosen mode. */
  lemma PlanFullTab(f: SaleForm)
    requires f.product.Some? && f.tab == FullTab
    ensures PaymentPlan(f) == Ok([PaymentEntry(PaidNow(f.mode), f.product.value.price, None)])
  {
  }

  /** On the due tab the sale is rejected exactly when one of the checks fails, in this order of precedence. */
  lemma PlanDueRejections(f: SaleForm)
    requires f.product.Some? && f.tab == DueTab
    ensures var total, paying := TotalAmount(f.product), PayingNow(f.partialAmount);
      && (paying > total ==> PaymentPlan(f) == Err(PayingMoreThanPrice))
      && (paying <= total && paying < 0.0 ==> PaymentPlan(f) == Err(NegativePayment))
      && (0.0 <= paying <= total && (f.customerName == "" || f.customerPhone == "" || f.dueDate == "")
          ==> PaymentPlan(f) == Err(MissingCustomerDetails))
      && ((0.0 <= paying <= total && f.customerName != "" && f.customerPhone != "" && f.dueDate != ""
           && Js.Utf16Length(f.customerPhone) != 10) ==> PaymentPlan(f) == Err(PhoneNotTenDigits))
      && (PaymentPlan(f).Ok? <==>
          0.0 <= paying <= total && f.customerName != "" && f.dueDate != "" && Js.Utf16Length(f.customerPhone) == 10)
  {
  }

  /** A due-tab form that passes the hook's checks gets the down payment and due entries. */
  lemma DueTabAccepted(f: SaleForm, rejectNegative: bool)
    requires f.product.Some? && f.tab == DueTab
    requires (if rejectNegative then 0.0 else PayingNow(f.partialAmount)) <= PayingNow(f.partialAmount) <= f.product.value.price
    requires f.customerName != "" && f.dueDate != "" && Js.Utf16Length(f.customerPhone) == 10
    ensures Plan(f, rejectNegative)
            == Ok(DueEntries(f, PayingNow(f.partialAmount), DueRemaining(f.product.value.price, PayingNow(f.partialAmount))))
  {
  }

  /**
   * As written, any negative amount paid now on an otherwise valid due-tab form passes: the payload
   * is a single DUES entry for more than the price. The corrected plan rejects it.
   */
  lemma NegativeDownPaymentPasses(f: SaleForm)
    requires f.product.Some? && f.product.value.price >= 0.0 && f.tab == DueTab
    requires f.partialAmount.Some? && f.partialAmount.value < 0.0
    requires f.customerName != "" && f.dueDate != "" && Js.Utf16Length(f.customerPhone) == 10
    ensures var due := f.product.value.price - f.partialAmount.value;
      && PaymentPlanAsWritten(f) == Ok([PaymentEntry(Dues, due, Some(DuesDetails(f.customerName, f.customerPhone, f.dueDate)))])
      && SumAmounts(PaymentPlanAsWritten(f).value) == due > TotalAmount(f.product)
      && PaymentPlan(f) == Err(NegativePayment)
  {
    var paying, due := f.partialAmount.value, f.product.value.price - f.partialAmount.value;
    DueTabAccepted(f, false);
    PlanDueRejections(f);
    assert DueRemaining(f.product.value.price, paying) == due;
    assert DueEntries(f, paying, due) == [PaymentEntry(Dues, due, Some(DuesDetails(f.customerName, f.customerPhone, f.dueDate)))];
  }

  /** On a valid due-tab form with part of the price paid now, the payload is that part in the chosen mode, then the rest as due. */
  lemma PartialPaymentSplits(f: SaleForm)
    requires f.product.Some? && f.tab == DueTab
    requires f.partialAmount.Some? && 0.0 < f.partialAmount.value < f.product.value.price
    requires f.customerName != "" && f.dueDate != "" && Js.Utf16Length(f.customerPhone) == 10
    ensures var paying := f.partialAmount.value;
      PaymentPlan(f) == Ok([PaymentEntry(PaidNow(f.mode), paying, None),
                            PaymentEntry(Dues, f.product.value.price - paying, Some(DuesDetails(f.customerName, f.customerPhone, f.dueDate)))])
  {
    var paying := f.partialAmount.value;
    DueTabAccepted(f, true);
    assert DueRemaining(f.product.value.price, paying) == f.product.value.price - paying;
    assert PaymentPlan(f) == Plan(f, true);
    assert DueEntries(f, paying, f.product.value.price - paying)
        == [PaymentEntry(PaidNow(f.mode), paying, None),
            PaymentEntry(Dues, f.product.value.price - paying, Some(DuesDetails(f.customerName, f.customerPhone, f.dueDate)))];
  }

  /** The phone of the worked examples is ten UTF-16 units long. */
  lemma ExamplePhoneLength()
    ensures Js.Utf16Length("9876543210") == 10
  {
    var phone := "9876543210";
    assert forall k :: 0 <= k < |phone| ==> phone[k] as int < 0x1_0000;
  }

  /** Nine digits and an emoji: ten characters, but eleven UTF-16 units. */
  lemma EmojiPhoneLength()
    ensures |"123456789\U{1F600}"| == 10
    ensures Js.Utf16Length("123456789\U{1F600}") == 11
  {
    var digits := "123456789";
    assert forall k :: 0 <= k < |digits| ==> digits[k] as int < 0x1_0000;
    Js.AstralCharCountsTwice(digits, '\U{1F600}');
    assert digits + ['\U{1F600}'] == "123456789\U{1F600}";
  }

  /** The phone's length is counted in UTF-16 units, so a ten-character phone ending in an emoji is rejected. */
  lemma EmojiPhoneRejected()
    ensures var f := SaleForm(Some(Product("p1", "Saree", 1000.0, "IN_STOCK")), DueTab, Cash, Some(400.0),
                              "Rohit", "123456789\U{1F600}", "2026-01-31");
      && |f.customerPhone| == 10
      && PaymentPlan(f) == Err(PhoneNotTenDigits)
  {
    var f := SaleForm(Some(Product("p1", "Saree", 1000.0, "IN_STOCK")), DueTab, Cash, Some(400.0),
                      "Rohit", "123456789\U{1F600}", "2026-01-31");
    EmojiPhoneLength();
    PlanDueRejections(f);
  }

  /**
   * A valid due-tab payload holds a mode entry exactly when something is paid now, a DUES entry
   * carrying the customer exactly when something stays due, and the mode entry comes first.
   */
  lemma PlanDueShape(f: SaleForm)
    requires f.tab == DueTab && PaymentPlan(f).Ok?
    ensures var entries, total, paying := PaymentPlan(f).value, TotalAmount(f.product), PayingNow(f.partialAmount);
      var due := DueRemaining(total, paying);
      && |entries| == (if paying > 0.0 then 1 else 0) + (if due > 0.0 then 1 else 0)
      && (paying > 0.0 ==> entries[0] == PaymentEntry(PaidNow(f.mode), paying, None))
      && (due > 0.0 ==>
            entries[|entries| - 1] == PaymentEntry(Dues, due, Some(DuesDetails(f.customerName, f.customerPhone, f.dueDate))))
      && (forall i :: 0 <= i < |entries| ==> entries[i].amount > 0.0)
  {
  }

  /** As written, the payload adds up to the price whenever the amount paid now lies in `[0, price]`. */
  lemma AsWrittenSumsWhenInRange(f: SaleForm)
    requires 0.0 <= PayingNow(f.partialAmount) <= TotalAmount(f.product)
    requires PaymentPlanAsWritten(f).Ok?
    ensures SumAmounts(PaymentPlanAsWritten(f).value) == TotalAmount(f.product)
    ensures PaymentPlanAsWritten(f) == PaymentPlan(f)
  {
    var paying := PayingNow(f.partialAmount);
    DueEntriesSum(f, paying, DueRemaining(TotalAmount(f.product), paying));
  }

  /**
   * As written, a negative amount paid now passes every check: nothing is paid now and the DUES
   * entry is larger than the price, so the payload no longer adds up to the sale price.
   */
  lemma NegativeDownPaymentOvercharges()
    ensures var f := SaleForm(Some(Product("p1", "Kurta", 1000.0, "IN_STOCK")), DueTab, Cash, Some(-50.0),
                              "Rohit", "9876543210", "2026-01-31");
      && PaymentPlanAsWritten(f)
         == Ok([PaymentEntry(Dues, 1050.0, Some(DuesDetails("Rohit", "9876543210", "2026-01-31")))])
      && SumAmounts(PaymentPlanAsWritten(f).value) != TotalAmount(f.product)
      && PaymentPlan(f) == Err(NegativePayment)
  {
    ExamplePhoneLength();
    var f := SaleForm(Some(Product("p1", "Kurta", 1000.0, "IN_STOCK")), DueTab, Cash, Some(-50.0),
                      "Rohit", "9876543210", "2026-01-31");
    NegativeDownPaymentPasses(f);
  }

  /** The worked example: price 1000, 400 paid now in cash, 600 recorded as due against the customer. */
  lemma PartialCashScenario()
    ensures var f := SaleForm(Some(Product("p1", "Saree", 1000.0, "IN_STOCK")), DueTab, Cash, Some(400.0),
                              "Rohit", "9876543210", "2026-01-31");
      PaymentPlan(f) == Ok([PaymentEntry(PaidNow(Cash), 400.0, None),
                            PaymentEntry(Dues, 600.0, Some(DuesDetails("Rohit", "9876543210", "2026-01-31")))])
  {
    ExamplePhoneLength();
    var f := SaleForm(Some(Product("p1", "Saree", 1000.0, "IN_STOCK")), DueTab, Cash, Some(400.0),
                      "Rohit", "9876543210", "2026-01-31");
    PartialPaymentSplits(f);
  }

  predicate IsInStock(p: Product) {
    p.stockStatus == "IN_STOCK"
  }

  /** The outcome of posting the sale: `success` true, `success` false, or a thrown error. */
  datatype PostResult = Accepted | NotAccepted | Failed

  datatype SaleRequest = SaleRequest(productId: string, salePrice: real, paymentMethods: seq<PaymentEntry>)

  datatype SubmitOutcome = Rejected(error: SaleError) | Posted(request: SaleRequest, result: PostResult)

  /**
   * `submitSale`'s validation and payload construction: each check returns its error, and the
   * entries are pushed one at a time as the hook does.
   */
  method BuildPaymentMethods(f: SaleForm) returns (r: Result<seq<PaymentEntry>, SaleError>)
    ensures r == PaymentPlan(f)
  {
    if f.product.None? {
      return Err(NoProductSelected);
    }
    var total := TotalAmount(f.product);
    var paying := PayingNow(f.partialAmount);
    var due := DueRemaining(total, paying);
    var methods: seq<PaymentEntry> := [];
    if f.tab == FullTab {
      methods := methods + [PaymentEntry(PaidNow(f.mode), total, None)];
      assert methods == [PaymentEntry(PaidNow(f.mode), total, None)];
    } else {
      if paying > total {
        return Err(PayingMoreThanPrice);
      }
      if paying < 0.0 {
        return Err(NegativePayment);
      }
      if f.customerName == "" || f.customerPhone == "" || f.dueDate == "" {
        return Err(MissingCustomerDetails);
      }
      if Js.Utf16Length(f.customerPhone) != 10 {
        return Err(PhoneNotTenDigits);
      }
      if paying > 0.0 {
        methods := methods + [PaymentEntry(PaidNow(f.mode), paying, None)];
      }
      if due > 0.0 {
        methods := methods + [PaymentEntry(Dues, due, Some(DuesDetails(f.customerName, f.customerPhone, f.dueDate)))];
      }
      assert methods == DueEntries(f, paying, due);
    }
    return Ok(methods);
  }

  /** The hook's state fields and the handlers that update them. */
  class RecordSaleHook {
    var query: string
    var results: seq<Product>
    var selectedProduct: Option<Product>
    var isSearching: bool
    var isSubmitting: bool
    var paymentTab: PaymentTab
    var paymentMode: PaymentMode
    var partialAmount: string
    var customerName: string
    var customerPhone: string
    var dueDate: string

    constructor()
      ensures query == "" && results == [] && selectedProduct == None
      ensures !isSearching && !isSubmitting
      ensures paymentTab == FullTab && paymentMode == Cash && partialAmount == "0"
      ensures customerName == "" && customerPhone == "" && dueDate == ""
    {
      query, results, selectedProduct := "", [], None;
      isSearching, isSubmitting := false, false;
      paymentTab, paymentMode, partialAmount := FullTab, Cash, "0";
      customerName, customerPhone, dueDate := "", "", "";
    }

    /** The form as `submitSale` sees it. */
    function Form(): SaleForm
      reads this
    {
      SaleForm(selectedProduct, paymentTab, paymentMode, Js.ParseFloat(partialAmount), customerName, customerPhone, dueDate)
    }

    /** Choosing a product clears the search, sets the amount paid now to "0" and returns to the full tab. */
    method HandleProductSelect(p: Product)
      modifies this
      ensures selectedProduct == Some(p) && query == "" && results == []
      ensures partialAmount == "0" && paymentTab == FullTab
      ensures isSearching == old(isSearching) && isSubmitting == old(isSubmitting) && paymentMode == old(paymentMode)
      ensures customerName == old(customerName) && customerPhone == old(customerPhone) && dueDate == old(dueDate)
    {
      selectedProduct := Some(p);
      query := "";
      results := [];
      partialAmount := "0";
      paymentTab := FullTab;
    }

    /** Dropping the product clears it and the query; nothing else changes. */
    method ClearSelection()
      modifies this
      ensures selectedProduct == None && query == ""
      ensures results == old(results) && paymentTab == old(paymentTab) && partialAmount == old(partialAmount)
      ensures isSearching == old(isSearching) && isSubmitting == old(isSubmitting) && paymentMode == old(paymentMode)
      ensures customerName == old(customerName) && customerPhone == old(customerPhone) && dueDate == old(dueDate)
    {
      selectedProduct := None;
      query := "";
    }

    /**
     * The search effect once its debounce fires: a query shorter than two characters empties the
     * results; otherwise the backend's answer (`None` when the request failed) replaces them,
     * keeping the products in stock only.
     */
    method ApplySearch(response: Option<seq<Product>>)
      modifies this`results, this`isSearching
      ensures Js.Utf16Length(query) < 2 ==> results == [] && isSearching == old(isSearching)
      ensures Js.Utf16Length(query) >= 2 ==> !isSearching
      ensures Js.Utf16Length(query) >= 2 && response.Some? ==> results == Seqs.Filter(response.value, IsInStock)
      ensures Js.Utf16Length(query) >= 2 && response.None? ==> results == old(results)
    {
      if Js.Utf16Length(query) < 2 {
        results := [];
        return;
      }
      isSearching := true;
      if response.Some? {
        results := Seqs.Filter(response.value, IsInStock);
      }
      isSearching := false;
    }

    /** The form reset after an accepted sale; the payment mode and the search are kept. */
    method ResetAfterSale()
      modifies this
      ensures selectedProduct == None && paymentTab == FullTab && partialAmount == "0"
      ensures customerName == "" && customerPhone == "" && dueDate == ""
      ensures paymentMode == old(paymentMode) && isSubmitting == old(isSubmitting)
      ensures query == old(query) && results == old(results) && isSearching == old(isSearching)
    {
      selectedProduct := None;
      partialAmount := "0";
      customerName, customerPhone, dueDate := "", "", "";
      paymentTab := FullTab;
    }

    /**
     * `submitSale`: validate, build the payment entries one push at a time, post them, and on an
     * accepted post reset the product, the amount, the customer fields and the tab.
     */
    method SubmitSale(post: PostResult) returns (outcome: SubmitOutcome)
      modifies this
      ensures PaymentPlan(old(Form())).Err? ==>
                outcome == Rejected(PaymentPlan(old(Form())).error) && isSubmitting == old(isSubmitting)
      ensures PaymentPlan(old(Form())).Ok? ==>
                && outcome == Posted(SaleRequest(old(selectedProduct).value.id, TotalAmount(old(selectedProduct)),
                                                 PaymentPlan(old(Form())).value), post)
                && !isSubmitting
      ensures outcome.Posted? && post == Accepted ==>
                && selectedProduct == None && paymentTab == FullTab && partialAmount == "0"
                && customerName == "" && customerPhone == "" && dueDate == ""
      ensures outcome.Rejected? || post != Accepted ==>
                && selectedProduct == old(selectedProduct) && paymentTab == old(paymentTab)
                && partialAmount == old(partialAmount) && customerName == old(customerName)
                && customerPhone == old(customerPhone) && dueDate == old(dueDate)
      ensures paymentMode == old(paymentMode)
      ensures query == old(query) && results == old(results) && isSearching == old(isSearching)
    {
      var form := Form();
      var plan := BuildPaymentMethods(form);
      if plan.Err? {
        return Rejected(plan.error);
      }
      var request := SaleRequest(selectedProduct.value.id, TotalAmount(selectedProduct), plan.value);
      isSubmitting := true;
      if post == Accepted {
        ResetAfterSale();
      }
      isSubmitting := false;
      outcome := Posted(request, post);
    }
  }
}
