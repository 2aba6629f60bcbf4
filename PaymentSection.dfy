/**
 * The payment section of the quick-sell form: a record of payment fields that the component
 * replaces one field at a time, the remaining due shown under the amount field, which sections
 * are visible, and the phone-number sanitiser.
 */
module PaymentSection {
  import opened Wrappers
  import opened Domain
  import Js
  import Seqs

  datatype PaymentStatus = Paid | Due

  datatype PaymentState = PaymentState(
    status: PaymentStatus,
    mode: PaymentMode,
    partialAmount: string,
    customerName: string,
    customerPhone: string,
    dueDate: string)

  /** The keys of `PaymentState`. */
  datatype Field = StatusField | ModeField | PartialAmountField | CustomerNameField | CustomerPhoneField | DueDateField

  /** The value held under a key. */
  datatype FieldValue = StatusValue(status: PaymentStatus) | ModeValue(mode: PaymentMode) | Text(text: string)

  function Get(st: PaymentState, f: Field): FieldValue {
    match f
    case StatusField => StatusValue(st.status)
    case ModeField => ModeValue(st.mode)
    case PartialAmountField => Text(st.partialAmount)
    case CustomerNameField => Text(st.customerName)
    case CustomerPhoneField => Text(st.customerPhone)
    case DueDateField => Text(st.dueDate)
  }

  /** One `update(field, value)` call as the component's handlers issue it. */
  datatype FieldUpdate =
    | SetStatus(status: PaymentStatus)
    | SetMode(mode: PaymentMode)
    | SetPartialAmount(text: string)
    | SetCustomerName(text: string)
    | SetCustomerPhone(text: string)
    | SetDueDate(text: string)

  function FieldOf(u: FieldUpdate): Field {
    match u
    case SetStatus(_) => StatusField
    case SetMode(_) => ModeField
    case SetPartialAmount(_) => PartialAmountField
    case SetCustomerName(_) => CustomerNameField
    case SetCustomerPhone(_) => CustomerPhoneField
    case SetDueDate(_) => DueDateField
  }

  function ValueOf(u: FieldUpdate): FieldValue {
    match u
    case SetStatus(s) => StatusValue(s)
    case SetMode(m) => ModeValue(m)
    case SetPartialAmount(t) => Text(t)
    case SetCustomerName(t) => Text(t)
    case SetCustomerPhone(t) => Text(t)
    case SetDueDate(t) => Text(t)
  }

  /** `{ ...paymentState, [field]: value }`: the named field takes the value, every other field is kept. */
  function Update(st: PaymentState, u: FieldUpdate): (r: PaymentState)
    ensures Get(r, FieldOf(u)) == ValueOf(u)
    ensures forall f :: f != FieldOf(u) ==> Get(r, f) == Get(st, f)
  {
    match u
    case SetStatus(s) => st.(status := s)
    case SetMode(m) => st.(mode := m)
    case SetPartialAmount(t) => st.(partialAmount := t)
    case SetCustomerName(t) => st.(customerName := t)
    case SetCustomerPhone(t) => st.(customerPhone := t)
    case SetDueDate(t) => st.(dueDate := t)
  }

  /** A state is determined by its fields, so an update is undone by writing the old value back. */
  lemma UpdateRestores(st: PaymentState, u: FieldUpdate, back: FieldUpdate)
    requires FieldOf(back) == FieldOf(u) && ValueOf(back) == Get(st, FieldOf(u))
    ensures Update(Update(st, u), back) == st
  {
    var r := Update(Update(st, u), back);
    assert Get(r, StatusField) == Get(st, StatusField);
    assert Get(r, ModeField) == Get(st, ModeField);
    assert Get(r, PartialAmountField) == Get(st, PartialAmountField);
    assert Get(r, CustomerNameField) == Get(st, CustomerNameField);
    assert Get(r, CustomerPhoneField) == Get(st, CustomerPhoneField);
    assert Get(r, DueDateField) == Get(st, DueDateField);
  }

  /** `parseFloat(partialAmount) || 0`. */
  function Partial(st: PaymentState): real {
    Js.OrZero(Js.ParseFloat(st.partialAmount))
  }

  /** `Math.max(0, totalAmount - partial)`. */
  function RemainingDue(total: real, st: PaymentState): (due: real)
    ensures due >= 0.0 && due >= total - Partial(st)
    ensures due == 0.0 || due == total - Partial(st)
  {
    var partial := Partial(st);
    if total - partial > 0.0 then total - partial else 0.0
  }

  /** An amount field that does not parse counts as nothing paid: the whole total stays due. */
  lemma UnparseableAmountCountsAsZero(total: real, st: PaymentState)
    requires Js.ParseFloat(st.partialAmount).None?
    ensures Partial(st) == 0.0
    ensures RemainingDue(total, st) == (if total > 0.0 then total else 0.0)
  {
  }

  /** What is paid now and the remaining due add up to the total when the amount is in range. */
  lemma RemainingDueComplementsPartial(total: real, st: PaymentState)
    requires 0.0 <= Partial(st) <= total
    ensures Partial(st) + RemainingDue(total, st) == total
  {
  }

  predicate IsPartialPayment(st: PaymentState) {
    st.status == Due && Partial(st) > 0.0
  }

  /** The payment-mode cards are shown for a paid sale, or for a due sale with a down payment. */
  predicate ShowsModeSelector(st: PaymentState) {
    st.status == Paid || IsPartialPayment(st)
  }

  predicate ShowsAmountInput(st: PaymentState) {
    st.status == Due
  }

  predicate ShowsCustomerDetails(st: PaymentState) {
    st.status == Due
  }

  /**
   * The sections partition the cases: a paid sale shows only the mode cards; a due sale shows the
   * amount and customer fields, and the mode cards only once something is paid now.
   */
  lemma VisibilityCases(st: PaymentState)
    ensures st.status == Paid ==> ShowsModeSelector(st) && !ShowsAmountInput(st) && !ShowsCustomerDetails(st)
    ensures st.status == Due ==> ShowsAmountInput(st) && ShowsCustomerDetails(st)
    ensures st.status == Due ==> (ShowsModeSelector(st) <==> Partial(st) > 0.0)
    ensures !ShowsModeSelector(st) <==> st.status == Due && Partial(st) <= 0.0
  {
  }

  /** Switching to DUE keeps the amount typed so far, so the mode cards reappear exactly when it is positive. */
  lemma SwitchToDueKeepsAmount(st: PaymentState)
    ensures Partial(Update(st, SetStatus(Due))) == Partial(st)
    ensures ShowsModeSelector(Update(st, SetStatus(Due))) <==> Partial(st) > 0.0
  {
  }

  /** The digits of `s`: `replace(/\D/g, '')`. */
  function DigitsOnly(s: string): (d: string)
    ensures Js.AllDigits(d) && |d| <= |s|
  {
    Seqs.Filter(s, Js.IsDigit)
  }

  /** The phone field's `onChange`: keep the digits, then `slice(0, 10)`. */
  function SanitizePhone(s: string): (r: string)
    ensures Js.AllDigits(r)
    ensures |r| <= 10
    ensures r <= DigitsOnly(s)
    ensures |r| == if |DigitsOnly(s)| < 10 then |DigitsOnly(s)| else 10
  {
    var d := DigitsOnly(s);
    Js.SliceInRange(d, 0, 10);
    Js.Slice(d, 0, 10)
  }

  /** Sanitising a sanitised number changes nothing. */
  lemma SanitizePhoneIdempotent(s: string)
    ensures SanitizePhone(SanitizePhone(s)) == SanitizePhone(s)
  {
    var r := SanitizePhone(s);
    Seqs.FilterKeepsAll(r, Js.IsDigit);
    assert DigitsOnly(r) == r;
    Js.SliceInRange(r, 0, 10);
  }

  /** Text that is already ten digits or fewer passes through unchanged. */
  lemma SanitizePhoneKeepsDigits(s: string)
    requires Js.AllDigits(s) && |s| <= 10
    ensures SanitizePhone(s) == s
  {
    Seqs.FilterKeepsAll(s, Js.IsDigit);
    Js.SliceInRange(s, 0, 10);
  }
}
