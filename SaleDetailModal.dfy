/**
 * The sale detail dialog: the payment field prefilled from the selected sale's due, the check
 * made before a payment is recorded, the status badge, the amount breakdown and which controls
 * are shown.
 */
module SaleDetailModal {
  import opened Wrappers
  import Js
  import opened RecentActivity

  /** The text the payment field takes when the dialog's sale changes: the due, or nothing. */
  function Prefill(sale: Option<Sale>): (text: string)
    ensures sale.None? || !Js.TruthyNum(sale.value.dueAmount) ==> text == ""
    ensures sale.Some? && Js.TruthyNum(sale.value.dueAmount) ==> text != ""
  {
    if sale.Some? && Js.TruthyNum(sale.value.dueAmount) then Js.NumberToString(sale.value.dueAmount.value) else ""
  }

  /** What pressing Update does: ask for the payment to be recorded, or alert. */
  datatype ClickOutcome = RecordPayment(amount: real) | AlertInvalidAmount

  /** `handleUpdateClick`: only a number greater than zero is passed on. */
  function UpdateClick(input: string): (r: ClickOutcome)
    ensures r.RecordPayment? ==> Js.ParseFloat(input) == Some(r.amount) && r.amount > 0.0
    ensures r.AlertInvalidAmount? <==> Js.ParseFloat(input).None? || Js.ParseFloat(input).value <= 0.0
  {
    var amount := Js.ParseFloat(input);
    if amount.Some? && amount.value > 0.0 then RecordPayment(amount.value) else AlertInvalidAmount
  }

  /** Pressing Update on the prefilled field pays off the whole due (for a due in whole rupees). */
  lemma PrefillThenUpdatePaysDue(sale: Sale)
    requires sale.dueAmount.Some? && sale.dueAmount.value > 0.0
    requires sale.dueAmount.value == sale.dueAmount.value.Floor as real
    ensures UpdateClick(Prefill(Some(sale))) == RecordPayment(sale.dueAmount.value)
  {
    Js.ParseWholeNumber(sale.dueAmount.value);
  }

  /** With no due the field starts empty, and pressing Update straight away only alerts. */
  lemma NoDueMeansNoPayment(sale: Option<Sale>)
    requires sale.None? || !Js.TruthyNum(sale.value.dueAmount)
    ensures UpdateClick(Prefill(sale)) == AlertInvalidAmount
  {
    assert Js.TrimStart("") == "";
  }

  function BadgeLabel(sale: Sale): (badge: string)
    ensures badge == "Payment Due" || badge == "Fully Paid"
  {
    if sale.status == Some("due") then "Payment Due" else "Fully Paid"
  }

  predicate ShowsPaymentInput(sale: Sale) {
    sale.status == Some("due")
  }

  /** The badge reads "Payment Due" exactly for the records the due filter keeps; otherwise "Fully Paid". */
  lemma BadgeMatchesDueFilter(sale: Sale)
    ensures BadgeLabel(sale) == "Payment Due" <==> IsDue(sale)
    ensures BadgeLabel(sale) != "Payment Due" ==> BadgeLabel(sale) == "Fully Paid"
    ensures ShowsPaymentInput(sale) <==> IsDue(sale)
  {
  }

  /** The three figures of the breakdown: total, paid and due. */
  datatype Breakdown = Breakdown(total: real, paid: real, due: real)

  function Figures(sale: Sale): Breakdown {
    Breakdown(TotalOf(sale), Js.OrZero(sale.amountPaid), Js.OrZero(sale.dueAmount))
  }

  /**
   * After a payment that does not overshoot the total, the dialog's figures balance: paid plus due
   * is the total, and the badge and the input follow whether anything is still due.
   */
  lemma FiguresAfterPayment(sale: Sale, amount: real)
    requires 0.0 <= Js.OrZero(sale.amountPaid) + amount <= TotalOf(sale)
    ensures var b := Figures(PaidUpdate(sale, amount));
      && b.total == TotalOf(sale)
      && b.paid + b.due == b.total
      && (BadgeLabel(PaidUpdate(sale, amount)) == "Fully Paid" <==> b.due == 0.0)
      && (ShowsPaymentInput(PaidUpdate(sale, amount)) <==> b.due > 0.0)
  {
  }

  /** The dialog's one piece of state: the text of the payment field. */
  class PaymentField {
    var paymentInput: string

    constructor()
      ensures paymentInput == ""
    {
      paymentInput := "";
    }

    /** The effect run when the dialog's sale changes. */
    method OnSaleChanged(sale: Option<Sale>)
      modifies this
      ensures paymentInput == Prefill(sale)
    {
      if sale.Some? && Js.TruthyNum(sale.value.dueAmount) {
        paymentInput := Js.NumberToString(sale.value.dueAmount.value);
      } else {
        paymentInput := "";
      }
    }

    method SetPaymentInput(text: string)
      modifies this
      ensures paymentInput == text
    {
      paymentInput := text;
    }

    /** Pressing Update reads the field and changes nothing; the button is disabled while updating. */
    method HandleUpdateClick(isUpdating: bool) returns (r: Option<ClickOutcome>)
      ensures isUpdating ==> r == None
      ensures !isUpdating ==> r == Some(UpdateClick(paymentInput))
    {
      if isUpdating {
        return None;
      }
      var amount := Js.ParseFloat(paymentInput);
      if amount.Some? && amount.value > 0.0 {
        r := Some(RecordPayment(amount.value));
      } else {
        r := Some(AlertInvalidAmount);
      }
    }
  }
}
