/**
 * The "record payment against an invoice" dialog: the remaining amount of the invoice,
 * the validation of the typed amount and the payment handed to `onSave`.
 */
module RecordPaymentModal {
  import opened Wrappers
  import opened Text

  /** The invoice the dialog is opened for: `amount` and `amountPaid` may be missing. */
  datatype OpenInvoice = OpenInvoice(id: string, customerName: string, phone: string,
                                     amount: Option<real>, amountPaid: Option<real>)

  /** The dialog's fields; `amount` is the text typed into the amount field. */
  datatype PaymentForm = PaymentForm(amount: string, paymentMethod: string, date: string, note: string, error: string)

  /** What `onSave` receives. */
  datatype PaymentData = PaymentData(invoiceId: string, customerName: string, phone: string, amount: real,
                                     paymentMethod: string, date: string, note: string)

  datatype Rejection = InvalidAmount | ExceedsRemaining(remaining: real)

  datatype Submission = Rejected(why: Rejection) | Accepted(data: PaymentData)

  /** The amount still to pay, a missing amount or paid amount counting as 0; it may be negative. */
  function Remaining(inv: OpenInvoice): (r: real)
    ensures inv.amountPaid.None? ==> r == OrZero(inv.amount)
    ensures inv.amount.None? ==> r == -OrZero(inv.amountPaid)
    ensures r + OrZero(inv.amountPaid) == OrZero(inv.amount)
  {
    OrZero(inv.amount) - OrZero(inv.amountPaid)
  }

  /** The form as the dialog resets it when the invoice changes: method "Cash", date today, the rest empty. */
  function Reset(today: string): (f: PaymentForm)
    ensures f.amount == "" && f.note == "" && f.error == ""
    ensures f.paymentMethod == "Cash" && f.date == today
  {
    PaymentForm("", "Cash", today, "", "")
  }

  /**
   * `handleSubmit`. `num` is `Number(form.amount)`, `None` when it is not a number (an
   * empty field is the number 0). A zero, negative or non-numeric amount is rejected, then
   * one above the remaining amount; otherwise the payment is handed on with its note trimmed.
   */
  function Submit(form: PaymentForm, inv: OpenInvoice, num: Option<real>): (r: Submission)
    ensures r == Rejected(InvalidAmount) <==> num.None? || num.value <= 0.0
    ensures r.Rejected? && r.why.ExceedsRemaining? <==> num.Some? && num.value > 0.0 && num.value > Remaining(inv)
    ensures r.Rejected? && r.why.ExceedsRemaining? ==> r.why.remaining == Remaining(inv)
    ensures r.Accepted? <==> num.Some? && 0.0 < num.value <= Remaining(inv)
    ensures r.Accepted? ==> r.data.invoiceId == inv.id && r.data.amount == num.value && r.data.note == Trim(form.note)
    ensures r.Accepted? ==> r.data.paymentMethod == form.paymentMethod && r.data.date == form.date
    ensures r.Accepted? ==> r.data.customerName == inv.customerName && r.data.phone == inv.phone
  {
    if num.None? || num.value <= 0.0 then Rejected(InvalidAmount)
    else if num.value > Remaining(inv) then Rejected(ExceedsRemaining(Remaining(inv)))
    else Accepted(PaymentData(inv.id, inv.customerName, inv.phone, num.value, form.paymentMethod, form.date, Trim(form.note)))
  }

  /** The error text the form shows after a submit; a successful submit clears it. */
  function ErrorAfter(r: Submission, invalidText: string,
                      exceedsText: real -> string): (e: string)
    ensures r.Accepted? ==> e == ""
    ensures r == Rejected(InvalidAmount) ==> e == invalidText
  {
    match r
    case Accepted(_) => ""
    case Rejected(InvalidAmount) => invalidText
    case Rejected(ExceedsRemaining(rem)) => exceedsText(rem)
  }

  /** Paying exactly the remaining amount is accepted whenever something remains. */
  lemma ExactRemainingAccepted(form: PaymentForm, inv: OpenInvoice)
    requires Remaining(inv) > 0.0
    ensures Submit(form, inv, Some(Remaining(inv))).Accepted?
    ensures Submit(form, inv, Some(Remaining(inv))).data.amount == Remaining(inv)
  {
  }

  /** On a fully paid (or overpaid) invoice every amount is refused. */
  lemma NothingRemainingRefusesAll(form: PaymentForm, inv: OpenInvoice, num: Option<real>)
    requires OrZero(inv.amount) <= OrZero(inv.amountPaid)
    ensures Submit(form, inv, num).Rejected?
  {
  }

  /** Submitting a freshly reset form, whose empty amount is the number 0, is refused as invalid. */
  lemma ResetFormRefused(today: string, inv: OpenInvoice)
    ensures Submit(Reset(today), inv, Some(0.0)) == Rejected(InvalidAmount)
  {
  }

  /** An accepted payment never takes the paid amount above the invoice amount. */
  lemma AcceptedStaysWithinAmount(form: PaymentForm, inv: OpenInvoice, num: Option<real>)
    requires Submit(form, inv, num).Accepted?
    ensures 0.0 < Submit(form, inv, num).data.amount
    ensures OrZero(inv.amountPaid) + Submit(form, inv, num).data.amount <= OrZero(inv.amount)
  {
  }
}
