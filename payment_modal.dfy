/**
 * The "record payment" dialog of the payments page: a payment of a customer, optionally
 * against one of its open invoices, written to the local store as the payment, a "debit"
 * ledger entry, the invoice's new paid amount and status, the customer's lowered
 * `amountOwed` and one sync queue item.
 */
module PaymentModal {
  import opened Wrappers
  import opened Text
  import opened LocalDb
  import Ledger
  import LedgerService

  /** The invoices the dialog offers for linking: the chosen customer's "pending" and "partial" ones. */
  function InvoiceChoices(m: map<string, Invoice>, customerId: string): (r: set<Invoice>)
    ensures forall inv :: inv in r <==>
      customerId != "" && inv in m.Values && inv.customerId == customerId && (inv.status == "pending" || inv.status == "partial")
  {
    if customerId == "" then {}
    else set inv | inv in m.Values && inv.customerId == customerId && (inv.status == "pending" || inv.status == "partial")
  }

  /** `invoiceId || null`. */
  function InvoiceRef(id: string): (r: Option<string>)
    ensures r.None? <==> id == ""
    ensures r.Some? ==> r.value == id
  {
    if id == "" then None else Some(id)
  }

  /**
   * The payment on its invoice: the amount is added to what was paid, the amount due is
   * what remains of the total (never below 0), and the invoice is "paid" once nothing
   * remains, "partial" otherwise. Its `synced` flag is left as it was.
   */
  function PayInvoice(inv: Invoice, amount: real): (r: Invoice)
    ensures r.amountPaid == Some(OrZero(inv.amountPaid) + amount)
    ensures r.balanceDue.Some? && r.balanceDue.value >= 0.0
    ensures r.balanceDue.value >= OrZero(inv.total) - r.amountPaid.value
    ensures r.balanceDue.value == 0.0 || r.balanceDue.value == OrZero(inv.total) - r.amountPaid.value
    ensures r.status == "paid" <==> OrZero(inv.total) <= r.amountPaid.value
    ensures r.status == "paid" || r.status == "partial"
    ensures r == inv.(amountPaid := r.amountPaid, balanceDue := r.balanceDue, status := r.status)
  {
    var paid := OrZero(inv.amountPaid) + amount;
    var due := if OrZero(inv.total) - paid > 0.0 then OrZero(inv.total) - paid else 0.0;
    inv.(amountPaid := Some(paid), balanceDue := Some(due), status := if due <= 0.0 then "paid" else "partial")
  }

  /** `db.invoices.update(invoiceId, ...)` when an invoice is linked and exists. */
  function SettleInvoice(m: map<string, Invoice>, invoiceId: string, amount: real): (r: map<string, Invoice>)
    ensures r.Keys == m.Keys
    ensures forall k :: k in m && k != invoiceId ==> r[k] == m[k]
    ensures invoiceId != "" && invoiceId in m ==> r[invoiceId] == PayInvoice(m[invoiceId], amount)
    ensures invoiceId == "" ==> r == m
    ensures InvoicesKeyed(m) ==> InvoicesKeyed(r)
  {
    if invoiceId != "" && invoiceId in m then m[invoiceId := PayInvoice(m[invoiceId], amount)] else m
  }

  /** The customer's `amountOwed` lowered by the payment and floored at 0; its `balance` is not touched. */
  function ReduceOwed(m: map<string, Customer>, customerId: string, amount: real): (r: map<string, Customer>)
    ensures r.Keys == m.Keys
    ensures forall k :: k in m && k != customerId ==> r[k] == m[k]
    ensures customerId in m ==> var c := m[customerId]; var d := r[customerId];
      && d.amountOwed.Some? && d.amountOwed.value >= 0.0
      && d.amountOwed.value >= OrZero(c.amountOwed) - amount
      && (d.amountOwed.value == 0.0 || d.amountOwed.value == OrZero(c.amountOwed) - amount)
      && d == c.(amountOwed := d.amountOwed, synced := 0)
    ensures CustomersKeyed(m) ==> CustomersKeyed(r)
  {
    if customerId !in m then m
    else
      var c := m[customerId];
      var owed := OrZero(c.amountOwed) - amount;
      m[customerId := c.(amountOwed := Some(if owed > 0.0 then owed else 0.0), synced := 0)]
  }

  /** The payment record; its id is "PAY-" followed by the current time in milliseconds. */
  function NewPayment(stamp: string, customerId: string, customerName: string, invoiceId: string, amount: real,
                      paymentMethod: string, note: string, date: string, now: string): (p: Payment)
    ensures p.id == "PAY-" + stamp && p.synced == 0 && p.note == Trim(note)
    ensures p.invoiceId == InvoiceRef(invoiceId) && p.amount == amount && p.customerId == customerId
  {
    Payment("PAY-" + stamp, customerId, customerName, InvoiceRef(invoiceId), amount, paymentMethod, Trim(note), date, now, 0)
  }

  /** The ledger entry of a payment: a "debit" of the paid amount, from source "payment". */
  function PaymentRow(key: nat, p: Payment): LedgerRow {
    LedgerRow(Auto(key), "ledger-pay-" + p.id, p.customerId, p.invoiceId, "debit", p.amount, "", "payment", 0, p.createdAt)
  }

  datatype Refusal = NoCustomer | NonPositiveAmount | SaveFailed

  datatype SaveOutcome = Refused(reason: Refusal) | Saved(payment: Payment)

  /**
   * `handleSave`. `amount` is the typed amount, `None` when the field is empty; `stamp`
   * is `Date.now()` and `now` the current instant. The first write, the payment, is
   * refused when its id is taken, and then nothing is written.
   */
  method HandleSave(db: Db, customerId: string, invoiceId: string, amount: Option<real>, paymentMethod: string,
                    note: string, date: string, stamp: string, now: string)
    returns (outcome: SaveOutcome)
    requires db.Valid()
    modifies db`payments, db`ledger, db`nextLedgerId, db`invoices, db`customers, db`syncQueue, db`nextQueueId
    ensures db.Valid()
    ensures outcome == Refused(NoCustomer) <==> customerId == ""
    ensures outcome == Refused(NonPositiveAmount) <==> customerId != "" && (amount.None? || amount.value <= 0.0)
    ensures outcome == Refused(SaveFailed) <==>
      customerId != "" && amount.Some? && amount.value > 0.0 && "PAY-" + stamp in old(db.payments)
    ensures outcome.Refused? ==> unchanged(db)
    ensures outcome.Saved? ==>
      var p := outcome.payment;
      && p == NewPayment(stamp, customerId, if customerId in old(db.customers) then old(db.customers)[customerId].name else "",
                         invoiceId, amount.value, paymentMethod, note, date, now)
      && db.payments == old(db.payments)[p.id := p]
      && db.ledger == old(db.ledger) + [PaymentRow(old(db.nextLedgerId), p)]
      && db.nextLedgerId == old(db.nextLedgerId) + 1
      && db.invoices == SettleInvoice(old(db.invoices), invoiceId, p.amount)
      && db.customers == ReduceOwed(old(db.customers), customerId, p.amount)
      && db.syncQueue == old(db.syncQueue) + [QueueItem(old(db.nextQueueId), "payment", p.id, "create", now)]
      && db.nextQueueId == old(db.nextQueueId) + 1
  {
    if customerId == "" {
      return Refused(NoCustomer);
    }
    if amount.None? || amount.value <= 0.0 {
      return Refused(NonPositiveAmount);
    }
    var id := "PAY-" + stamp;
    if id in db.payments {
      return Refused(SaveFailed);
    }
    var name := if customerId in db.customers then db.customers[customerId].name else "";
    var p := NewPayment(stamp, customerId, name, invoiceId, amount.value, paymentMethod, note, date, now);
    Record(db, p, invoiceId);
    outcome := Saved(p);
  }

  /** The writes of a payment, in order: payment, ledger entry, invoice, customer, queue item. */
  method Record(db: Db, p: Payment, invoiceId: string)
    requires db.Valid() && p.id !in db.payments
    modifies db`payments, db`ledger, db`nextLedgerId, db`invoices, db`customers, db`syncQueue, db`nextQueueId
    ensures db.Valid()
    ensures db.payments == old(db.payments)[p.id := p]
    ensures db.ledger == old(db.ledger) + [PaymentRow(old(db.nextLedgerId), p)]
    ensures db.nextLedgerId == old(db.nextLedgerId) + 1
    ensures db.invoices == SettleInvoice(old(db.invoices), invoiceId, p.amount)
    ensures db.customers == ReduceOwed(old(db.customers), p.customerId, p.amount)
    ensures db.syncQueue == old(db.syncQueue) + [QueueItem(old(db.nextQueueId), "payment", p.id, "create", p.createdAt)]
    ensures db.nextQueueId == old(db.nextQueueId) + 1
  {
    db.payments := db.payments[p.id := p];
    var row := db.AddLedgerRow("ledger-pay-" + p.id, p.customerId, p.invoiceId, "debit", p.amount, "", "payment", p.createdAt);
    db.invoices := SettleInvoice(db.invoices, invoiceId, p.amount);
    db.customers := ReduceOwed(db.customers, p.customerId, p.amount);
    db.AddQueueItem("payment", p.id, "create", p.createdAt);
  }

  /** Two payments on an invoice leave it as one payment of their sum would. */
  lemma PaymentsCombine(inv: Invoice, a: real, b: real)
    ensures PayInvoice(PayInvoice(inv, a), b) == PayInvoice(inv, a + b)
  {
    var once := PayInvoice(inv, a + b);
    var twice := PayInvoice(PayInvoice(inv, a), b);
    assert twice.amountPaid == once.amountPaid;
  }

  /** On an invoice whose amount due was derived from its total, a payment never raises what is due. */
  lemma PaymentShrinksDue(inv: Invoice, amount: real)
    requires amount >= 0.0
    requires inv.balanceDue == Some(if OrZero(inv.total) - OrZero(inv.amountPaid) > 0.0
                                    then OrZero(inv.total) - OrZero(inv.amountPaid) else 0.0)
    ensures PayInvoice(inv, amount).balanceDue.value <= inv.balanceDue.value
    ensures PayInvoice(inv, amount).balanceDue.value == 0.0 <==> OrZero(inv.total) <= OrZero(inv.amountPaid) + amount
  {
  }

  /**
   * After a payment on an offered invoice, the invoice is still offered exactly when it
   * became "partial": a settled invoice drops out of the choices.
   */
  lemma ChoicesAfterPayment(m: map<string, Invoice>, id: string, amount: real)
    requires InvoicesKeyed(m) && id != "" && id in m
    requires m[id] in InvoiceChoices(m, m[id].customerId)
    ensures var r := SettleInvoice(m, id, amount);
      r[id] in InvoiceChoices(r, m[id].customerId) <==> r[id].status == "partial"
  {
    var r := SettleInvoice(m, id, amount);
    assert r[id] in r.Values;
  }

  /**
   * An overpayment is lost from `amountOwed`: it is floored at 0, while the ledger entry
   * records the whole amount.
   */
  lemma OverpaymentFloored(m: map<string, Customer>, c: string, amount: real)
    requires c in m && amount > OrZero(m[c].amountOwed)
    ensures ReduceOwed(m, c, amount)[c].amountOwed == Some(0.0)
  {
  }

  /**
   * The payment's "debit" entry lowers the customer's ledger balance by the amount, but the
   * dialog updates `amountOwed` and not `balance`: a cached balance that agreed with the
   * ledger no longer does.
   */
  lemma PaymentBreaksBalanceCache(m: map<string, Customer>, rows: seq<LedgerRow>, key: nat, p: Payment)
    requires p.customerId in m && p.amount > 0.0
    requires LedgerService.CacheConsistent(m, rows, p.customerId)
    ensures !LedgerService.CacheConsistent(ReduceOwed(m, p.customerId, p.amount), rows + [PaymentRow(key, p)], p.customerId)
    ensures LedgerService.LedgerBalanceOf(rows + [PaymentRow(key, p)], p.customerId) ==
            LedgerService.LedgerBalanceOf(rows, p.customerId) - p.amount
  {
    LedgerService.LedgerBalanceOfAppend(rows, PaymentRow(key, p), p.customerId);
  }

  /**
   * The invoice update does not reset `synced`: a payment on an invoice that was already
   * pushed leaves the set of invoices the next sync sends as it was.
   */
  lemma PaidInvoiceNotResent(m: map<string, Invoice>, id: string, amount: real)
    requires id in m && m[id].synced != 0
    ensures UnsyncedInvoices(SettleInvoice(m, id, amount)) == UnsyncedInvoices(m)
  {
    var r := SettleInvoice(m, id, amount);
    forall k | k in m
      ensures r[k].synced == m[k].synced
    {
    }
  }
}
