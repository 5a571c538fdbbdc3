/**
 * The invoice screen: the line-item editor, the totals, the payment split, the voice
 * auto-fill and `saveInvoice`, which writes the invoice, its ledger row and the customer's
 * cached totals to the local store and then posts the invoice or queues it.
 *
 * The form's inputs are read with `Number(...)`; here they are already numbers, and an
 * empty "amount paid" field is `None`.
 */
module CreateInvoice {
  import opened Wrappers
  import opened Text
  import opened LineItem
  import opened LocalDb
  import Ledger
  import Models
  import SyncManagerV1
  import Sorting

  // ---------------------------------------------------------------- the form

  datatype Form = Form(
    customerId: string, invoiceType: string, items: seq<Item>, activeItem: nat,
    taxPercent: real, invoiceDate: string, paymentStatus: string, amountPaid: Option<real>,
    notes: string, sendWhatsApp: bool)

  /** The row `addItem` appends and the form starts with. */
  const BlankItem := Item("", 1.0, 0.0)

  /** The screen as it opens: one blank row, "selling", payment "credit", WhatsApp on. */
  function InitialForm(today: string): Form {
    Form("", "selling", [BlankItem], 0, 0.0, today, "credit", None, "", true)
  }

  datatype ItemEdit = SetName(name: string) | SetQty(qty: real) | SetPrice(price: real)

  /** `updateItem(index, field, value)`: one field of one row replaced. */
  function UpdateItem(items: seq<Item>, index: nat, e: ItemEdit): (r: seq<Item>)
    requires index < |items|
    ensures |r| == |items|
    ensures forall j :: 0 <= j < |r| && j != index ==> r[j] == items[j]
    ensures e.SetName? ==> r[index] == items[index].(name := e.name)
    ensures e.SetQty? ==> r[index] == items[index].(qty := e.qty)
    ensures e.SetPrice? ==> r[index] == items[index].(price := e.price)
  {
    var it := items[index];
    items[index := match e
      case SetName(n) => it.(name := n)
      case SetQty(q) => it.(qty := q)
      case SetPrice(p) => it.(price := p)]
  }

  /** `removeItem(index)`: the last remaining row is never removed. */
  function RemoveItem(items: seq<Item>, index: nat): (r: seq<Item>)
    ensures |items| <= 1 ==> r == items
    ensures |items| > 1 && index < |items| ==>
      |r| == |items| - 1 && forall j :: 0 <= j < |r| ==> r[j] == items[if j < index then j else j + 1]
    ensures index >= |items| ==> r == items
  {
    if |items| == 1 || index >= |items| then items else items[..index] + items[index + 1..]
  }

  /** What the user can do on the screen before saving. */
  datatype Edit =
    | AddRow
    | RemoveRow(index: nat)
    | UpdateRow(index: nat, edit: ItemEdit)
    | FocusRow(index: nat)
    | PaymentToggle(status: string)
    | SetAmountPaid(amount: Option<real>)
    | SetCustomer(id: string)
    | SetInvoiceType(kind: string)
    | SetTax(percent: real)
    | VoiceFill(result: Option<AiResult>, contacts: seq<Customer>)

  /**
   * One edit. `addItem` focuses the new row; `handlePaymentToggle` clears the amount
   * paid when the status becomes "paid"; a voice result that could not be parsed leaves
   * the form as it was. The editor only addresses the rows it shows, so an update of a row
   * that does not exist is not an edit the screen can make.
   */
  function Apply(f: Form, e: Edit): Form {
    match e
    case AddRow => f.(items := f.items + [BlankItem], activeItem := |f.items|)
    case RemoveRow(i) => f.(items := RemoveItem(f.items, i))
    case UpdateRow(i, ie) => if i < |f.items| then f.(items := UpdateItem(f.items, i, ie)) else f
    case FocusRow(i) => f.(activeItem := i)
    case PaymentToggle(s) => f.(paymentStatus := s, amountPaid := if s == "paid" then None else f.amountPaid)
    case SetAmountPaid(a) => f.(amountPaid := a)
    case SetCustomer(id) => f.(customerId := id)
    case SetInvoiceType(k) => f.(invoiceType := k)
    case SetTax(t) => f.(taxPercent := t)
    case VoiceFill(r, list) => if r.None? then f else ApplyAi(f, r.value, list).0
  }

  function ApplyAll(f: Form, es: seq<Edit>): Form
    decreases |es|
  {
    if es == [] then f else ApplyAll(Apply(f, es[0]), es[1..])
  }

  /** Whatever the user does, the form keeps at least one row. */
  lemma {:induction false} RowsNeverRunOut(f: Form, es: seq<Edit>)
    requires |f.items| >= 1
    ensures |ApplyAll(f, es).items| >= 1
    decreases |es|
  {
    if es != [] {
      var g := Apply(f, es[0]);
      assert |g.items| >= 1;
      RowsNeverRunOut(g, es[1..]);
    }
  }

  /** Removing the focused last row leaves the focus past the end, which the voice fill clamps. */
  lemma RemoveCanStrandFocus()
    ensures var f := Apply(Apply(InitialForm(""), AddRow), RemoveRow(1));
      |f.items| == 1 && f.activeItem == 1
  {
    var f1 := Apply(InitialForm(""), AddRow);
    assert f1.items == [BlankItem, BlankItem];
    assert RemoveItem(f1.items, 1) == [BlankItem];
  }

  // ---------------------------------------------------------------- totals

  /** `items.reduce((sum, i) => sum + qty * price, 0)`. */
  function Subtotal(items: seq<Item>): real
  {
    if items == [] then 0.0
    else
      var it := items[|items| - 1];
      Subtotal(items[..|items| - 1]) + it.qty * it.price
  }

  /** `subtotal + subtotal * taxPercent / 100`. */
  function GrandTotal(items: seq<Item>, taxPercent: real): real {
    Subtotal(items) + Subtotal(items) * taxPercent / 100.0
  }

  /** Rows that all have a positive quantity and price add up to a positive subtotal. */
  lemma {:induction false} SubtotalPositive(items: seq<Item>)
    requires |items| >= 1
    requires forall i :: 0 <= i < |items| ==> items[i].qty > 0.0 && items[i].price > 0.0
    ensures Subtotal(items) > 0.0
  {
    var it := items[|items| - 1];
    assert it.qty * it.price > 0.0;
    if |items| > 1 {
      SubtotalPositive(items[..|items| - 1]);
    }
  }

  /** `addItem` does not change the totals: the new row's price is 0. */
  lemma AddRowKeepsTotal(f: Form)
    ensures GrandTotal(Apply(f, AddRow).items, f.taxPercent) == GrandTotal(f.items, f.taxPercent)
  {
    var items := f.items + [BlankItem];
    assert items[..|items| - 1] == f.items;
  }

  // ---------------------------------------------------------------- validation

  datatype Refusal = NoCustomer | UnnamedItem | NonPositiveQty | NonPositivePrice | NonPositiveTotal

  predicate SomeUnnamed(items: seq<Item>) {
    exists i :: 0 <= i < |items| && IsBlank(items[i].name)
  }

  predicate SomeQtyNotPositive(items: seq<Item>) {
    exists i :: 0 <= i < |items| && items[i].qty <= 0.0
  }

  predicate SomePriceNotPositive(items: seq<Item>) {
    exists i :: 0 <= i < |items| && items[i].price <= 0.0
  }

  /**
   * The guards of `saveInvoice`, first failure first: no customer, a row whose name is
   * blank, a quantity or a price that is not positive, a total that is not positive.
   */
  function Validate(f: Form): (r: Option<Refusal>)
    ensures r.None? <==> && f.customerId != ""
                         && (forall i :: 0 <= i < |f.items| ==>
                               !IsBlank(f.items[i].name) && f.items[i].qty > 0.0 && f.items[i].price > 0.0)
                         && GrandTotal(f.items, f.taxPercent) > 0.0
    ensures r == Some(NoCustomer) <==> f.customerId == ""
    ensures r == Some(UnnamedItem) <==> f.customerId != "" && SomeUnnamed(f.items)
    ensures r == Some(NonPositiveQty) <==> f.customerId != "" && !SomeUnnamed(f.items) && SomeQtyNotPositive(f.items)
    ensures r == Some(NonPositivePrice) <==>
      f.customerId != "" && !SomeUnnamed(f.items) && !SomeQtyNotPositive(f.items) && SomePriceNotPositive(f.items)
    ensures r == Some(NonPositiveTotal) <==>
      f.customerId != "" && !SomeUnnamed(f.items) && !SomeQtyNotPositive(f.items) && !SomePriceNotPositive(f.items)
      && GrandTotal(f.items, f.taxPercent) <= 0.0
  {
    if f.customerId == "" then Some(NoCustomer)
    else if SomeUnnamed(f.items) then Some(UnnamedItem)
    else if SomeQtyNotPositive(f.items) then Some(NonPositiveQty)
    else if SomePriceNotPositive(f.items) then Some(NonPositivePrice)
    else if GrandTotal(f.items, f.taxPercent) <= 0.0 then Some(NonPositiveTotal)
    else None
  }

  /**
   * With at least one row, the total guard can only fire when the tax is -100% or less:
   * the row guards already make the subtotal positive.
   */
  lemma TotalGuardNeedsNegativeTax(f: Form)
    requires |f.items| >= 1
    requires Validate(f) == Some(NonPositiveTotal)
    ensures f.taxPercent <= -100.0
  {
    SubtotalPositive(f.items);
    if f.taxPercent > -100.0 {
      TaxedPositive(f.items, f.taxPercent);
    }
  }

  /** A positive subtotal with a tax above -100% gives a positive grand total. */
  lemma TaxedPositive(items: seq<Item>, t: real)
    requires Subtotal(items) > 0.0 && t > -100.0
    ensures GrandTotal(items, t) > 0.0
  {
    var s := Subtotal(items);
    var k := 1.0 + t / 100.0;
    assert s + s * t / 100.0 == s * k;
    assert s * k > 0.0;
  }

  /** With no rows every row guard passes and the total guard refuses. */
  lemma NoRowsRefusedByTotal(f: Form)
    requires f.customerId != "" && f.items == []
    ensures Validate(f) == Some(NonPositiveTotal)
  {
  }

  // ---------------------------------------------------------------- payment split

  function Min(a: real, b: real): real {
    if a <= b then a else b
  }

  /** `paymentStatus === "paid" ? grandTotal : Math.min(Number(amountPaid || 0), grandTotal)`. */
  function PaidAmount(f: Form, grand: real): (p: real)
    ensures p <= grand
    ensures f.paymentStatus == "paid" ==> p == grand
  {
    if f.paymentStatus == "paid" then grand else Min(OrZero(f.amountPaid), grand)
  }

  /** `Math.max(0, grandTotal - paidAmt)`. */
  function BalanceDue(grand: real, paid: real): (d: real)
    ensures d >= 0.0 && d >= grand - paid
    ensures d == 0.0 || d == grand - paid
  {
    if grand - paid > 0.0 then grand - paid else 0.0
  }

  /** "draft" for a draft, otherwise derived from how much of the total was paid. */
  function StatusOf(isDraft: bool, paid: real, grand: real): (s: string)
    ensures s in {"draft", "paid", "partial", "pending"}
  {
    if isDraft then "draft"
    else if paid >= grand then "paid"
    else if paid > 0.0 then "partial"
    else "pending"
  }

  /**
   * For a positive total and an amount paid that is not negative, what was paid and what
   * is due add up to the total, and the status names the split.
   */
  lemma PaymentSplit(f: Form, grand: real)
    requires grand > 0.0
    requires f.amountPaid.Some? ==> f.amountPaid.value >= 0.0
    ensures var p := PaidAmount(f, grand);
      && 0.0 <= p <= grand
      && p + BalanceDue(grand, p) == grand
      && (StatusOf(false, p, grand) == "paid" <==> BalanceDue(grand, p) == 0.0)
      && (StatusOf(false, p, grand) == "pending" <==> p == 0.0)
      && (StatusOf(false, p, grand) == "partial" <==> 0.0 < p < grand)
  {
  }

  /**
   * A negative amount typed into the field is not clamped: it is "pending" with more due
   * than the total.
   */
  lemma NegativePaymentInflatesDue(f: Form, grand: real)
    requires grand > 0.0 && f.paymentStatus != "paid"
    requires f.amountPaid.Some? && f.amountPaid.value < 0.0
    ensures var p := PaidAmount(f, grand);
      BalanceDue(grand, p) > grand && StatusOf(false, p, grand) == "pending"
  {
  }

  /** Toggling to "paid" settles the whole total, whatever had been typed. */
  lemma PaidToggleSettles(f: Form, grand: real)
    ensures var g := Apply(f, PaymentToggle("paid"));
      PaidAmount(g, grand) == grand && BalanceDue(grand, PaidAmount(g, grand)) == 0.0 && g.amountPaid.None?
  {
  }

  // ---------------------------------------------------------------- the invoice record

  /** The stored rows: names trimmed, the numbers as typed. */
  function TrimNames(items: seq<Item>): (r: seq<Item>)
    ensures |r| == |items|
    ensures forall i :: 0 <= i < |r| ==> r[i] == Item(Trim(items[i].name), items[i].qty, items[i].price)
  {
    seq(|items|, i requires 0 <= i < |items| => Item(Trim(items[i].name), items[i].qty, items[i].price))
  }

  /** The chosen date at midnight UTC, or the current instant when no date is chosen. */
  function CreatedAt(invoiceDate: string, now: string): string {
    if invoiceDate == "" then now else invoiceDate + "T00:00:00.000Z"
  }

  /** `newInvoice` as `db.invoices.add` writes it. */
  function NewInvoice(f: Form, isDraft: bool, id: string, online: bool, now: string): (inv: Invoice)
    ensures inv.total.Some? && inv.amountPaid.Some? && inv.balanceDue.Some?
    ensures inv.balanceDue.value >= 0.0
    ensures inv.amountPaid.value + inv.balanceDue.value >= inv.total.value
    ensures isDraft <==> inv.status == "draft"
  {
    var grand := GrandTotal(f.items, f.taxPercent);
    var paid := PaidAmount(f, grand);
    Invoice(id, f.customerId, f.invoiceType, TrimNames(f.items), Some(grand), f.taxPercent,
            Some(paid), Some(BalanceDue(grand, paid)), StatusOf(isDraft, paid, grand), Trim(f.notes),
            if online then 1 else 0, false, false, CreatedAt(f.invoiceDate, now))
  }

  /**
   * The record after the whole save: synced only when it was posted, and the WhatsApp
   * message either sent (online and the window opened) or left pending, when one was due.
   */
  function StoredInvoice(f: Form, isDraft: bool, id: string, now: string, online: bool,
                         postOk: bool, notify: bool, waOpenOk: bool): (inv: Invoice)
    ensures inv.synced == 1 <==> online && postOk
    ensures inv.synced == 0 || inv.synced == 1
    ensures notify <==> inv.whatsappSent || inv.whatsappPending
    ensures !(inv.whatsappSent && inv.whatsappPending)
    ensures inv.whatsappSent ==> online
    ensures inv == NewInvoice(f, isDraft, id, online, now).(synced := inv.synced, whatsappSent := inv.whatsappSent,
                                                            whatsappPending := inv.whatsappPending)
  {
    NewInvoice(f, isDraft, id, online, now).(
      synced := if online && postOk then 1 else 0,
      whatsappSent := notify && online && waOpenOk,
      whatsappPending := notify && !(online && waOpenOk))
  }

  function DueOf(inv: Invoice): real {
    OrZero(inv.balanceDue)
  }

  /**
   * `db.customers.update(...)`: the amount due goes on `amountOwed` for a sale and on
   * `sellerDebt` otherwise, drafts included; the customer is marked as having a pending
   * invoice dated the invoice's day, and unsynced. An unknown customer is left alone.
   */
  function BumpCustomer(m: map<string, Customer>, inv: Invoice): (r: map<string, Customer>)
    ensures r.Keys == m.Keys
    ensures forall k :: k in m && k != inv.customerId ==> r[k] == m[k]
    ensures inv.customerId in m ==> var c := m[inv.customerId]; var d := r[inv.customerId];
      && (inv.invoiceType == "selling" ==> OrZero(d.amountOwed) == OrZero(c.amountOwed) + DueOf(inv) && d.sellerDebt == c.sellerDebt)
      && (inv.invoiceType != "selling" ==> OrZero(d.sellerDebt) == OrZero(c.sellerDebt) + DueOf(inv) && d.amountOwed == c.amountOwed)
      && d.hasPendingInvoice && d.lastInvoiceDate == Sorting.Take(inv.createdAt, 10) && d.synced == 0
      && d.id == c.id && d.name == c.name && d.phone == c.phone && d.balance == c.balance
    ensures inv.customerId in m ==> var c := m[inv.customerId]; var day := Sorting.Take(inv.createdAt, 10);
      && (inv.invoiceType == "selling" ==>
            r[inv.customerId] == c.(amountOwed := Some(OrZero(c.amountOwed) + DueOf(inv)),
                                    hasPendingInvoice := true, lastInvoiceDate := day, synced := 0))
      && (inv.invoiceType != "selling" ==>
            r[inv.customerId] == c.(sellerDebt := Some(OrZero(c.sellerDebt) + DueOf(inv)),
                                    hasPendingInvoice := true, lastInvoiceDate := day, synced := 0))
    ensures CustomersKeyed(m) ==> CustomersKeyed(r)
  {
    if inv.customerId !in m then m
    else
      var c := m[inv.customerId];
      var c' := if inv.invoiceType == "selling" then c.(amountOwed := Some(OrZero(c.amountOwed) + DueOf(inv)))
                else c.(sellerDebt := Some(OrZero(c.sellerDebt) + DueOf(inv)));
      m[inv.customerId := c'.(hasPendingInvoice := true, lastInvoiceDate := Sorting.Take(inv.createdAt, 10), synced := 0)]
  }

  /** The balance the screen shows for the chosen customer: "selling" adds, every other type subtracts. */
  function CurrentBalance(rows: seq<LedgerRow>, customerId: string): real {
    if customerId == "" then 0.0 else Ledger.RunningBalance(Postings(rows, customerId))
  }

  /** A row appended for one customer moves that customer's shown balance by its signed amount only. */
  lemma {:induction false} AppendMovesCurrentBalance(rows: seq<LedgerRow>, row: LedgerRow, c: string)
    requires c != ""
    ensures CurrentBalance(rows + [row], c) ==
      CurrentBalance(rows, c) + (if row.customerId != c then 0.0 else if row.kind == "selling" then row.amount else -row.amount)
  {
    var all := rows + [row];
    assert all[..|all| - 1] == rows;
    if row.customerId == c {
      var ps := Postings(rows, c) + [Ledger.Posting(row.kind, row.amount)];
      assert ps[..|ps| - 1] == Postings(rows, c);
    }
  }

  // ---------------------------------------------------------------- WhatsApp

  function PhoneOf(m: map<string, Customer>, id: string): string {
    if id in m then m[id].phone else ""
  }

  /** The message text; `amount` is the total as `toLocaleString("en-IN")` prints it. */
  function InvoiceMessage(kind: string, name: string, amount: string): string {
    if kind == "selling" then "Hi " + name + ", your invoice for ₹" + amount + " has been created. Thank you!"
    else "Hi " + name + ", we have recorded a purchase of ₹" + amount + ". Thank you!"
  }

  /** `https://wa.me/91<digits of the phone>?text=<encoded message>`. */
  function WhatsAppLink(phone: string, message: string, encode: string -> string): (url: string)
    ensures url == "https://wa.me/91" + DigitsOnly(phone) + "?text=" + encode(message)
    ensures forall i :: 16 <= i < 16 + |DigitsOnly(phone)| ==> IsDigit(url[i])
  {
    var url := "https://wa.me/91" + DigitsOnly(phone) + "?text=" + encode(message);
    assert forall i :: 16 <= i < 16 + |DigitsOnly(phone)| ==> url[i] == DigitsOnly(phone)[i - 16];
    url
  }

  // ---------------------------------------------------------------- the posted body

  /** The fields of the `POST /invoices` body that the server reads. */
  function PostBody(inv: Invoice): Models.InvoiceReq {
    Models.InvoiceReq(inv.id, inv.customerId, inv.items, inv.total, inv.status)
  }

  /**
   * A saved invoice passes the server's validators exactly when every quantity is at least
   * 1: the screen accepts any positive quantity, the schema's `min: 1` does not.
   */
  lemma ServerAcceptsIffWholeQuantities(f: Form, isDraft: bool, id: string, online: bool, now: string)
    requires Validate(f).None? && id != ""
    ensures var inv := NewInvoice(f, isDraft, id, online, now);
      Models.InvoiceReqValid(PostBody(inv)) <==> forall i :: 0 <= i < |f.items| ==> f.items[i].qty >= 1.0
  {
    var inv := NewInvoice(f, isDraft, id, online, now);
    var b := PostBody(inv);
    NamedRowsStayNamed(f.items);
    StatusAccepted(inv.status);
    if f.items == [] {
      assert false;
    }
    var t := TrimNames(f.items);
    assert b.items == t && |t| > 0;
    assert b.clientId != "" && b.customerId != "" && b.total.Some? && b.total.value >= 0.0;
    if forall i :: 0 <= i < |f.items| ==> f.items[i].qty >= 1.0 {
      forall i | 0 <= i < |t|
        ensures Models.ItemValid(t[i])
      {
        assert t[i].qty == f.items[i].qty;
      }
    } else {
      var i :| 0 <= i < |f.items| && f.items[i].qty < 1.0;
      assert t[i].qty < 1.0;
      assert !Models.ItemValid(t[i]);
    }
  }

  /** Rows whose names are not blank keep a non-empty name once trimmed. */
  lemma NamedRowsStayNamed(items: seq<Item>)
    requires forall i :: 0 <= i < |items| ==> !IsBlank(items[i].name) && items[i].price > 0.0
    ensures forall i :: 0 <= i < |items| ==> TrimNames(items)[i].name != "" && TrimNames(items)[i].price >= 0.0
  {
  }

  /** Every status the screen derives is one the server's schema accepts. */
  lemma StatusAccepted(s: string)
    requires s in {"draft", "paid", "partial", "pending"}
    ensures Models.InvoiceStatus(Models.StatusOrPending(s))
  {
  }

  /** `createInvoice` ignores the posted `invoiceType`, so the server files a new purchase as a sale. */
  lemma ServerFilesPurchaseAsSale(f: Form, isDraft: bool, id: string, online: bool, now: string, at: string)
    requires f.invoiceType == "buying"
    ensures Models.InvoiceMerge(None, PostBody(NewInvoice(f, isDraft, id, online, now)), at).invoiceType == "selling"
    ensures NewInvoice(f, isDraft, id, online, now).invoiceType == "buying"
  {
  }

  // ---------------------------------------------------------------- saving

  datatype SaveOutcome = Refused(reason: Refusal) | DuplicateId | Saved(invoice: Invoice, whatsAppLink: Option<string>)

  /**
   * `saveInvoice(isDraft)`. `freshId` is `crypto.randomUUID()`, `now` the current
   * instant, `online` the browser's connection flag, `postOk` whether `POST /invoices`
   * succeeded and `waOpenOk` whether opening the WhatsApp window did not throw; `fmt` and
   * `encode` are the number formatting and `encodeURIComponent`.
   */
  method SaveInvoice(db: Db, f: Form, isDraft: bool, freshId: string, now: string, online: bool,
                     postOk: bool, waOpenOk: bool, fmt: real -> string, encode: string -> string)
    returns (outcome: SaveOutcome)
    requires db.Valid()
    modifies db`invoices, db`ledger, db`nextLedgerId, db`customers, db`syncQueue, db`nextQueueId
    ensures db.Valid()
    ensures outcome.Refused? <==> Validate(f).Some?
    ensures outcome.Refused? ==> outcome.reason == Validate(f).value
    ensures outcome.DuplicateId? <==> Validate(f).None? && freshId in old(db.invoices)
    ensures !outcome.Saved? ==> unchanged(db)
    ensures outcome.Saved? ==>
      var notify := f.sendWhatsApp && !isDraft && PhoneOf(old(db.customers), f.customerId) != "";
      var inv := outcome.invoice;
      && inv == StoredInvoice(f, isDraft, freshId, now, online, postOk, notify, waOpenOk)
      && db.invoices == old(db.invoices)[freshId := inv]
      && db.customers == BumpCustomer(old(db.customers), inv)
      && db.ledger == old(db.ledger) + (if isDraft then [] else [InvoiceRow(old(db.nextLedgerId), inv)])
      && db.nextLedgerId == old(db.nextLedgerId) + (if isDraft then 0 else 1)
      && db.syncQueue == old(db.syncQueue) + (if online && postOk then [] else
           [QueueItem(old(db.nextQueueId), "invoice", freshId, "create", now)])
      && db.nextQueueId == old(db.nextQueueId) + (if online && postOk then 0 else 1)
      && outcome.whatsAppLink == (if notify && online then
           Some(WhatsAppLink(PhoneOf(old(db.customers), f.customerId),
                             InvoiceMessage(f.invoiceType, old(db.customers)[f.customerId].name,
                                            fmt(GrandTotal(f.items, f.taxPercent))), encode))
           else None)
    ensures outcome.Saved? && !isDraft ==>
      CurrentBalance(db.ledger, f.customerId) == CurrentBalance(old(db.ledger), f.customerId) +
        (if f.invoiceType == "selling" then DueOf(outcome.invoice) else -DueOf(outcome.invoice))
  {
    var refusal := Validate(f);
    if refusal.Some? {
      return Refused(refusal.value);
    }
    if freshId in db.invoices {
      return DuplicateId;
    }
    var phone := PhoneOf(db.customers, f.customerId);
    var notify := f.sendWhatsApp && !isDraft && phone != "";
    var link: Option<string> := None;
    if notify && online {
      link := Some(WhatsAppLink(phone, InvoiceMessage(f.invoiceType, db.customers[f.customerId].name,
                                                      fmt(GrandTotal(f.items, f.taxPercent))), encode));
    }
    var inv := StoredInvoice(f, isDraft, freshId, now, online, postOk, notify, waOpenOk);
    Commit(db, inv, isDraft, online, postOk, now);
    outcome := Saved(inv, link);
  }

  /**
   * The writes of a save, given the record as it ends up: the invoice (first stored with
   * `synced` set from the connection flag, then updated with the post's outcome and the
   * WhatsApp flags), the ledger row unless it is a draft, the customer's totals, and the
   * post or the queue item.
   */
  method Commit(db: Db, inv: Invoice, isDraft: bool, online: bool, postOk: bool, now: string)
    requires db.Valid() && inv.id !in db.invoices
    modifies db`invoices, db`ledger, db`nextLedgerId, db`customers, db`syncQueue, db`nextQueueId
    ensures db.Valid()
    ensures db.invoices == old(db.invoices)[inv.id := inv]
    ensures db.customers == BumpCustomer(old(db.customers), inv)
    ensures db.ledger == old(db.ledger) + (if isDraft then [] else [InvoiceRow(old(db.nextLedgerId), inv)])
    ensures db.nextLedgerId == old(db.nextLedgerId) + (if isDraft then 0 else 1)
    ensures db.syncQueue == old(db.syncQueue) + (if online && postOk then [] else
              [QueueItem(old(db.nextQueueId), "invoice", inv.id, "create", now)])
    ensures db.nextQueueId == old(db.nextQueueId) + (if online && postOk then 0 else 1)
    ensures !isDraft && inv.customerId != "" ==>
      CurrentBalance(db.ledger, inv.customerId) ==
      CurrentBalance(old(db.ledger), inv.customerId) + (if inv.invoiceType == "selling" then DueOf(inv) else -DueOf(inv))
  {
    db.invoices := db.invoices[inv.id := inv];
    if !isDraft {
      AddInvoiceRow(db, inv);
    }
    db.customers := BumpCustomer(db.customers, inv);
    var synced := PostOrQueue(db, inv.id, online, postOk, now);
  }

  /** The invoice's ledger row: its amount is what is still due, not the total. */
  function InvoiceRow(key: nat, inv: Invoice): LedgerRow {
    LedgerRow(Auto(key), "ledger-" + inv.id, inv.customerId, Some(inv.id), inv.invoiceType, DueOf(inv),
              "", "invoice", 0, inv.createdAt)
  }

  method AddInvoiceRow(db: Db, inv: Invoice)
    requires db.Valid()
    modifies db`ledger, db`nextLedgerId
    ensures db.Valid()
    ensures db.ledger == old(db.ledger) + [InvoiceRow(old(db.nextLedgerId), inv)]
    ensures db.nextLedgerId == old(db.nextLedgerId) + 1
    ensures inv.customerId != "" ==>
      CurrentBalance(db.ledger, inv.customerId) ==
      CurrentBalance(old(db.ledger), inv.customerId) + (if inv.invoiceType == "selling" then DueOf(inv) else -DueOf(inv))
  {
    var row := db.AddLedgerRow("ledger-" + inv.id, inv.customerId, Some(inv.id), inv.invoiceType, DueOf(inv),
                               "", "invoice", inv.createdAt);
    if inv.customerId != "" {
      AppendMovesCurrentBalance(old(db.ledger), row, inv.customerId);
    }
  }

  /**
   * Offline the invoice is queued; online it is posted, and a failed post queues it
   * instead. Returns the `synced` flag the invoice ends with.
   */
  method PostOrQueue(db: Db, id: string, online: bool, postOk: bool, now: string) returns (synced: int)
    requires db.Valid()
    modifies db`syncQueue, db`nextQueueId
    ensures db.Valid()
    ensures synced == if online && postOk then 1 else 0
    ensures db.syncQueue == old(db.syncQueue) + (if online && postOk then [] else [QueueItem(old(db.nextQueueId), "invoice", id, "create", now)])
    ensures db.nextQueueId == old(db.nextQueueId) + (if online && postOk then 0 else 1)
  {
    if online && postOk {
      synced := 1;
    } else {
      SyncManagerV1.Enqueue(db, "invoice", id, "create", now);
      synced := 0;
    }
  }

  /** A saved draft raises what the customer owes without a ledger row to show for it. */
  lemma DraftOwesWithoutLedger(m: map<string, Customer>, f: Form, id: string, online: bool, now: string)
    requires f.invoiceType == "selling" && f.customerId in m
    ensures var inv := NewInvoice(f, true, id, online, now);
      OrZero(BumpCustomer(m, inv)[f.customerId].amountOwed) == OrZero(m[f.customerId].amountOwed) + DueOf(inv)
      && inv.status == "draft"
  {
  }

  // ---------------------------------------------------------------- voice auto-fill

  /** The fields of the language model's answer the screen reads; an absent string is "". */
  datatype AiResult = AiResult(transactionType: string, partyName: string, itemName: string,
                               quantity: Option<real>, amount: Option<real>)

  /** The words removed from names before matching, in the order the pattern tries them. */
  const Honorifics: seq<string> := ["sir", "anna", "amma", "madam", "bhai", "boss", "akka", "mr", "mrs", "bro"]

  /** The first honorific, in pattern order, that `s` starts with. */
  function HonorificAt(s: string, k: nat): (r: Option<nat>)
    requires k <= |Honorifics|
    ensures r.Some? ==> k <= r.value < |Honorifics| && StartsWith(s, Honorifics[r.value]) && |Honorifics[r.value]| >= 2
    ensures r.Some? ==> forall j :: k <= j < r.value ==> !StartsWith(s, Honorifics[j])
    ensures r.None? ==> forall j :: k <= j < |Honorifics| ==> !StartsWith(s, Honorifics[j])
    decreases |Honorifics| - k
  {
    if k == |Honorifics| then None
    else if StartsWith(s, Honorifics[k]) then Some(k)
    else HonorificAt(s, k + 1)
  }

  /**
   * `replace(/(sir|anna|...|bro)/g, "")`: scanning left to right, at each position the
   * first alternative that matches is removed and the scan resumes after it.
   */
  function StripHonorifics(s: string): (r: string)
    ensures |r| <= |s|
    ensures forall c :: c in r ==> c in s
    decreases |s|
  {
    if s == [] then []
    else match HonorificAt(s, 0)
      case Some(k) =>
        var rest := s[|Honorifics[k]|..];
        assert forall c :: c in rest ==> c in s;
        StripHonorifics(rest)
      case None =>
        assert forall c :: c in s[1..] ==> c in s;
        [s[0]] + StripHonorifics(s[1..])
  }

  /** The screen's `norm`: lower case, honorifics removed, whitespace runs collapsed, trimmed. */
  function Norm(s: string): string {
    Trim(CollapseSpaces(StripHonorifics(ToLower(s))))
  }

  lemma {:induction false} CollapseKeepsChars(s: string)
    ensures forall c :: c in CollapseSpaces(s) ==> c == ' ' || c in s
    decreases |s|
  {
    if s != [] {
      if IsSpace(s[0]) {
        var t := TrimStart(s);
        CollapseKeepsChars(t);
        assert forall c :: c in t ==> c in s;
      } else {
        CollapseKeepsChars(s[1..]);
        assert forall c :: c in s[1..] ==> c in s;
      }
    }
  }

  /** A string made of spaces and characters of a string without upper case has none either. */
  lemma CharsFrom(a: string, b: string)
    requires NoUpper(b)
    requires forall c :: c in a ==> c == ' ' || c in b
    ensures NoUpper(a)
  {
    forall j | 0 <= j < |a|
      ensures !IsUpper(a[j])
    {
      assert a[j] in a;
      if a[j] != ' ' {
        var k :| 0 <= k < |b| && b[k] == a[j];
      }
    }
  }

  lemma TrimKeepsChars(s: string)
    ensures forall c :: c in Trim(s) ==> c in s
  {
    var i := TrimIsInfix(s);
    assert forall c :: c in s[i..i + |Trim(s)|] ==> c in s;
  }

  /** The lowercased name with its honorifics removed and its spaces collapsed has no upper-case letter. */
  lemma CollapsedLower(s: string)
    ensures NoUpper(CollapseSpaces(StripHonorifics(ToLower(s))))
  {
    ToLowerIsLower(s);
    var stripped := StripHonorifics(ToLower(s));
    CharsFrom(stripped, ToLower(s));
    CollapseKeepsChars(stripped);
    CharsFrom(CollapseSpaces(stripped), stripped);
  }

  lemma NormNoUpper(s: string)
    ensures NoUpper(Norm(s))
  {
    var collapsed := CollapseSpaces(StripHonorifics(ToLower(s)));
    CollapsedLower(s);
    TrimKeepsChars(collapsed);
    CharsFrom(Trim(collapsed), collapsed);
  }

  lemma NormCollapsed(s: string)
    ensures SpacesCollapsed(Norm(s))
  {
    TrimCollapsed(CollapseSpaces(StripHonorifics(ToLower(s))));
  }

  /** A normalised name has no upper-case letter, no run of whitespace and nothing to trim. */
  lemma NormShape(s: string)
    ensures NoUpper(Norm(s)) && SpacesCollapsed(Norm(s)) && Trim(Norm(s)) == Norm(s)
  {
    NormNoUpper(s);
    NormCollapsed(s);
    TrimIdempotent(CollapseSpaces(StripHonorifics(ToLower(s))));
  }

  /** `name === query || name.includes(query) || query.includes(name)`. */
  predicate NameMatches(name: string, query: string) {
    name == query || Contains(name, query) || Contains(query, name)
  }

  predicate Matches(c: Customer, query: string) {
    NameMatches(Norm(c.name), query)
  }

  /** The position of the first element satisfying `p`. */
  function FirstWhere<T>(xs: seq<T>, p: T -> bool): (r: Option<nat>)
    ensures r.Some? ==> r.value < |xs| && p(xs[r.value])
    ensures r.Some? ==> forall j :: 0 <= j < r.value ==> !p(xs[j])
    ensures r.None? <==> forall j :: 0 <= j < |xs| ==> !p(xs[j])
  {
    if xs == [] then None
    else if p(xs[0]) then Some(0)
    else match FirstWhere(xs[1..], p)
      case None =>
        assert forall j :: 1 <= j < |xs| ==> xs[j] == xs[1..][j - 1];
        None
      case Some(i) =>
        assert forall j :: 1 <= j <= i ==> xs[j] == xs[1..][j - 1];
        Some(i + 1)
  }

  /** `list.find(...)`: the position of the first contact whose normalised name matches. */
  function FindMatch(list: seq<Customer>, query: string): Option<nat> {
    FirstWhere(list, (c: Customer) => Matches(c, query))
  }

  lemma FindMatchIsFirst(list: seq<Customer>, query: string)
    ensures var r := FindMatch(list, query);
      && (r.Some? ==> r.value < |list| && Matches(list[r.value], query))
      && (r.Some? ==> forall j :: 0 <= j < r.value ==> !Matches(list[j], query))
      && (r.None? <==> forall j :: 0 <= j < |list| ==> !Matches(list[j], query))
  {
    var p := (c: Customer) => Matches(c, query);
    var r := FirstWhere(list, p);
    assert forall j :: 0 <= j < |list| ==> p(list[j]) == Matches(list[j], query);
  }

  /**
   * A contact saved as "Anna" (a name that is also an honorific) normalises to nothing,
   * and an empty name occurs in every query, so that contact matches every spoken name.
   */
  lemma HonorificNameMatchesEveryone(q: string)
    ensures Norm("Anna") == ""
    ensures NameMatches(Norm("Anna"), q)
  {
    assert ToLower("Anna") == "anna";
    assert StartsWith("anna", Honorifics[1]);
    assert HonorificAt("anna", 0) == Some(1);
    assert StripHonorifics("anna") == "";
    assert CollapseSpaces("") == "";
    ContainsEmpty(q);
  }

  /** `result.quantity || 1`: an absent or zero number falls back to the default. */
  function NumberOr(x: Option<real>, d: real): (r: real)
    ensures x.Some? && x.value != 0.0 ==> r == x.value
    ensures x.None? || x.value == 0.0 ==> r == d
  {
    if x.None? || x.value == 0.0 then d else x.value
  }

  /**
   * The focused row (clamped to the last row) replaced by the answer's item; with no row
   * at all nothing changes.
   */
  function FillRow(items: seq<Item>, active: nat, r: AiResult): (res: seq<Item>)
    ensures |res| == |items|
    ensures items != [] ==> var idx := if active < |items| then active else |items| - 1;
      && res[idx] == Item(r.itemName, NumberOr(r.quantity, 1.0), NumberOr(r.amount, 0.0))
      && forall j :: 0 <= j < |items| && j != idx ==> res[j] == items[j]
  {
    if items == [] then items
    else
      var idx := if active < |items| then active else |items| - 1;
      items[idx := Item(r.itemName, NumberOr(r.quantity, 1.0), NumberOr(r.amount, 0.0))]
  }

  /** The contact a spoken party name selects; no name, or no match, keeps the current one. */
  function PickCustomer(current: string, partyName: string, contacts: seq<Customer>): (id: string)
    ensures partyName == "" || FindMatch(contacts, Norm(partyName)).None? ==> id == current
    ensures partyName != "" && FindMatch(contacts, Norm(partyName)).Some? ==>
      id == contacts[FindMatch(contacts, Norm(partyName)).value].id
  {
    if partyName == "" then current
    else match FindMatch(contacts, Norm(partyName))
      case None => current
      case Some(i) => contacts[i].id
  }

  /**
   * `processAIResult`: a party name picks the first matching contact and otherwise leaves
   * the customer alone; unless the answer is a payment, the focused row is filled. The
   * invoice type is never touched. The flag says whether the screen moves to the payments
   * page.
   */
  function ApplyAi(f: Form, r: AiResult, contacts: seq<Customer>): (res: (Form, bool))
    ensures res.1 <==> ToLower(r.transactionType) == "payment"
    ensures res.0.invoiceType == f.invoiceType && res.0.paymentStatus == f.paymentStatus
    ensures res.0.taxPercent == f.taxPercent && res.0.activeItem == f.activeItem
    ensures r.partyName == "" || FindMatch(contacts, Norm(r.partyName)).None? ==> res.0.customerId == f.customerId
    ensures r.partyName != "" && FindMatch(contacts, Norm(r.partyName)).Some? ==>
      res.0.customerId == contacts[FindMatch(contacts, Norm(r.partyName)).value].id
    ensures res.1 ==> res.0.items == f.items
    ensures !res.1 ==> res.0.items == FillRow(f.items, f.activeItem, r)
  {
    var toPayments := ToLower(r.transactionType) == "payment";
    (f.(customerId := PickCustomer(f.customerId, r.partyName, contacts),
        items := if toPayments then f.items else FillRow(f.items, f.activeItem, r)),
     toPayments)
  }
}
