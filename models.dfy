/**
 * The server's Mongoose schemas: the stored documents, the constraints the schema
 * validators enforce (as validity predicates), and the documents an upsert or a create
 * builds, with the schema defaults filled in.
 *
 * Every schema has `timestamps: true`; the model keeps `createdAt` (set on insert, never
 * changed) and omits `updatedAt`.
 */
module Models {
  import opened Wrappers
  import opened Text
  import opened LineItem
  import Upsert

  datatype CustomerDoc = CustomerDoc(
    clientId: string, name: string, phone: string, address: string,
    balance: real, status: string, createdAt: string)

  datatype InvoiceDoc = InvoiceDoc(
    clientId: string, customerId: string, invoiceType: string, items: seq<Item>,
    total: real, taxPercent: real, amountPaid: real, balanceDue: real,
    status: string, notes: string, synced: bool, whatsappSent: bool, createdAt: string)

  datatype LedgerDoc = LedgerDoc(
    clientId: string, customerId: string, kind: string, amount: real,
    description: string, source: string, invoiceId: Option<string>, createdAt: string)

  datatype PaymentDoc = PaymentDoc(
    clientId: string, customerId: string, customerName: string, invoiceId: Option<string>,
    amount: real, paymentMethod: string, note: string, date: string, synced: bool, createdAt: string)

  /** A field declared with `trim: true` is stored trimmed. */
  predicate Trimmed(s: string) {
    Trim(s) == s
  }

  // ---------------------------------------------------------------- Customer

  predicate CustomerDocValid(d: CustomerDoc) {
    && d.clientId != ""
    && d.name != "" && Trimmed(d.name)
    && Trimmed(d.phone) && Trimmed(d.address)
    && d.status in {"active", "inactive"}
  }

  /** The fields `createCustomer` and `syncAll` send to `findOneAndUpdate`. */
  datatype CustomerReq = CustomerReq(clientId: string, name: string, phone: string, address: string)

  /** The update validators: a key, and a name that is not empty once trimmed. */
  predicate CustomerReqValid(r: CustomerReq) {
    r.clientId != "" && Trim(r.name) != ""
  }

  function CustomerKey(r: CustomerReq): string {
    r.clientId
  }

  /**
   * The document after the upsert: the request's fields, trimmed, over the stored document;
   * on insert the schema defaults (balance 0, status "active") and the insert time.
   */
  function CustomerMerge(o: Option<CustomerDoc>, r: CustomerReq, now: string): (d: CustomerDoc)
    ensures d.clientId == r.clientId && d.name == Trim(r.name)
    ensures d.phone == Trim(r.phone) && d.address == Trim(r.address)
    ensures o.None? ==> d.balance == 0.0 && d.status == "active" && d.createdAt == now
    ensures o.Some? ==> d.balance == o.value.balance && d.status == o.value.status && d.createdAt == o.value.createdAt
  {
    match o
    case None => CustomerDoc(r.clientId, Trim(r.name), Trim(r.phone), Trim(r.address), 0.0, "active", now)
    case Some(c) => c.(clientId := r.clientId, name := Trim(r.name), phone := Trim(r.phone), address := Trim(r.address))
  }

  function CustomerPolicy(): Upsert.Policy<CustomerReq, CustomerDoc> {
    Upsert.Policy(CustomerKey, CustomerReqValid, CustomerMerge)
  }

  lemma CustomerPolicyOverwrites()
    ensures Upsert.Overwrites(CustomerPolicy())
  {
  }

  /** An accepted upsert leaves a document that satisfies the schema. */
  lemma CustomerMergeValid(o: Option<CustomerDoc>, r: CustomerReq, now: string)
    requires CustomerReqValid(r)
    requires o.Some? ==> CustomerDocValid(o.value)
    ensures CustomerDocValid(CustomerMerge(o, r, now))
  {
    TrimIdempotent(r.name);
    TrimIdempotent(r.phone);
    TrimIdempotent(r.address);
  }

  /** No two customers share a non-empty phone. */
  ghost predicate PhonesUnique(m: map<string, CustomerDoc>) {
    forall a, b :: a in m && b in m && a != b && m[a].phone != "" ==> m[a].phone != m[b].phone
  }

  /**
   * The `pre("save")` hook: a document whose trimmed phone is non-empty is refused when
   * another customer already has that phone.
   */
  predicate PhoneHookAccepts(m: map<string, CustomerDoc>, d: CustomerDoc) {
    Trim(d.phone) == "" || forall k :: k in m && k != d.clientId ==> m[k].phone != Trim(d.phone)
  }

  /** Saving through the hook keeps non-empty phones unique; empty phones may repeat. */
  lemma SaveKeepsPhonesUnique(m: map<string, CustomerDoc>, d: CustomerDoc)
    requires PhonesUnique(m) && CustomersKeyed(m)
    requires Trimmed(d.phone) && PhoneHookAccepts(m, d)
    ensures PhonesUnique(m[d.clientId := d])
  {
  }

  lemma EmptyPhoneAlwaysAccepted(m: map<string, CustomerDoc>, d: CustomerDoc)
    requires IsBlank(d.phone)
    ensures PhoneHookAccepts(m, d)
  {
  }

  predicate CustomersKeyed(m: map<string, CustomerDoc>) {
    forall k :: k in m ==> m[k].clientId == k
  }

  // ---------------------------------------------------------------- Invoice

  predicate ItemValid(it: Item) {
    it.name != "" && it.qty >= 1.0 && it.price >= 0.0
  }

  predicate InvoiceStatus(s: string) {
    s in {"pending", "paid", "partial", "draft", "overdue"}
  }

  predicate InvoiceDocValid(d: InvoiceDoc) {
    && d.clientId != "" && d.customerId != ""
    && d.invoiceType in {"selling", "buying"}
    && |d.items| > 0 && (forall i :: 0 <= i < |d.items| ==> ItemValid(d.items[i]))
    && d.total >= 0.0 && d.taxPercent >= 0.0 && d.amountPaid >= 0.0 && d.balanceDue >= 0.0
    && InvoiceStatus(d.status)
    && Trimmed(d.notes)
  }

  /** The fields `createInvoice` and `syncAll` send; `total` may be absent. */
  datatype InvoiceReq = InvoiceReq(clientId: string, customerId: string, items: seq<Item>, total: Option<real>, status: string)

  /** `status || "pending"`. */
  function StatusOrPending(s: string): (r: string)
    ensures r != ""
    ensures s != "" ==> r == s
  {
    if s == "" then "pending" else s
  }

  /** The update validators for the fields the upsert sets. */
  predicate InvoiceReqValid(r: InvoiceReq) {
    && r.clientId != "" && r.customerId != ""
    && |r.items| > 0 && (forall i :: 0 <= i < |r.items| ==> ItemValid(r.items[i]))
    && r.total.Some? && r.total.value >= 0.0
    && InvoiceStatus(StatusOrPending(r.status))
  }

  function InvoiceKey(r: InvoiceReq): string {
    r.clientId
  }

  /**
   * The request's fields, with `status || "pending"` and `synced: true`, over the stored
   * invoice; on insert the schema defaults for every other field.
   */
  function InvoiceMerge(o: Option<InvoiceDoc>, r: InvoiceReq, now: string): (d: InvoiceDoc)
    ensures d.clientId == r.clientId && d.customerId == r.customerId && d.items == r.items
    ensures d.total == OrZero(r.total) && d.status == StatusOrPending(r.status) && d.synced
    ensures o.None? ==> && d.invoiceType == "selling" && d.taxPercent == 0.0 && d.amountPaid == 0.0
                        && d.balanceDue == 0.0 && d.notes == "" && !d.whatsappSent && d.createdAt == now
    ensures o.Some? ==> && d.invoiceType == o.value.invoiceType && d.taxPercent == o.value.taxPercent
                        && d.amountPaid == o.value.amountPaid && d.balanceDue == o.value.balanceDue
                        && d.notes == o.value.notes && d.whatsappSent == o.value.whatsappSent
                        && d.createdAt == o.value.createdAt
  {
    match o
    case None =>
      InvoiceDoc(r.clientId, r.customerId, "selling", r.items, OrZero(r.total), 0.0, 0.0, 0.0,
                 StatusOrPending(r.status), "", true, false, now)
    case Some(v) =>
      v.(clientId := r.clientId, customerId := r.customerId, items := r.items, total := OrZero(r.total),
         status := StatusOrPending(r.status), synced := true)
  }

  function InvoicePolicy(): Upsert.Policy<InvoiceReq, InvoiceDoc> {
    Upsert.Policy(InvoiceKey, InvoiceReqValid, InvoiceMerge)
  }

  lemma InvoicePolicyOverwrites()
    ensures Upsert.Overwrites(InvoicePolicy())
  {
  }

  lemma InvoiceMergeValid(o: Option<InvoiceDoc>, r: InvoiceReq, now: string)
    requires InvoiceReqValid(r)
    requires o.Some? ==> InvoiceDocValid(o.value)
    ensures InvoiceDocValid(InvoiceMerge(o, r, now))
  {
    assert Trim([]) == [];
  }

  // ---------------------------------------------------------------- LedgerEntry

  predicate LedgerDocValid(d: LedgerDoc) {
    && d.clientId != "" && d.customerId != ""
    && d.kind in {"credit", "debit", "selling", "buying"}
    && d.amount >= 0.0
    && Trimmed(d.description) && Trimmed(d.source)
  }

  /**
   * `LedgerEntry.create(...)` without a `source`: the description trimmed, the default
   * source "invoice", and an absent invoice reference stored as null. Refused when a
   * validator fails.
   */
  function NewLedgerDoc(clientId: string, customerId: string, kind: string, amount: real,
                        description: string, invoiceId: Option<string>, now: string): (r: Option<LedgerDoc>)
    ensures r.Some? <==> clientId != "" && customerId != "" && kind in {"credit", "debit", "selling", "buying"} && amount >= 0.0
    ensures r.Some? ==> LedgerDocValid(r.value)
    ensures r.Some? ==> r.value == LedgerDoc(clientId, customerId, kind, amount, Trim(description), "invoice", invoiceId, now)
  {
    TrimIdempotent(description);
    assert Trimmed("invoice");
    if clientId != "" && customerId != "" && kind in {"credit", "debit", "selling", "buying"} && amount >= 0.0 then
      Some(LedgerDoc(clientId, customerId, kind, amount, Trim(description), "invoice", invoiceId, now))
    else
      None
  }

  // ---------------------------------------------------------------- Payment

  predicate PaymentMethod(m: string) {
    m in {"Cash", "UPI", "Bank Transfer"}
  }

  predicate PaymentDocValid(d: PaymentDoc) {
    && d.clientId != "" && d.customerId != ""
    && d.amount >= 0.0
    && PaymentMethod(d.paymentMethod)
    && Trimmed(d.customerName) && Trimmed(d.note)
  }

  /** A plain payment object as a client sends it; absent fields are `None`. */
  datatype PaymentReq = PaymentReq(
    clientId: string, customerId: string, customerName: Option<string>, invoiceId: Option<string>,
    amount: Option<real>, paymentMethod: Option<string>, note: Option<string>, date: Option<string>,
    synced: Option<bool>)

  /**
   * `new Payment(body)` and its validation: the schema defaults (name and note "", no
   * invoice, method "Cash", today's date, synced true) fill the absent fields. `today`
   * is the first ten characters of the server clock's ISO string.
   */
  function NewPaymentDoc(r: PaymentReq, today: string, now: string): (d: Option<PaymentDoc>)
    ensures d.Some? <==> && r.clientId != "" && r.customerId != ""
                         && r.amount.Some? && r.amount.value >= 0.0
                         && PaymentMethod(r.paymentMethod.GetOr("Cash"))
    ensures d.Some? ==> PaymentDocValid(d.value)
    ensures d.Some? ==> && d.value.clientId == r.clientId && d.value.customerId == r.customerId
                        && d.value.amount == r.amount.value
                        && d.value.customerName == Trim(r.customerName.GetOr(""))
                        && d.value.invoiceId == r.invoiceId
                        && d.value.paymentMethod == r.paymentMethod.GetOr("Cash")
                        && d.value.note == Trim(r.note.GetOr(""))
                        && d.value.date == r.date.GetOr(today)
                        && d.value.synced == r.synced.GetOr(true)
                        && d.value.createdAt == now
  {
    TrimIdempotent(r.customerName.GetOr(""));
    TrimIdempotent(r.note.GetOr(""));
    if && r.clientId != "" && r.customerId != ""
       && r.amount.Some? && r.amount.value >= 0.0
       && PaymentMethod(r.paymentMethod.GetOr("Cash"))
    then
      Some(PaymentDoc(r.clientId, r.customerId, Trim(r.customerName.GetOr("")), r.invoiceId,
                      r.amount.value, r.paymentMethod.GetOr("Cash"), Trim(r.note.GetOr("")),
                      r.date.GetOr(today), r.synced.GetOr(true), now))
    else
      None
  }
}
