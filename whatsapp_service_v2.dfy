/**
 * The client's WhatsApp gate: a message may go out only for an invoice the server has,
 * and only once. The server path marks the invoice sent locally; the offline fallback
 * only opens a link and marks nothing.
 */
module WhatsAppServiceV2 {
  import opened Wrappers
  import opened Text
  import opened LocalDb
  import WhatsAppService

  /** `canSendWhatsApp(invoice)`. */
  predicate CanSendWhatsApp(inv: Option<Invoice>) {
    inv.Some? && inv.value.synced != 0 && !inv.value.whatsappSent
  }

  datatype Variant = Info | Success | Warning

  datatype Reason = NoInvoice | SentAlready | Unsynced | ReadyToSend

  datatype WhatsAppStatus = WhatsAppStatus(allowed: bool, reason: Reason, variant: Variant)

  /** `getWhatsAppStatus(invoice)`: no invoice, then already sent, then unsynced, else allowed. */
  function GetWhatsAppStatus(inv: Option<Invoice>): (s: WhatsAppStatus)
    ensures s.reason == NoInvoice <==> inv.None?
    ensures s.reason == SentAlready <==> inv.Some? && inv.value.whatsappSent
    ensures s.reason == Unsynced <==> inv.Some? && !inv.value.whatsappSent && inv.value.synced == 0
    ensures s.allowed <==> s.reason == ReadyToSend
    ensures s.variant == Warning <==> s.reason == Unsynced
    ensures s.variant == Info <==> s.reason == NoInvoice
  {
    if inv.None? then WhatsAppStatus(false, NoInvoice, Info)
    else if inv.value.whatsappSent then WhatsAppStatus(false, SentAlready, Success)
    else if inv.value.synced == 0 then WhatsAppStatus(false, Unsynced, Warning)
    else WhatsAppStatus(true, ReadyToSend, Success)
  }

  /** The status the screen shows allows a send exactly when `canSendWhatsApp` does. */
  lemma StatusAgreesWithGate(inv: Option<Invoice>)
    ensures GetWhatsAppStatus(inv).allowed <==> CanSendWhatsApp(inv)
  {
  }

  datatype Refusal = NotSynced | AlreadySent | NoPhone

  /** How a send ended: refused, sent through the server, or opened as a local link. */
  datatype SendResult = Refused(why: Refusal) | ServerSent(url: Option<string>) | LocalLink(link: string)

  /** `generateLocalWhatsAppLink(invoice, customer)`: the same message as the server's, to the digits of the phone. */
  function LocalLinkUrl(inv: Invoice, phone: string, fmt: real -> string, encode: string -> string): (url: string)
    ensures url == WhatsAppService.SendWhatsAppInvoice(phone,
      WhatsAppService.InvoiceData(inv.id, inv.items, OrZero(inv.total), inv.status), fmt, encode).url
  {
    var message := WhatsAppService.Message(WhatsAppService.InvoiceData(inv.id, inv.items, OrZero(inv.total), inv.status), fmt);
    "https://wa.me/" + DigitsOnly(phone) + "?text=" + encode(message)
  }

  /** The local write of the server path: `db.invoices.update(id, { whatsappSent: true })`. */
  function MarkSent(m: map<string, Invoice>, id: string): (r: map<string, Invoice>)
    ensures r.Keys == m.Keys
    ensures forall k :: k in m && k != id ==> r[k] == m[k]
    ensures id in m ==> r[id] == m[id].(whatsappSent := true)
    ensures InvoicesKeyed(m) ==> InvoicesKeyed(r)
  {
    if id in m then m[id := m[id].(whatsappSent := true)] else m
  }

  /**
   * `sendWhatsAppIfSynced(invoice, customer)`. `online` is `navigator.onLine`; `server` is
   * what the server call returned, the url it carries (`None` when null), or `None` when
   * it threw, in which case the local link is used.
   */
  method SendWhatsAppIfSynced(db: Db, invoice: Invoice, customer: Option<Customer>, online: bool,
                              server: Option<Option<string>>, fmt: real -> string, encode: string -> string)
    returns (result: SendResult)
    requires db.Valid()
    modifies db`invoices
    ensures db.Valid()
    ensures result == Refused(NotSynced) <==> invoice.synced == 0
    ensures result == Refused(AlreadySent) <==> invoice.synced != 0 && invoice.whatsappSent
    ensures result == Refused(NoPhone) <==>
      invoice.synced != 0 && !invoice.whatsappSent && (customer.None? || customer.value.phone == "")
    ensures result.ServerSent? <==> !result.Refused? && online && server.Some?
    ensures result.ServerSent? ==> result.url == server.value && db.invoices == MarkSent(old(db.invoices), invoice.id)
    ensures result.LocalLink? ==> result.link == LocalLinkUrl(invoice, customer.value.phone, fmt, encode)
    ensures !result.ServerSent? ==> db.invoices == old(db.invoices)
  {
    if invoice.synced == 0 {
      return Refused(NotSynced);
    }
    if invoice.whatsappSent {
      return Refused(AlreadySent);
    }
    if customer.None? || customer.value.phone == "" {
      return Refused(NoPhone);
    }
    if online && server.Some? {
      db.invoices := MarkSent(db.invoices, invoice.id);
      return ServerSent(server.value);
    }
    result := LocalLink(LocalLinkUrl(invoice, customer.value.phone, fmt, encode));
  }

  /**
   * The screen's status and the send check their guards in different orders: for an
   * invoice that is both unsynced and already sent, the status says "already sent" while
   * the send refuses it as unsynced.
   */
  lemma GuardOrdersDiffer(inv: Invoice)
    requires inv.synced == 0 && inv.whatsappSent
    ensures GetWhatsAppStatus(Some(inv)).reason == SentAlready
    ensures !CanSendWhatsApp(Some(inv))
  {
  }

  /** A send that gets past the guards is one the gate allows. */
  lemma SendPastGuardsIsAllowed(inv: Invoice)
    requires inv.synced != 0 && !inv.whatsappSent
    ensures CanSendWhatsApp(Some(inv))
    ensures !CanSendWhatsApp(Some(inv.(whatsappSent := true)))
  {
  }
}
