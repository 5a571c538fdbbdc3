/**
 * `POST /api/send-whatsapp`: the guard chain in front of the link builder, and the one
 * write it makes, `whatsappSent = true` on the invoice.
 */
module WhatsAppController {
  import opened Models
  import opened ServerDb
  import WhatsAppService
  import Text

  datatype Refusal = MissingId | NotSynced | NoPhone

  /** 400, 404, 200 with a null url, and 200 with the link. */
  datatype Reply = BadRequest(reason: Refusal) | NotFound | AlreadySent | Ready(url: string)

  /** The customer's phone, "" when the customer is unknown. */
  function PhoneOf(customers: map<string, CustomerDoc>, clientId: string): string {
    if clientId in customers then customers[clientId].phone else ""
  }

  /** The reply to a request for `invoiceClientId`, checked in the controller's order. */
  function Decide(s: ServerState, id: string, fmt: real -> string, encode: string -> string): (r: Reply)
    ensures r == BadRequest(MissingId) <==> id == ""
    ensures r == NotFound <==> id != "" && id !in s.invoices
    ensures r == BadRequest(NotSynced) <==> id != "" && id in s.invoices && !s.invoices[id].synced
    ensures r == AlreadySent <==> id != "" && id in s.invoices && s.invoices[id].synced && s.invoices[id].whatsappSent
    ensures r == BadRequest(NoPhone) <==>
      id != "" && id in s.invoices && s.invoices[id].synced && !s.invoices[id].whatsappSent
      && PhoneOf(s.customers, s.invoices[id].customerId) == ""
    ensures r.Ready? ==> var inv := s.invoices[id];
      r.url == WhatsAppService.SendWhatsAppInvoice(PhoneOf(s.customers, inv.customerId),
                 WhatsAppService.InvoiceData(inv.clientId, inv.items, inv.total, inv.status), fmt, encode).url
  {
    if id == "" then BadRequest(MissingId)
    else if id !in s.invoices then NotFound
    else
      var inv := s.invoices[id];
      if !inv.synced then BadRequest(NotSynced)
      else if inv.whatsappSent then AlreadySent
      else
        var phone := PhoneOf(s.customers, inv.customerId);
        if phone == "" then BadRequest(NoPhone)
        else Ready(WhatsAppService.SendWhatsAppInvoice(phone, WhatsAppService.InvoiceData(inv.clientId, inv.items, inv.total, inv.status), fmt, encode).url)
  }

  /** The state after the request: only a `Ready` reply marks the invoice sent. */
  function After(s: ServerState, id: string, fmt: real -> string, encode: string -> string): (t: ServerState)
    ensures t.customers == s.customers && t.ledger == s.ledger && t.invoices.Keys == s.invoices.Keys
    ensures !Decide(s, id, fmt, encode).Ready? ==> t == s
    ensures Decide(s, id, fmt, encode).Ready? ==> t.invoices == s.invoices[id := s.invoices[id].(whatsappSent := true)]
  {
    if Decide(s, id, fmt, encode).Ready? then s.(invoices := s.invoices[id := s.invoices[id].(whatsappSent := true)]) else s
  }

  /** `sendWhatsApp(req, res)`. */
  method SendWhatsApp(store: Store, id: string, fmt: real -> string, encode: string -> string) returns (reply: Reply)
    requires store.Valid()
    modifies store`invoices
    ensures store.Valid()
    ensures reply == Decide(old(store.State()), id, fmt, encode)
    ensures store.State() == After(old(store.State()), id, fmt, encode)
  {
    if id == "" {
      return BadRequest(MissingId);
    }
    if id !in store.invoices {
      return NotFound;
    }
    var inv := store.invoices[id];
    if !inv.synced {
      return BadRequest(NotSynced);
    }
    if inv.whatsappSent {
      return AlreadySent;
    }
    var phone := PhoneOf(store.customers, inv.customerId);
    if phone == "" {
      return BadRequest(NoPhone);
    }
    var link := WhatsAppService.SendWhatsAppInvoice(phone, WhatsAppService.InvoiceData(inv.clientId, inv.items, inv.total, inv.status), fmt, encode);
    store.MarkWhatsAppSent(id);
    reply := Ready(link.url);
  }

  /** After a link was handed out, the same request takes the already-sent branch and writes nothing. */
  lemma SecondRequestAlreadySent(s: ServerState, id: string, fmt: real -> string, encode: string -> string)
    requires Decide(s, id, fmt, encode).Ready?
    ensures Decide(After(s, id, fmt, encode), id, fmt, encode) == AlreadySent
    ensures After(After(s, id, fmt, encode), id, fmt, encode) == After(s, id, fmt, encode)
  {
  }

  /** Whatever the request, a refused invoice keeps `whatsappSent` as it was, and none is ever unmarked. */
  lemma SentFlagOnlyRises(s: ServerState, id: string, fmt: real -> string, encode: string -> string)
    ensures forall k :: k in s.invoices && s.invoices[k].whatsappSent ==> After(s, id, fmt, encode).invoices[k].whatsappSent
    ensures !Decide(s, id, fmt, encode).Ready? ==> After(s, id, fmt, encode).invoices == s.invoices
    ensures forall k :: k in s.invoices && k != id ==> After(s, id, fmt, encode).invoices[k] == s.invoices[k]
  {
  }

  /** The link handed out goes to the digits of the customer's phone. */
  lemma ReadyLinkTargetsPhone(s: ServerState, id: string, fmt: real -> string, encode: string -> string)
    requires Decide(s, id, fmt, encode).Ready?
    ensures var phone := PhoneOf(s.customers, s.invoices[id].customerId);
      phone != "" && Text.StartsWith(Decide(s, id, fmt, encode).url, "https://wa.me/" + Text.DigitsOnly(phone) + "?text=")
  {
  }
}
