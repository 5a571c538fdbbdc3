/**
 * The body of `POST /api/sync` as the client builds it and the reply as the server
 * writes it, together with the reply as the client reads it.
 */
module SyncApi {
  import opened Wrappers
  import opened LineItem
  import LocalDb

  datatype CustomerPayload = CustomerPayload(
    clientId: string, name: string, phone: string, address: string, balance: real, status: string)

  datatype InvoicePayload = InvoicePayload(
    clientId: string, customerId: string, items: seq<Item>, total: Option<real>, status: string, whatsappSent: bool)

  datatype LedgerPayload = LedgerPayload(
    clientId: LocalDb.LedgerKey, customerId: string, kind: string, amount: real,
    description: string, invoiceId: Option<string>)

  /** Each array may be absent from the body. */
  datatype SyncBody = SyncBody(
    customers: Option<seq<CustomerPayload>>, invoices: Option<seq<InvoicePayload>>,
    ledger: Option<seq<LedgerPayload>>)

  /** One `{ type, clientId, error }` entry; the exception text is not modelled. */
  datatype SyncError = SyncError(kind: string, clientId: string)

  /** `{ message, synced: { customers, invoices }, errors }`. */
  datatype SyncReply = SyncReply(customers: nat, invoices: nat, errors: seq<SyncError>)

  /** What the client reads from the reply: `data.synced`, `data.errors`, `data.invoicesNeedingWhatsApp`. */
  datatype ClientReply = ClientReply(
    customers: nat, invoices: nat, errors: seq<SyncError>, invoicesNeedingWhatsApp: Option<seq<string>>)

  /** The server's reply as the client sees it: the server never sends `invoicesNeedingWhatsApp`. */
  function FromServer(r: SyncReply): (c: ClientReply)
    ensures c.invoicesNeedingWhatsApp.None?
    ensures c.customers == r.customers && c.invoices == r.invoices && c.errors == r.errors
  {
    ClientReply(r.customers, r.invoices, r.errors, None)
  }
}
