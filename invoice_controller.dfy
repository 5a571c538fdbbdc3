/**
 * `GET /api/invoices` (every invoice, newest first) and `POST /api/invoices` (an upsert by
 * `clientId` with `status || "pending"` and `synced: true`).
 */
module InvoiceController {
  import opened Wrappers
  import opened Models
  import opened ServerDb
  import opened Sorting
  import Upsert

  datatype InvoiceReply = Created201(doc: InvoiceDoc) | BadRequest400 | ServerError500

  /**
   * 400 when `clientId` or `customerId` is empty or there is no item; a request that then
   * fails a schema validator (an item without a name, `qty < 1`, a negative price, an
   * absent or negative total, an unknown status) is a 500; otherwise the upsert and 201.
   */
  function CreateInvoiceSpec(m: map<string, InvoiceDoc>, r: InvoiceReq, now: string): (res: (map<string, InvoiceDoc>, InvoiceReply))
    ensures res.1.BadRequest400? <==> r.clientId == "" || r.customerId == "" || |r.items| == 0
    ensures res.1.Created201? <==> InvoiceReqValid(r)
    ensures !res.1.Created201? ==> res.0 == m
    ensures res.1.Created201? ==> && res.0 == Upsert.Step(InvoicePolicy(), m, r, now)
                                  && r.clientId in res.0 && res.1.doc == res.0[r.clientId]
  {
    if r.clientId == "" || r.customerId == "" || |r.items| == 0 then (m, BadRequest400)
    else if !InvoiceReqValid(r) then (m, ServerError500)
    else
      var m' := Upsert.Step(InvoicePolicy(), m, r, now);
      (m', Created201(m'[r.clientId]))
  }

  method CreateInvoice(store: Store, r: InvoiceReq, now: string) returns (reply: InvoiceReply)
    requires store.Valid()
    modifies store`invoices
    ensures store.Valid()
    ensures (store.invoices, reply) == CreateInvoiceSpec(old(store.invoices), r, now)
  {
    if r.clientId == "" || r.customerId == "" || |r.items| == 0 {
      return BadRequest400;
    }
    var doc := store.UpsertInvoice(r, now);
    if doc.Some? {
      reply := Created201(doc.value);
    } else {
      reply := ServerError500;
    }
  }

  /**
   * A stored invoice has status "pending" when none was sent and `synced` true, and it
   * satisfies the schema when the document it replaced did.
   */
  lemma CreateInvoiceStores(m: map<string, InvoiceDoc>, r: InvoiceReq, now: string)
    requires CreateInvoiceSpec(m, r, now).1.Created201?
    requires r.clientId in m ==> InvoiceDocValid(m[r.clientId])
    ensures var d := CreateInvoiceSpec(m, r, now).1.doc;
      && d.status == (if r.status == "" then "pending" else r.status)
      && d.synced && d.items == r.items && d.customerId == r.customerId
      && InvoiceDocValid(d)
  {
    InvoiceMergeValid(Upsert.Get(m, r.clientId), r, now);
  }

  /** Repeating `createInvoice` with the same body yields the same stored invoice and reply. */
  lemma CreateInvoiceReplay(m: map<string, InvoiceDoc>, r: InvoiceReq, n1: string, n2: string)
    ensures var first := CreateInvoiceSpec(m, r, n1);
      CreateInvoiceSpec(first.0, r, n2) == first
  {
    InvoicePolicyOverwrites();
    Upsert.StepIdempotent(InvoicePolicy(), m, r, n1, n2);
  }

  /** `Invoice.find().sort({ createdAt: -1 })`: every invoice once, newest first. */
  method GetInvoices(store: Store) returns (list: seq<InvoiceDoc>)
    ensures |list| == |store.invoices|
    ensures forall k :: k in store.invoices ==> store.invoices[k] in list
    ensures forall d :: d in list ==> exists k :: k in store.invoices && store.invoices[k] == d
    ensures SortedDescByStr(list, (d: InvoiceDoc) => d.createdAt)
  {
    var docs := Documents(store.invoices);
    list := SortDescByStr(docs, (d: InvoiceDoc) => d.createdAt);
    SortDescByStrSorted(docs, (d: InvoiceDoc) => d.createdAt);
    assert forall d :: d in list <==> d in docs by {
      forall d ensures d in list <==> d in docs {
        assert d in list <==> d in multiset(list);
        assert d in docs <==> d in multiset(docs);
      }
    }
  }
}
