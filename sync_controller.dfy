/**
 * `syncAll`: every customer of the batch is upserted by `clientId`, then every invoice;
 * a record the validators reject becomes one entry of `errors` and the batch goes on.
 * The `ledger` array of the body is not read.
 */
module SyncController {
  import opened Wrappers
  import opened Models
  import opened ServerDb
  import opened SyncApi
  import Upsert
  import opened Text

  /** The four fields of a customer that the server sends to the upsert. */
  function CustomerReqOf(p: CustomerPayload): CustomerReq {
    CustomerReq(p.clientId, p.name, p.phone, p.address)
  }

  function InvoiceReqOf(p: InvoicePayload): InvoiceReq {
    InvoiceReq(p.clientId, p.customerId, p.items, p.total, p.status)
  }

  function CustomerReqs(ps: seq<CustomerPayload>): (rs: seq<CustomerReq>)
    ensures |rs| == |ps| && forall i :: 0 <= i < |ps| ==> rs[i] == CustomerReqOf(ps[i])
  {
    if ps == [] then [] else [CustomerReqOf(ps[0])] + CustomerReqs(ps[1..])
  }

  function InvoiceReqs(ps: seq<InvoicePayload>): (rs: seq<InvoiceReq>)
    ensures |rs| == |ps| && forall i :: 0 <= i < |ps| ==> rs[i] == InvoiceReqOf(ps[i])
  {
    if ps == [] then [] else [InvoiceReqOf(ps[0])] + InvoiceReqs(ps[1..])
  }

  /** `{ customers = [], invoices = [] } = req.body`. */
  function BodyCustomers(b: SyncBody): seq<CustomerReq> {
    CustomerReqs(b.customers.GetOr([]))
  }

  function BodyInvoices(b: SyncBody): seq<InvoiceReq> {
    InvoiceReqs(b.invoices.GetOr([]))
  }

  function CustomerErrors(rs: seq<CustomerReq>): (e: seq<SyncError>)
    ensures |e| == |rs| && forall i :: 0 <= i < |rs| ==> e[i] == SyncError("customer", rs[i].clientId)
  {
    seq(|rs|, i requires 0 <= i < |rs| => SyncError("customer", rs[i].clientId))
  }

  function InvoiceErrors(rs: seq<InvoiceReq>): (e: seq<SyncError>)
    ensures |e| == |rs| && forall i :: 0 <= i < |rs| ==> e[i] == SyncError("invoice", rs[i].clientId)
  {
    seq(|rs|, i requires 0 <= i < |rs| => SyncError("invoice", rs[i].clientId))
  }

  /** The store and the reply after one `POST /api/sync`. */
  function SyncSpec(s: ServerState, b: SyncBody, now: string): (ServerState, SyncReply) {
    var cs, ivs := BodyCustomers(b), BodyInvoices(b);
    (ServerState(Upsert.Fold(CustomerPolicy(), s.customers, cs, now),
                 Upsert.Fold(InvoicePolicy(), s.invoices, ivs, now),
                 s.ledger),
     SyncReply(|Upsert.Accepted(CustomerPolicy(), cs)|, |Upsert.Accepted(InvoicePolicy(), ivs)|,
               CustomerErrors(Upsert.Rejected(CustomerPolicy(), cs)) + InvoiceErrors(Upsert.Rejected(InvoicePolicy(), ivs))))
  }

  method SyncAll(store: Store, b: SyncBody, now: string) returns (reply: SyncReply)
    requires store.Valid()
    modifies store`customers, store`invoices
    ensures store.Valid()
    ensures (store.State(), reply) == SyncSpec(old(store.State()), b, now)
  {
    var customerCount, customerErrors := SyncCustomers(store, BodyCustomers(b), now);
    var invoiceCount, invoiceErrors := SyncInvoices(store, BodyInvoices(b), now);
    reply := SyncReply(customerCount, invoiceCount, customerErrors + invoiceErrors);
  }

  /** The customer loop: one upsert per record, each failure pushed onto the errors. */
  method SyncCustomers(store: Store, cs: seq<CustomerReq>, now: string) returns (count: nat, errors: seq<SyncError>)
    requires store.Valid()
    modifies store`customers
    ensures store.Valid()
    ensures store.customers == Upsert.Fold(CustomerPolicy(), old(store.customers), cs, now)
    ensures count == |Upsert.Accepted(CustomerPolicy(), cs)|
    ensures errors == CustomerErrors(Upsert.Rejected(CustomerPolicy(), cs))
  {
    count, errors := 0, [];
    for i := 0 to |cs|
      invariant store.Valid()
      invariant store.customers == Upsert.Fold(CustomerPolicy(), old(store.customers), cs[..i], now)
      invariant count == |Upsert.Accepted(CustomerPolicy(), cs[..i])|
      invariant errors == CustomerErrors(Upsert.Rejected(CustomerPolicy(), cs[..i]))
    {
      assert cs[..i + 1][..i] == cs[..i];
      var doc := store.UpsertCustomer(cs[i], now);
      if doc.Some? {
        count := count + 1;
      } else {
        CustomerErrorsAppend(Upsert.Rejected(CustomerPolicy(), cs[..i]), cs[i]);
        errors := errors + [SyncError("customer", cs[i].clientId)];
      }
    }
    assert cs[..|cs|] == cs;
  }

  method SyncInvoices(store: Store, ivs: seq<InvoiceReq>, now: string) returns (count: nat, errors: seq<SyncError>)
    requires store.Valid()
    modifies store`invoices
    ensures store.Valid()
    ensures store.invoices == Upsert.Fold(InvoicePolicy(), old(store.invoices), ivs, now)
    ensures count == |Upsert.Accepted(InvoicePolicy(), ivs)|
    ensures errors == InvoiceErrors(Upsert.Rejected(InvoicePolicy(), ivs))
  {
    count, errors := 0, [];
    for i := 0 to |ivs|
      invariant store.Valid()
      invariant store.invoices == Upsert.Fold(InvoicePolicy(), old(store.invoices), ivs[..i], now)
      invariant count == |Upsert.Accepted(InvoicePolicy(), ivs[..i])|
      invariant errors == InvoiceErrors(Upsert.Rejected(InvoicePolicy(), ivs[..i]))
    {
      assert ivs[..i + 1][..i] == ivs[..i];
      var doc := store.UpsertInvoice(ivs[i], now);
      if doc.Some? {
        count := count + 1;
      } else {
        InvoiceErrorsAppend(Upsert.Rejected(InvoicePolicy(), ivs[..i]), ivs[i]);
        errors := errors + [SyncError("invoice", ivs[i].clientId)];
      }
    }
    assert ivs[..|ivs|] == ivs;
  }

  lemma CustomerErrorsAppend(rs: seq<CustomerReq>, x: CustomerReq)
    ensures CustomerErrors(rs + [x]) == CustomerErrors(rs) + [SyncError("customer", x.clientId)]
  {
    assert forall i :: 0 <= i < |rs| ==> (rs + [x])[i] == rs[i];
  }

  lemma InvoiceErrorsAppend(rs: seq<InvoiceReq>, x: InvoiceReq)
    ensures InvoiceErrors(rs + [x]) == InvoiceErrors(rs) + [SyncError("invoice", x.clientId)]
  {
    assert forall i :: 0 <= i < |rs| ==> (rs + [x])[i] == rs[i];
  }

  /** Sending the same batch twice leaves the store as sending it once did. */
  lemma SyncIdempotent(s: ServerState, b: SyncBody, n1: string, n2: string)
    ensures SyncSpec(SyncSpec(s, b, n1).0, b, n2).0 == SyncSpec(s, b, n1).0
  {
    CustomerPolicyOverwrites();
    InvoicePolicyOverwrites();
    Upsert.FoldIdempotent(CustomerPolicy(), s.customers, BodyCustomers(b), n1, n2);
    Upsert.FoldIdempotent(InvoicePolicy(), s.invoices, BodyInvoices(b), n1, n2);
  }

  /** Each record is counted as synced or reported as an error: the two add up to the batch. */
  lemma SyncCountsAddUp(s: ServerState, b: SyncBody, now: string)
    ensures var r := SyncSpec(s, b, now).1;
      && r.customers + |Upsert.Rejected(CustomerPolicy(), BodyCustomers(b))| == |b.customers.GetOr([])|
      && r.invoices + |Upsert.Rejected(InvoicePolicy(), BodyInvoices(b))| == |b.invoices.GetOr([])|
      && |r.errors| + r.customers + r.invoices == |b.customers.GetOr([])| + |b.invoices.GetOr([])|
  {
    Upsert.AcceptedPlusRejected(CustomerPolicy(), BodyCustomers(b));
    Upsert.AcceptedPlusRejected(InvoicePolicy(), BodyInvoices(b));
  }

  /** Every customer error comes before every invoice error, as customers are processed first. */
  lemma CustomerErrorsFirst(s: ServerState, b: SyncBody, now: string)
    ensures var e := SyncSpec(s, b, now).1.errors;
      forall i, j :: 0 <= i < |e| && 0 <= j < |e| && e[i].kind == "invoice" && e[j].kind == "customer" ==> j < i
  {
  }

  /** An upserted customer holds, under its `clientId`, what the last valid record for it sent. */
  lemma SyncStoresLastCustomer(s: ServerState, b: SyncBody, now: string, k: string)
    ensures Upsert.Get(SyncSpec(s, b, now).0.customers, k) ==
      match Upsert.LastValid(CustomerPolicy(), BodyCustomers(b), k)
      case None => Upsert.Get(s.customers, k)
      case Some(r) => Some(CustomerMerge(Upsert.Get(s.customers, k), r, now))
  {
    CustomerPolicyOverwrites();
    Upsert.FoldClosedForm(CustomerPolicy(), s.customers, BodyCustomers(b), now, k);
  }

  lemma SyncStoresLastInvoice(s: ServerState, b: SyncBody, now: string, k: string)
    ensures Upsert.Get(SyncSpec(s, b, now).0.invoices, k) ==
      match Upsert.LastValid(InvoicePolicy(), BodyInvoices(b), k)
      case None => Upsert.Get(s.invoices, k)
      case Some(r) => Some(InvoiceMerge(Upsert.Get(s.invoices, k), r, now))
  {
    InvoicePolicyOverwrites();
    Upsert.FoldClosedForm(InvoicePolicy(), s.invoices, BodyInvoices(b), now, k);
  }

  /** The `ledger` array is ignored: it neither reaches the store nor changes the reply. */
  lemma SyncIgnoresLedger(s: ServerState, b: SyncBody, l: Option<seq<LedgerPayload>>, now: string)
    ensures SyncSpec(s, b.(ledger := l), now) == SyncSpec(s, b, now)
    ensures SyncSpec(s, b, now).0.ledger == s.ledger
  {
  }

  /** A body without the arrays is an empty batch: nothing stored, zero counts, no errors. */
  lemma SyncMissingArrays(s: ServerState, l: Option<seq<LedgerPayload>>, now: string)
    ensures SyncSpec(s, SyncBody(None, None, l), now) == (s, SyncReply(0, 0, []))
  {
    var b := SyncBody(None, None, l);
    assert BodyCustomers(b) == [] && BodyInvoices(b) == [];
    assert CustomerErrors([]) == [] && InvoiceErrors([]) == [];
    assert Upsert.Fold(CustomerPolicy(), s.customers, [], now) == s.customers;
    assert Upsert.Fold(InvoicePolicy(), s.invoices, [], now) == s.invoices;
    assert Upsert.Accepted(CustomerPolicy(), []) == [] && Upsert.Rejected(CustomerPolicy(), []) == [];
    assert Upsert.Accepted(InvoicePolicy(), []) == [] && Upsert.Rejected(InvoicePolicy(), []) == [];
    assert SyncSpec(s, b, now).0 == s;
    assert SyncSpec(s, b, now).1 == SyncReply(0, 0, []);
  }

  /**
   * The phone hook is not run by `findOneAndUpdate`: one batch can store two customers
   * with the same non-empty phone.
   */
  lemma SyncSkipsPhoneHook(c0: CustomerPayload, c1: CustomerPayload, now: string)
    requires CustomerReqValid(CustomerReqOf(c0)) && CustomerReqValid(CustomerReqOf(c1))
    requires c0.clientId != c1.clientId && Trim(c0.phone) == Trim(c1.phone) != ""
    ensures !PhonesUnique(SyncSpec(ServerState(map[], map[], []), SyncBody(Some([c0, c1]), None, None), now).0.customers)
  {
    TwoPayloads(c0, c1);
    TwoCustomers(CustomerReqOf(c0), CustomerReqOf(c1), now);
  }

  lemma TwoPayloads(c0: CustomerPayload, c1: CustomerPayload)
    ensures BodyCustomers(SyncBody(Some([c0, c1]), None, None)) == [CustomerReqOf(c0), CustomerReqOf(c1)]
  {
    assert [c0, c1][1..] == [c1] && [c1][1..] == [];
  }

  /** Two valid records with different keys, sent to an empty collection, are both inserted. */
  lemma TwoCustomers(r0: CustomerReq, r1: CustomerReq, now: string)
    requires CustomerReqValid(r0) && CustomerReqValid(r1) && r0.clientId != r1.clientId
    ensures var m := Upsert.Fold(CustomerPolicy(), map[], [r0, r1], now);
      && r0.clientId in m && m[r0.clientId] == CustomerMerge(None, r0, now)
      && r1.clientId in m && m[r1.clientId] == CustomerMerge(None, r1, now)
  {
    var p := CustomerPolicy();
    var e: map<string, CustomerDoc> := map[];
    assert [r0, r1][..1] == [r0] && [r0][..0] == [];
    assert Upsert.Fold(p, e, [], now) == e;
    var m1 := Upsert.Fold(p, e, [r0], now);
    assert m1 == Upsert.Step(p, e, r0, now);
    assert r0.clientId in m1 && m1[r0.clientId] == CustomerMerge(None, r0, now);
    assert Upsert.Fold(p, e, [r0, r1], now) == Upsert.Step(p, m1, r1, now);
  }
}
