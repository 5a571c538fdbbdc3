/**
 * The MongoDB collections behind the Express API: customers and invoices, each with a
 * unique `clientId` index (so a map from `clientId` to the document), and the
 * append-only ledger, whose `clientId` is unique as well.
 */
module ServerDb {
  import opened Wrappers
  import opened Models
  import Upsert
  import Ledger

  datatype ServerState = ServerState(customers: map<string, CustomerDoc>, invoices: map<string, InvoiceDoc>, ledger: seq<LedgerDoc>)

  predicate InvoicesKeyed(m: map<string, InvoiceDoc>) {
    forall k :: k in m ==> m[k].clientId == k
  }

  predicate LedgerUnique(ledger: seq<LedgerDoc>) {
    forall i, j :: 0 <= i < j < |ledger| ==> ledger[i].clientId != ledger[j].clientId
  }

  /** `LedgerEntry.findOne({ clientId })`. */
  function FindLedger(ledger: seq<LedgerDoc>, clientId: string): (r: Option<LedgerDoc>)
    ensures r.Some? ==> r.value in ledger && r.value.clientId == clientId
    ensures r.None? <==> forall i :: 0 <= i < |ledger| ==> ledger[i].clientId != clientId
  {
    if ledger == [] then None
    else if ledger[0].clientId == clientId then Some(ledger[0])
    else
      var r := FindLedger(ledger[1..], clientId);
      assert forall i :: 1 <= i < |ledger| ==> ledger[i] == ledger[1..][i - 1];
      r
  }

  /** `LedgerEntry.find({ customerId })`, in insertion order. */
  function EntriesOf(ledger: seq<LedgerDoc>, customerId: string): (r: seq<LedgerDoc>)
    ensures |r| <= |ledger|
    ensures forall i :: 0 <= i < |r| ==> r[i].customerId == customerId
    ensures forall d :: d in r <==> d in ledger && d.customerId == customerId
  {
    if ledger == [] then []
    else
      var d := ledger[|ledger| - 1];
      assert ledger == ledger[..|ledger| - 1] + [d];
      if d.customerId == customerId then EntriesOf(ledger[..|ledger| - 1], customerId) + [d]
      else EntriesOf(ledger[..|ledger| - 1], customerId)
  }

  function DocPostings(ds: seq<LedgerDoc>): (ps: seq<Ledger.Posting>)
    ensures |ps| == |ds|
    ensures forall i :: 0 <= i < |ds| ==> ps[i] == Ledger.Posting(ds[i].kind, ds[i].amount)
  {
    if ds == [] then [] else DocPostings(ds[..|ds| - 1]) + [Ledger.Posting(ds[|ds| - 1].kind, ds[|ds| - 1].amount)]
  }

  /** The balance of the first `i + 1` documents is that of the first `i` and the change of document `i`. */
  lemma DocBalanceStep(ds: seq<LedgerDoc>, i: nat)
    requires i < |ds|
    ensures Ledger.Balance(DocPostings(ds[..i + 1])) ==
      Ledger.Balance(DocPostings(ds[..i])) + Ledger.Delta(Ledger.Posting(ds[i].kind, ds[i].amount))
  {
    assert ds[..i + 1][..i] == ds[..i];
    Ledger.BalanceLast(DocPostings(ds[..i]), Ledger.Posting(ds[i].kind, ds[i].amount));
  }

  /** The balance the ledger gives a customer: its credits minus its debits. */
  function LedgerBalance(ledger: seq<LedgerDoc>, customerId: string): real {
    Ledger.Balance(DocPostings(EntriesOf(ledger, customerId)))
  }

  /** Appending an entry moves its customer's ledger balance by the entry's signed amount, and no other. */
  lemma LedgerBalanceAppend(ledger: seq<LedgerDoc>, d: LedgerDoc, c: string)
    ensures LedgerBalance(ledger + [d], c) ==
      LedgerBalance(ledger, c) + (if d.customerId == c then Ledger.Delta(Ledger.Posting(d.kind, d.amount)) else 0.0)
  {
    var l := ledger + [d];
    assert l[..|l| - 1] == ledger;
    if d.customerId == c {
      var e := EntriesOf(ledger, c);
      assert DocPostings(e + [d])[..|e|] == DocPostings(e);
      Ledger.BalanceAppend(DocPostings(e), [Ledger.Posting(d.kind, d.amount)]);
      assert DocPostings(e + [d]) == DocPostings(e) + [Ledger.Posting(d.kind, d.amount)];
    }
  }

  /** One customer upsert, with the policy's parts spelled out. */
  lemma CustomerStep(m: map<string, CustomerDoc>, r: CustomerReq, now: string)
    ensures CustomerReqValid(r) ==> Upsert.Step(CustomerPolicy(), m, r, now) == m[r.clientId := CustomerMerge(Upsert.Get(m, r.clientId), r, now)]
    ensures !CustomerReqValid(r) ==> Upsert.Step(CustomerPolicy(), m, r, now) == m
  {
  }

  /** Storing a document under its own `clientId` keeps the collection keyed. */
  lemma KeyedAfterPut(m: map<string, CustomerDoc>, d: CustomerDoc)
    requires CustomersKeyed(m)
    ensures CustomersKeyed(m[d.clientId := d])
  {
  }

  /** `Customer.findOneAndUpdate({ clientId }, { $inc: { balance: delta } })`: no upsert, so an unknown id changes nothing. */
  function IncBalance(m: map<string, CustomerDoc>, clientId: string, delta: real): (r: map<string, CustomerDoc>)
    ensures r.Keys == m.Keys
    ensures clientId in m ==> r[clientId] == m[clientId].(balance := m[clientId].balance + delta)
    ensures forall k :: k in m && k != clientId ==> r[k] == m[k]
  {
    if clientId in m then m[clientId := m[clientId].(balance := m[clientId].balance + delta)] else m
  }

  /** The cached `balance` of customer `c`, if stored, agrees with its ledger. */
  predicate CacheConsistent(s: ServerState, c: string) {
    c in s.customers ==> s.customers[c].balance == LedgerBalance(s.ledger, c)
  }

  class Store {
    var customers: map<string, CustomerDoc>
    var invoices: map<string, InvoiceDoc>
    var ledger: seq<LedgerDoc>

    function State(): ServerState
      reads this
    {
      ServerState(customers, invoices, ledger)
    }

    /** The unique indexes hold. */
    ghost predicate Valid()
      reads this
    {
      CustomersKeyed(customers) && InvoicesKeyed(invoices) && LedgerUnique(ledger)
    }

    constructor ()
      ensures Valid()
      ensures State() == ServerState(map[], map[], [])
    {
      customers, invoices, ledger := map[], map[], [];
    }

    /** `Customer.findOneAndUpdate(..., { upsert: true, new: true, runValidators: true })`. */
    method UpsertCustomer(r: CustomerReq, now: string) returns (doc: Option<CustomerDoc>)
      requires Valid()
      modifies this`customers
      ensures Valid()
      ensures customers == Upsert.Step(CustomerPolicy(), old(customers), r, now)
      ensures doc.Some? <==> CustomerReqValid(r)
      ensures doc.Some? ==> r.clientId in customers && doc.value == customers[r.clientId]
    {
      CustomerStep(customers, r, now);
      var m := customers;
      if CustomerReqValid(r) {
        var d := CustomerMerge(Upsert.Get(m, r.clientId), r, now);
        KeyedAfterPut(m, d);
        customers := m[r.clientId := d];
        assert customers == Upsert.Step(CustomerPolicy(), m, r, now);
        doc := Some(d);
      } else {
        doc := None;
      }
    }

    /** `Invoice.findOneAndUpdate(..., { upsert: true, new: true, runValidators: true })`. */
    method UpsertInvoice(r: InvoiceReq, now: string) returns (doc: Option<InvoiceDoc>)
      requires Valid()
      modifies this`invoices
      ensures Valid()
      ensures invoices == Upsert.Step(InvoicePolicy(), old(invoices), r, now)
      ensures doc.Some? <==> InvoiceReqValid(r)
      ensures doc.Some? ==> r.clientId in invoices && doc.value == invoices[r.clientId]
    {
      if InvoiceReqValid(r) {
        var d := InvoiceMerge(Upsert.Get(invoices, r.clientId), r, now);
        invoices := invoices[r.clientId := d];
        doc := Some(d);
      } else {
        doc := None;
      }
    }

    /** An insert into the ledger; the unique index refuses a `clientId` already stored. */
    method InsertLedger(d: LedgerDoc) returns (ok: bool)
      requires Valid()
      modifies this`ledger
      ensures Valid()
      ensures ok <==> FindLedger(old(ledger), d.clientId).None?
      ensures ledger == if ok then old(ledger) + [d] else old(ledger)
    {
      ok := FindLedger(ledger, d.clientId).None?;
      if ok {
        ledger := ledger + [d];
      }
    }

    method IncCustomerBalance(clientId: string, delta: real)
      requires Valid()
      modifies this`customers
      ensures Valid()
      ensures customers == IncBalance(old(customers), clientId, delta)
    {
      customers := IncBalance(customers, clientId, delta);
    }

    /** `Invoice.findOne({ clientId })` followed by `invoice.save()` with `whatsappSent = true`. */
    method MarkWhatsAppSent(clientId: string)
      requires Valid() && clientId in invoices
      modifies this`invoices
      ensures Valid()
      ensures invoices == old(invoices)[clientId := old(invoices)[clientId].(whatsappSent := true)]
    {
      invoices := invoices[clientId := invoices[clientId].(whatsappSent := true)];
    }
  }

  /**
   * The documents of a collection as a `find()` cursor yields them, in no particular
   * order: each stored document exactly once.
   */
  method Documents<D>(m: map<string, D>) returns (s: seq<D>)
    ensures |s| == |m|
    ensures forall k :: k in m ==> m[k] in s
    ensures forall d :: d in s ==> exists k :: k in m && m[k] == d
  {
    var keys := m.Keys;
    s := [];
    while keys != {}
      invariant keys <= m.Keys
      invariant |s| + |keys| == |m|
      invariant forall k :: k in m && k !in keys ==> m[k] in s
      invariant forall d :: d in s ==> exists k :: k in m && m[k] == d
      decreases |keys|
    {
      var k :| k in keys;
      s := s + [m[k]];
      keys := keys - {k};
    }
  }
}
