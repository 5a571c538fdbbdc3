/**
 * The server's ledger endpoints: `createLedgerEntry` (append-only, deduplicated on
 * `clientId`, then a `$inc` of the customer's cached balance), `getCustomerBalance` (the
 * balance recomputed from the entries) and `getLedgerEntries` (optionally filtered,
 * newest first).
 */
module LedgerController {
  import opened Wrappers
  import opened Text
  import opened Models
  import opened ServerDb
  import opened Sorting
  import Ledger

  /** The request body; an absent string field is "". */
  datatype LedgerBody = LedgerBody(
    clientId: string, customerId: string, kind: string, amount: Option<real>,
    description: string, invoiceId: string)

  datatype LedgerReply =
    | MissingFields400
    | BadType400
    | Existing200(entry: LedgerDoc)
    | Created201(entry: LedgerDoc)
    | ServerError500

  /** `type === "credit" ? amount : -amount`. */
  function SignedAmount(kind: string, amount: real): (d: real)
    ensures kind == "credit" || kind == "debit" ==> d == Ledger.Delta(Ledger.Posting(kind, amount))
  {
    if kind == "credit" then amount else -amount
  }

  /** `invoiceId || null`. */
  function InvoiceRef(id: string): (r: Option<string>)
    ensures r.None? <==> id == ""
  {
    if id == "" then None else Some(id)
  }

  /**
   * The store and the reply after `createLedgerEntry`. A negative amount passes the
   * guards and fails the schema's `min: 0`, which is a 500 with nothing written.
   */
  function CreateLedgerSpec(s: ServerState, b: LedgerBody, now: string): (res: (ServerState, LedgerReply))
    ensures res.1.MissingFields400? <==> b.clientId == "" || b.customerId == "" || b.kind == "" || b.amount.None?
    ensures res.1.BadType400? ==> b.kind != "credit" && b.kind != "debit"
    ensures res.1.Existing200? ==> FindLedger(s.ledger, b.clientId) == Some(res.1.entry)
    ensures !res.1.Created201? ==> res.0 == s
    ensures res.1.Created201? ==> && FindLedger(s.ledger, b.clientId).None?
                                  && (b.kind == "credit" || b.kind == "debit") && b.amount.value >= 0.0
                                  && res.0.ledger == s.ledger + [res.1.entry]
                                  && res.0.customers == IncBalance(s.customers, b.customerId, SignedAmount(b.kind, b.amount.value))
                                  && res.0.invoices == s.invoices
    ensures res.1.Created201? ==> && res.1.entry.clientId == b.clientId && res.1.entry.customerId == b.customerId
                                  && res.1.entry.kind == b.kind && res.1.entry.amount == b.amount.value
  {
    if b.clientId == "" || b.customerId == "" || b.kind == "" || b.amount.None? then (s, MissingFields400)
    else if b.kind != "credit" && b.kind != "debit" then (s, BadType400)
    else match FindLedger(s.ledger, b.clientId)
      case Some(e) => (s, Existing200(e))
      case None =>
        match NewLedgerDoc(b.clientId, b.customerId, b.kind, b.amount.value, b.description, InvoiceRef(b.invoiceId), now)
        case None => (s, ServerError500)
        case Some(d) =>
          (s.(ledger := s.ledger + [d],
              customers := IncBalance(s.customers, b.customerId, SignedAmount(b.kind, b.amount.value))),
           Created201(d))
  }

  method CreateLedgerEntry(store: Store, b: LedgerBody, now: string) returns (reply: LedgerReply)
    requires store.Valid()
    modifies store`ledger, store`customers
    ensures store.Valid()
    ensures (store.State(), reply) == CreateLedgerSpec(old(store.State()), b, now)
  {
    ghost var s0 := store.State();
    if b.clientId == "" || b.customerId == "" || b.kind == "" || b.amount.None? {
      return MissingFields400;
    }
    if b.kind != "credit" && b.kind != "debit" {
      return BadType400;
    }
    var existing := FindLedger(store.ledger, b.clientId);
    if existing.Some? {
      return Existing200(existing.value);
    }
    var doc := NewLedgerDoc(b.clientId, b.customerId, b.kind, b.amount.value, b.description, InvoiceRef(b.invoiceId), now);
    if doc.None? {
      return ServerError500;
    }
    AppendAndCredit(store, doc.value, SignedAmount(b.kind, b.amount.value));
    reply := Created201(doc.value);
    CreateLedgerCreates(s0, b, now, doc.value);
  }

  /** `LedgerEntry.create(...)` followed by the `$inc` of the entry's customer. */
  method AppendAndCredit(store: Store, d: LedgerDoc, delta: real)
    requires store.Valid() && FindLedger(store.ledger, d.clientId).None?
    modifies store`ledger, store`customers
    ensures store.Valid()
    ensures store.State() == ServerState(IncBalance(old(store.customers), d.customerId, delta), old(store.invoices), old(store.ledger) + [d])
  {
    var inserted := store.InsertLedger(d);
    store.IncCustomerBalance(d.customerId, delta);
  }

  lemma CreateLedgerCreates(s: ServerState, b: LedgerBody, now: string, d: LedgerDoc)
    requires b.clientId != "" && b.customerId != "" && (b.kind == "credit" || b.kind == "debit") && b.amount.Some?
    requires FindLedger(s.ledger, b.clientId).None?
    requires NewLedgerDoc(b.clientId, b.customerId, b.kind, b.amount.value, b.description, InvoiceRef(b.invoiceId), now) == Some(d)
    ensures CreateLedgerSpec(s, b, now) ==
      (ServerState(IncBalance(s.customers, b.customerId, SignedAmount(b.kind, b.amount.value)), s.invoices, s.ledger + [d]), Created201(d))
  {
  }

  /** A new entry is exactly the request's fields with the schema defaults. */
  lemma CreatedEntryShape(s: ServerState, b: LedgerBody, now: string)
    requires CreateLedgerSpec(s, b, now).1.Created201?
    ensures CreateLedgerSpec(s, b, now).1.entry ==
      LedgerDoc(b.clientId, b.customerId, b.kind, b.amount.value, Trim(b.description), "invoice", InvoiceRef(b.invoiceId), now)
  {
  }

  /** A second delivery of a created entry returns the stored entry and changes nothing. */
  lemma CreateLedgerReplayOnce(s: ServerState, b: LedgerBody, n1: string, n2: string)
    ensures var first := CreateLedgerSpec(s, b, n1);
      && CreateLedgerSpec(first.0, b, n2).0 == first.0
      && (first.1.Created201? ==> CreateLedgerSpec(first.0, b, n2).1 == Existing200(first.1.entry))
  {
    var first := CreateLedgerSpec(s, b, n1);
    if first.1.Created201? {
      var l := first.0.ledger;
      assert l == s.ledger + [first.1.entry];
      assert l[|s.ledger|] == first.1.entry;
      assert FindLedger(s.ledger + [first.1.entry], b.clientId) == Some(first.1.entry) by {
        FindLedgerAppend(s.ledger, first.1.entry);
      }
    }
  }

  /** Looking a key up after appending a new entry with that key finds the new entry. */
  lemma {:induction false} FindLedgerAppend(ledger: seq<LedgerDoc>, d: LedgerDoc)
    requires FindLedger(ledger, d.clientId).None?
    ensures FindLedger(ledger + [d], d.clientId) == Some(d)
  {
    if ledger != [] {
      assert (ledger + [d])[1..] == ledger[1..] + [d];
      FindLedgerAppend(ledger[1..], d);
    }
  }

  /** Delivering the same request `|nows|` times, one after the other. */
  function Replay(s: ServerState, b: LedgerBody, nows: seq<string>): ServerState
    decreases |nows|
  {
    if nows == [] then s else Replay(CreateLedgerSpec(s, b, nows[0]).0, b, nows[1..])
  }

  /** Any number N >= 1 of deliveries leaves the store as the first one did. */
  lemma {:induction false} ReplayIsOnce(s: ServerState, b: LedgerBody, nows: seq<string>)
    requires |nows| >= 1
    ensures Replay(s, b, nows) == CreateLedgerSpec(s, b, nows[0]).0
    decreases |nows|
  {
    if |nows| > 1 {
      var s1 := CreateLedgerSpec(s, b, nows[0]).0;
      CreateLedgerReplayOnce(s, b, nows[0], nows[1]);
      assert CreateLedgerSpec(s1, b, nows[1]).0 == s1;
      ReplayIsOnce(s1, b, nows[1..]);
    }
  }

  /** A customer whose cached balance agreed with its ledger still does after any request. */
  lemma CreateLedgerKeepsCache(s: ServerState, b: LedgerBody, now: string, c: string)
    requires CacheConsistent(s, c)
    ensures CacheConsistent(CreateLedgerSpec(s, b, now).0, c)
  {
    var res := CreateLedgerSpec(s, b, now);
    if res.1.Created201? {
      var d := res.1.entry;
      LedgerBalanceAppend(s.ledger, d, c);
      assert SignedAmount(b.kind, b.amount.value) == Ledger.Delta(Ledger.Posting(d.kind, d.amount));
    }
  }

  /**
   * `getCustomerBalance`: credits added and debits subtracted over the customer's entries,
   * whatever its cached `balance` says, together with the number of entries.
   */
  method GetCustomerBalance(store: Store, customerId: string) returns (balance: real, entryCount: nat)
    ensures balance == LedgerBalance(store.ledger, customerId)
    ensures entryCount == |EntriesOf(store.ledger, customerId)|
  {
    var entries := EntriesOf(store.ledger, customerId);
    balance := 0.0;
    for i := 0 to |entries|
      invariant balance == Ledger.Balance(DocPostings(entries[..i]))
    {
      var e := entries[i];
      var next := balance;
      if e.kind == "credit" {
        next := balance + e.amount;
      } else if e.kind == "debit" {
        next := balance - e.amount;
      }
      assert next == balance + Ledger.Delta(Ledger.Posting(e.kind, e.amount));
      DocBalanceStep(entries, i);
      balance := next;
    }
    assert entries[..|entries|] == entries;
    entryCount := |entries|;
  }

  /** The recomputed balance is the customer's credits minus its debits. */
  lemma LedgerBalanceIsCreditsMinusDebits(ledger: seq<LedgerDoc>, c: string)
    ensures var ps := DocPostings(EntriesOf(ledger, c));
      LedgerBalance(ledger, c) == Ledger.SumOfKind(ps, "credit") - Ledger.SumOfKind(ps, "debit")
  {
    Ledger.BalanceIsCreditsMinusDebits(DocPostings(EntriesOf(ledger, c)));
  }

  /** `getLedgerEntries`: the customer's entries when an id is given, otherwise all; newest first. */
  method GetLedgerEntries(store: Store, customerId: string) returns (list: seq<LedgerDoc>)
    ensures customerId == "" ==> multiset(list) == multiset(store.ledger)
    ensures customerId != "" ==> multiset(list) == multiset(EntriesOf(store.ledger, customerId))
    ensures forall d :: d in list <==> d in store.ledger && (customerId == "" || d.customerId == customerId)
    ensures SortedDescByStr(list, (d: LedgerDoc) => d.createdAt)
  {
    var found := if customerId != "" then EntriesOf(store.ledger, customerId) else store.ledger;
    list := SortDescByStr(found, (d: LedgerDoc) => d.createdAt);
    SortDescByStrSorted(found, (d: LedgerDoc) => d.createdAt);
    assert forall d :: d in list <==> d in found by {
      forall d ensures d in list <==> d in found {
        assert d in list <==> d in multiset(list);
        assert d in found <==> d in multiset(found);
      }
    }
  }
}
