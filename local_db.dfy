/**
 * The browser's offline store (the Dexie database "NanoBizDB"): customers, invoices and
 * payments keyed by their string id, an append-only ledger whose rows get an
 * auto-increment key unless the caller supplies one, and the sync queue with its
 * auto-increment `queueId`.
 *
 * `synced` is 0 for a row the server has not seen and 1 once it has. Optional numeric
 * fields that the code reads as `x || 0` are `Option<real>`; missing strings are "".
 */
module LocalDb {
  import opened Wrappers
  import opened LineItem
  import Ledger

  datatype Customer = Customer(
    id: string, name: string, phone: string, address: string,
    balance: Option<real>, amountOwed: Option<real>, sellerDebt: Option<real>,
    status: string, synced: int, hasPendingInvoice: bool, lastInvoiceDate: string,
    updatedAt: string)

  datatype Invoice = Invoice(
    id: string, customerId: string, invoiceType: string, items: seq<Item>,
    total: Option<real>, taxPercent: real, amountPaid: Option<real>, balanceDue: Option<real>,
    status: string, notes: string, synced: int, whatsappSent: bool, whatsappPending: bool,
    createdAt: string)

  /** The ledger's primary key: generated by `++id`, or supplied by the caller. */
  datatype LedgerKey = Auto(n: nat) | Uuid(s: string)

  datatype LedgerRow = LedgerRow(
    id: LedgerKey, clientId: string, customerId: string, invoiceId: Option<string>,
    kind: string, amount: real, description: string, source: string, synced: int,
    createdAt: string)

  datatype Payment = Payment(
    id: string, customerId: string, customerName: string, invoiceId: Option<string>,
    amount: real, paymentMethod: string, note: string, date: string, createdAt: string, synced: int)

  datatype QueueItem = QueueItem(queueId: nat, kind: string, recordId: string, action: string, createdAt: string)

  /** The entries of one customer, in ledger order, as the balance fold reads them. */
  function Postings(rows: seq<LedgerRow>, customerId: string): (ps: seq<Ledger.Posting>)
    ensures |ps| <= |rows|
  {
    if rows == [] then []
    else
      var r := rows[|rows| - 1];
      if r.customerId == customerId then Postings(rows[..|rows| - 1], customerId) + [Ledger.Posting(r.kind, r.amount)]
      else Postings(rows[..|rows| - 1], customerId)
  }

  /** `where("customerId").equals(id)`: the rows of one customer, in ledger order. */
  function RowsOf(rows: seq<LedgerRow>, customerId: string): (r: seq<LedgerRow>)
    ensures |r| <= |rows|
    ensures forall i :: 0 <= i < |r| ==> r[i].customerId == customerId
    ensures forall x :: x in rows && x.customerId == customerId ==> x in r
    ensures forall x :: x in r ==> x in rows
  {
    if rows == [] then []
    else
      var x := rows[|rows| - 1];
      assert rows == rows[..|rows| - 1] + [x];
      if x.customerId == customerId then RowsOf(rows[..|rows| - 1], customerId) + [x]
      else RowsOf(rows[..|rows| - 1], customerId)
  }

  /**
   * The rows of a customer keep ledger order and multiplicity: with `RowsOf([], c) == []`,
   * appending a row appends it to exactly its own customer's rows.
   */
  lemma RowsOfAppend(rows: seq<LedgerRow>, x: LedgerRow, customerId: string)
    ensures RowsOf([], customerId) == []
    ensures RowsOf(rows + [x], customerId) == RowsOf(rows, customerId) + (if x.customerId == customerId then [x] else [])
  {
    assert (rows + [x])[..|rows|] == rows;
  }

  function AsPostings(rows: seq<LedgerRow>): (ps: seq<Ledger.Posting>)
    ensures |ps| == |rows|
    ensures forall i :: 0 <= i < |rows| ==> ps[i] == Ledger.Posting(rows[i].kind, rows[i].amount)
  {
    if rows == [] then [] else AsPostings(rows[..|rows| - 1]) + [Ledger.Posting(rows[|rows| - 1].kind, rows[|rows| - 1].amount)]
  }

  /** The balance of the first `i + 1` rows is that of the first `i` and the change of row `i`. */
  lemma RowBalanceStep(rows: seq<LedgerRow>, i: nat)
    requires i < |rows|
    ensures Ledger.Balance(AsPostings(rows[..i + 1])) ==
      Ledger.Balance(AsPostings(rows[..i])) + Ledger.Delta(Ledger.Posting(rows[i].kind, rows[i].amount))
  {
    assert rows[..i + 1][..i] == rows[..i];
    Ledger.BalanceLast(AsPostings(rows[..i]), Ledger.Posting(rows[i].kind, rows[i].amount));
  }

  /** Reading a customer's rows and then projecting them is the same as `Postings`. */
  lemma {:induction false} RowsOfPostings(rows: seq<LedgerRow>, customerId: string)
    ensures AsPostings(RowsOf(rows, customerId)) == Postings(rows, customerId)
  {
    if rows != [] {
      RowsOfPostings(rows[..|rows| - 1], customerId);
      var x := rows[|rows| - 1];
      if x.customerId == customerId {
        var r := RowsOf(rows[..|rows| - 1], customerId);
        assert (r + [x])[..|r + [x]| - 1] == r;
      }
    }
  }

  function LedgerKeys(rows: seq<LedgerRow>): set<LedgerKey> {
    set i | 0 <= i < |rows| :: rows[i].id
  }

  /** The queue's auto-increment keys grow along the queue and stay below the next key. */
  predicate QueueOrdered(q: seq<QueueItem>, next: nat) {
    && (forall i, j :: 0 <= i < j < |q| ==> q[i].queueId < q[j].queueId)
    && (forall i :: 0 <= i < |q| ==> q[i].queueId < next)
  }

  predicate LedgerKeysOk(rows: seq<LedgerRow>, next: nat) {
    && (forall i, j :: 0 <= i < j < |rows| ==> rows[i].id != rows[j].id)
    && (forall i :: 0 <= i < |rows| && rows[i].id.Auto? ==> rows[i].id.n < next)
  }

  predicate CustomersKeyed(m: map<string, Customer>) {
    forall k :: k in m ==> m[k].id == k
  }

  predicate InvoicesKeyed(m: map<string, Invoice>) {
    forall k :: k in m ==> m[k].id == k
  }

  predicate PaymentsKeyed(m: map<string, Payment>) {
    forall k :: k in m ==> m[k].id == k
  }

  /** `where("synced").equals(0)` on a keyed table. */
  function UnsyncedCustomers(m: map<string, Customer>): set<string> {
    set k | k in m && m[k].synced == 0
  }

  function UnsyncedInvoices(m: map<string, Invoice>): set<string> {
    set k | k in m && m[k].synced == 0
  }

  function UnsyncedLedger(rows: seq<LedgerRow>): (r: seq<LedgerRow>)
    ensures forall x :: x in r <==> x in rows && x.synced == 0
    ensures (forall i :: 0 <= i < |rows| ==> rows[i].synced != 0) ==> r == []
  {
    if rows == [] then []
    else if rows[|rows| - 1].synced == 0 then UnsyncedLedger(rows[..|rows| - 1]) + [rows[|rows| - 1]]
    else UnsyncedLedger(rows[..|rows| - 1])
  }

  /** `update(id, { synced: 1 })` for every id of a snapshot; an id no longer stored is ignored. */
  function MarkCustomersSynced(m: map<string, Customer>, ids: set<string>): (r: map<string, Customer>)
    ensures r.Keys == m.Keys
    ensures UnsyncedCustomers(r) == UnsyncedCustomers(m) - ids
    ensures forall k :: k in m ==> r[k] == if k in ids then m[k].(synced := 1) else m[k]
    ensures CustomersKeyed(m) ==> CustomersKeyed(r)
  {
    map k | k in m :: if k in ids then m[k].(synced := 1) else m[k]
  }

  function MarkInvoicesSynced(m: map<string, Invoice>, ids: set<string>): (r: map<string, Invoice>)
    ensures r.Keys == m.Keys
    ensures UnsyncedInvoices(r) == UnsyncedInvoices(m) - ids
    ensures forall k :: k in m ==> r[k] == if k in ids then m[k].(synced := 1) else m[k]
    ensures InvoicesKeyed(m) ==> InvoicesKeyed(r)
  {
    map k | k in m :: if k in ids then m[k].(synced := 1) else m[k]
  }

  function MarkLedgerSynced(rows: seq<LedgerRow>, keys: set<LedgerKey>): (r: seq<LedgerRow>)
    ensures |r| == |rows|
    ensures LedgerKeys(r) == LedgerKeys(rows)
    ensures forall i :: 0 <= i < |rows| ==> r[i] == if rows[i].id in keys then rows[i].(synced := 1) else rows[i]
  {
    var r := seq(|rows|, i requires 0 <= i < |rows| => if rows[i].id in keys then rows[i].(synced := 1) else rows[i]);
    assert forall i :: 0 <= i < |rows| ==> r[i].id == rows[i].id;
    r
  }

  /** Marking the keys of the `synced == 0` rows leaves no row unsynced. */
  lemma MarkLedgerSnapshot(rows: seq<LedgerRow>)
    ensures UnsyncedLedger(MarkLedgerSynced(rows, LedgerKeys(UnsyncedLedger(rows)))) == []
  {
    var keys := LedgerKeys(UnsyncedLedger(rows));
    var r := MarkLedgerSynced(rows, keys);
    forall i | 0 <= i < |r|
      ensures r[i].synced != 0
    {
      if rows[i].synced == 0 {
        var u := UnsyncedLedger(rows);
        assert rows[i] in u;
        var j :| 0 <= j < |u| && u[j] == rows[i];
        assert rows[i].id in keys;
      }
    }
  }

  class Db {
    var customers: map<string, Customer>
    var invoices: map<string, Invoice>
    var payments: map<string, Payment>
    var ledger: seq<LedgerRow>
    var nextLedgerId: nat
    var syncQueue: seq<QueueItem>
    var nextQueueId: nat

    ghost predicate Valid()
      reads this
    {
      && CustomersKeyed(customers) && InvoicesKeyed(invoices) && PaymentsKeyed(payments)
      && LedgerKeysOk(ledger, nextLedgerId)
      && QueueOrdered(syncQueue, nextQueueId)
    }

    /** A freshly opened, empty database; both auto-increment keys start at 1. */
    constructor ()
      ensures Valid()
      ensures customers == map[] && invoices == map[] && payments == map[]
      ensures ledger == [] && syncQueue == []
      ensures nextLedgerId == 1 && nextQueueId == 1
    {
      customers, invoices, payments := map[], map[], map[];
      ledger, syncQueue := [], [];
      nextLedgerId, nextQueueId := 1, 1;
    }

    /** `db.syncQueue.add(...)`: appended under the next auto-increment key. */
    method AddQueueItem(kind: string, recordId: string, action: string, createdAt: string)
      requires Valid()
      modifies this`syncQueue, this`nextQueueId
      ensures Valid()
      ensures syncQueue == old(syncQueue) + [QueueItem(old(nextQueueId), kind, recordId, action, createdAt)]
      ensures nextQueueId == old(nextQueueId) + 1
    {
      syncQueue := syncQueue + [QueueItem(nextQueueId, kind, recordId, action, createdAt)];
      nextQueueId := nextQueueId + 1;
    }

    /** `db.syncQueue.clear()`: the key generator is not reset. */
    method ClearQueue()
      requires Valid()
      modifies this`syncQueue
      ensures Valid()
      ensures syncQueue == []
    {
      syncQueue := [];
    }

    /** `db.ledger.add(row)` for a row without an `id`: it gets the next auto-increment key. */
    method AddLedgerRow(clientId: string, customerId: string, invoiceId: Option<string>, kind: string,
                        amount: real, description: string, source: string, createdAt: string)
      returns (row: LedgerRow)
      requires Valid()
      modifies this`ledger, this`nextLedgerId
      ensures Valid()
      ensures row == LedgerRow(Auto(old(nextLedgerId)), clientId, customerId, invoiceId, kind, amount,
                               description, source, 0, createdAt)
      ensures ledger == old(ledger) + [row]
      ensures nextLedgerId == old(nextLedgerId) + 1
    {
      row := LedgerRow(Auto(nextLedgerId), clientId, customerId, invoiceId, kind, amount, description, source, 0, createdAt);
      ledger := ledger + [row];
      nextLedgerId := nextLedgerId + 1;
    }

    /**
     * `db.ledger.add(row)` for a row that carries its own `id`: refused (a constraint
     * error) when the key is taken, appended otherwise.
     */
    method AddLedgerRowWithId(id: string, customerId: string, invoiceId: Option<string>, kind: string,
                              amount: real, description: string, createdAt: string)
      returns (added: Option<LedgerRow>)
      requires Valid()
      modifies this`ledger
      ensures Valid()
      ensures added.None? <==> Uuid(id) in LedgerKeys(old(ledger))
      ensures added.Some? ==> added.value == LedgerRow(Uuid(id), "", customerId, invoiceId, kind, amount,
                                                       description, "", 0, createdAt)
      ensures ledger == if added.Some? then old(ledger) + [added.value] else old(ledger)
    {
      if Uuid(id) in LedgerKeys(ledger) {
        added := None;
      } else {
        var row := LedgerRow(Uuid(id), "", customerId, invoiceId, kind, amount, description, "", 0, createdAt);
        forall i | 0 <= i < |ledger|
          ensures ledger[i].id != row.id
        {
          assert ledger[i].id in LedgerKeys(ledger);
        }
        ledger := ledger + [row];
        added := Some(row);
      }
    }
  }
}
