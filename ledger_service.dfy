/**
 * The client's ledger service over the offline store: the balance recomputed from the
 * ledger, the cached `balance` on the customer record, and the entry constructors that
 * append an entry, move the cached balance and (for credits and debits) queue the entry
 * for sync.
 *
 * `generateId()`, `Date.now()`, `Math.random()` and `new Date().toISOString()` are
 * parameters (`freshId`, `stamp`, `now`), and so is the number-to-text conversion of a
 * template literal (`fmt`).
 */
module LedgerService {
  import opened Wrappers
  import opened LocalDb
  import opened Sorting
  import Ledger

  /** Credits minus debits over the customer's entries. */
  function LedgerBalanceOf(rows: seq<LedgerRow>, customerId: string): real {
    Ledger.Balance(Postings(rows, customerId))
  }

  /** The cached balance of customer `c`, when the record exists, is its ledger balance. */
  predicate CacheConsistent(m: map<string, Customer>, rows: seq<LedgerRow>, c: string) {
    c in m ==> OrZero(m[c].balance) == LedgerBalanceOf(rows, c)
  }

  lemma PostingsAppend(rows: seq<LedgerRow>, row: LedgerRow, c: string)
    ensures Postings(rows + [row], c) ==
      Postings(rows, c) + (if row.customerId == c then [Ledger.Posting(row.kind, row.amount)] else [])
  {
    assert (rows + [row])[..|rows|] == rows;
  }

  /** Appending an entry moves only its own customer's ledger balance, by the entry's signed amount. */
  lemma LedgerBalanceOfAppend(rows: seq<LedgerRow>, row: LedgerRow, c: string)
    ensures LedgerBalanceOf(rows + [row], c) ==
      LedgerBalanceOf(rows, c) + (if row.customerId == c then Ledger.Delta(Ledger.Posting(row.kind, row.amount)) else 0.0)
  {
    PostingsAppend(rows, row, c);
    var p := Ledger.Posting(row.kind, row.amount);
    if row.customerId == c {
      Ledger.BalanceAppend(Postings(rows, c), [p]);
      assert [p][..0] == [];
    } else {
      assert Postings(rows, c) + [] == Postings(rows, c);
    }
  }

  /**
   * `calculateCustomerBalance`: the loop over the customer's entries adds credits,
   * subtracts debits and skips every other type.
   */
  method CalculateCustomerBalance(db: Db, customerId: string) returns (balance: real)
    ensures balance == LedgerBalanceOf(db.ledger, customerId)
  {
    var entries := RowsOf(db.ledger, customerId);
    balance := 0.0;
    for i := 0 to |entries|
      invariant balance == Ledger.Balance(AsPostings(entries[..i]))
    {
      var e := entries[i];
      RowBalanceStep(entries, i);
      if e.kind == "credit" {
        balance := balance + e.amount;
      } else if e.kind == "debit" {
        balance := balance - e.amount;
      }
    }
    assert entries[..|entries|] == entries;
    RowsOfPostings(db.ledger, customerId);
  }

  /** `db.customers.update(id, { balance, updatedAt })`; Dexie ignores an unknown id. */
  function SetBalance(m: map<string, Customer>, id: string, balance: real, now: string): (r: map<string, Customer>)
    ensures r.Keys == m.Keys
    ensures id in m ==> r[id] == m[id].(balance := Some(balance), updatedAt := now)
    ensures forall k :: k in m && k != id ==> r[k] == m[k]
  {
    if id in m then m[id := m[id].(balance := Some(balance), updatedAt := now)] else m
  }

  /** `recalculateAndCache`: afterwards the cached balance agrees with the ledger. */
  method RecalculateAndCache(db: Db, customerId: string, now: string) returns (balance: real)
    requires db.Valid()
    modifies db`customers
    ensures db.Valid()
    ensures balance == LedgerBalanceOf(db.ledger, customerId)
    ensures db.customers == SetBalance(old(db.customers), customerId, balance, now)
    ensures CacheConsistent(db.customers, db.ledger, customerId)
  {
    balance := CalculateCustomerBalance(db, customerId);
    db.customers := SetBalance(db.customers, customerId, balance, now);
  }

  /** Re-caching a balance fixes its customer and leaves the others as consistent as they were. */
  lemma RecalculateFixesOnlyItsCustomer(m: map<string, Customer>, rows: seq<LedgerRow>, id: string, now: string, c: string)
    ensures CacheConsistent(SetBalance(m, id, LedgerBalanceOf(rows, id), now), rows, c) <==>
      (c == id || CacheConsistent(m, rows, c))
  {
  }

  /** The customer update of `applyCredit`/`applyDebit`: `(balance || 0) + delta`, when the record exists. */
  function AdjustBalance(m: map<string, Customer>, id: string, delta: real, now: string): (r: map<string, Customer>)
    ensures r.Keys == m.Keys
    ensures id in m ==> OrZero(r[id].balance) == OrZero(m[id].balance) + delta
    ensures id in m ==> r[id] == m[id].(balance := Some(OrZero(m[id].balance) + delta), updatedAt := now)
    ensures forall k :: k in m && k != id ==> r[k] == m[k]
  {
    if id in m then SetBalance(m, id, OrZero(m[id].balance) + delta, now) else m
  }

  /** `description || default`. */
  function TextOr(description: string, default: string): (r: string)
    ensures r == "" ==> default == ""
    ensures description != "" ==> r == description
  {
    if description != "" then description else default
  }

  /** The entry `applyCredit` (kind "credit") or `applyDebit` (kind "debit") writes. */
  function ManualEntry(freshId: string, customerId: string, kind: string, amount: real,
                       description: string, invoiceId: Option<string>, fmt: real -> string, now: string): (row: LedgerRow)
    ensures row.id == Uuid(freshId) && row.customerId == customerId && row.kind == kind && row.amount == amount
    ensures row.synced == 0 && row.invoiceId == invoiceId && row.createdAt == now
  {
    var fallback := if kind == "credit" then "Credit ₹" + fmt(amount) else "Payment ₹" + fmt(amount);
    LedgerRow(Uuid(freshId), "", customerId, invoiceId, kind, amount, TextOr(description, fallback), "", 0, now)
  }

  /**
   * `applyCredit` (`isCredit`) and `applyDebit`: add the entry under its fresh id, move the
   * cached balance by `+amount` or `-amount`, and queue `("ledger", id, "create")`. When the
   * id is already taken the `add` throws and nothing else happens.
   */
  method ApplyManual(db: Db, isCredit: bool, customerId: string, amount: real, description: string,
                     invoiceId: Option<string>, freshId: string, fmt: real -> string, now: string)
    returns (entry: Option<LedgerRow>)
    requires db.Valid()
    modifies db`ledger, db`customers, db`syncQueue, db`nextQueueId
    ensures db.Valid()
    ensures entry.None? <==> Uuid(freshId) in LedgerKeys(old(db.ledger))
    ensures entry.None? ==> && db.ledger == old(db.ledger) && db.customers == old(db.customers)
                            && db.syncQueue == old(db.syncQueue) && db.nextQueueId == old(db.nextQueueId)
    ensures entry.Some? ==>
      && entry.value == ManualEntry(freshId, customerId, if isCredit then "credit" else "debit", amount, description, invoiceId, fmt, now)
      && db.ledger == old(db.ledger) + [entry.value]
      && db.customers == AdjustBalance(old(db.customers), customerId, if isCredit then amount else -amount, now)
      && db.syncQueue == old(db.syncQueue) + [QueueItem(old(db.nextQueueId), "ledger", freshId, "create", now)]
      && db.nextQueueId == old(db.nextQueueId) + 1
  {
    var row := ManualEntry(freshId, customerId, if isCredit then "credit" else "debit", amount, description, invoiceId, fmt, now);
    entry := db.AddLedgerRowWithId(freshId, customerId, invoiceId, row.kind, amount, row.description, now);
    if entry.None? {
      return;
    }
    db.customers := AdjustBalance(db.customers, customerId, if isCredit then amount else -amount, now);
    db.AddQueueItem("ledger", freshId, "create", now);
  }

  method ApplyCredit(db: Db, customerId: string, amount: real, description: string, invoiceId: Option<string>,
                     freshId: string, fmt: real -> string, now: string)
    returns (entry: Option<LedgerRow>)
    requires db.Valid()
    modifies db`ledger, db`customers, db`syncQueue, db`nextQueueId
    ensures db.Valid()
    ensures entry.None? <==> Uuid(freshId) in LedgerKeys(old(db.ledger))
    ensures entry.None? ==> && db.ledger == old(db.ledger) && db.customers == old(db.customers)
                            && db.syncQueue == old(db.syncQueue) && db.nextQueueId == old(db.nextQueueId)
    ensures entry.Some? ==>
      && entry.value == ManualEntry(freshId, customerId, "credit", amount, description, invoiceId, fmt, now)
      && db.ledger == old(db.ledger) + [entry.value]
      && db.customers == AdjustBalance(old(db.customers), customerId, amount, now)
      && db.syncQueue == old(db.syncQueue) + [QueueItem(old(db.nextQueueId), "ledger", freshId, "create", now)]
      && db.nextQueueId == old(db.nextQueueId) + 1
  {
    entry := ApplyManual(db, true, customerId, amount, description, invoiceId, freshId, fmt, now);
  }

  method ApplyDebit(db: Db, customerId: string, amount: real, description: string, invoiceId: Option<string>,
                    freshId: string, fmt: real -> string, now: string)
    returns (entry: Option<LedgerRow>)
    requires db.Valid()
    modifies db`ledger, db`customers, db`syncQueue, db`nextQueueId
    ensures db.Valid()
    ensures entry.None? <==> Uuid(freshId) in LedgerKeys(old(db.ledger))
    ensures entry.None? ==> && db.ledger == old(db.ledger) && db.customers == old(db.customers)
                            && db.syncQueue == old(db.syncQueue) && db.nextQueueId == old(db.nextQueueId)
    ensures entry.Some? ==>
      && entry.value == ManualEntry(freshId, customerId, "debit", amount, description, invoiceId, fmt, now)
      && db.ledger == old(db.ledger) + [entry.value]
      && db.customers == AdjustBalance(old(db.customers), customerId, -amount, now)
      && db.syncQueue == old(db.syncQueue) + [QueueItem(old(db.nextQueueId), "ledger", freshId, "create", now)]
      && db.nextQueueId == old(db.nextQueueId) + 1
  {
    entry := ApplyManual(db, false, customerId, amount, description, invoiceId, freshId, fmt, now);
  }

  /** The default descriptions name the direction and the amount. */
  lemma ManualEntryDescription(freshId: string, customerId: string, amount: real, invoiceId: Option<string>,
                               fmt: real -> string, now: string)
    ensures ManualEntry(freshId, customerId, "credit", amount, "", invoiceId, fmt, now).description == "Credit ₹" + fmt(amount)
    ensures ManualEntry(freshId, customerId, "debit", amount, "", invoiceId, fmt, now).description == "Payment ₹" + fmt(amount)
  {
  }

  /**
   * `applyCredit` and `applyDebit` keep every customer's cached balance in step with the
   * ledger: the entry's signed amount is exactly what the cache moves by.
   */
  lemma ManualKeepsCache(m: map<string, Customer>, rows: seq<LedgerRow>, isCredit: bool, freshId: string,
                         customerId: string, amount: real, description: string, invoiceId: Option<string>,
                         fmt: real -> string, now: string, c: string)
    requires CacheConsistent(m, rows, c)
    ensures var row := ManualEntry(freshId, customerId, if isCredit then "credit" else "debit", amount, description, invoiceId, fmt, now);
      CacheConsistent(AdjustBalance(m, customerId, if isCredit then amount else -amount, now), rows + [row], c)
  {
    var row := ManualEntry(freshId, customerId, if isCredit then "credit" else "debit", amount, description, invoiceId, fmt, now);
    LedgerBalanceOfAppend(rows, row, c);
  }

  /** `Math.abs`. */
  function Abs(x: real): (r: real)
    ensures r >= 0.0 && (r == x || r == -x)
  {
    if x < 0.0 then -x else x
  }

  /** `type === "selling" || type === "credit"`: every other type moves the balances down. */
  predicate IsCreditKind(kind: string) {
    kind == "selling" || kind == "credit"
  }

  /** The customer update of `applyTransaction`: balance and amount owed move by `delta`, and the record is unsynced. */
  function AdjustCached(m: map<string, Customer>, id: string, delta: real): (r: map<string, Customer>)
    ensures r.Keys == m.Keys
    ensures id in m ==> && OrZero(r[id].balance) == OrZero(m[id].balance) + delta
                        && OrZero(r[id].amountOwed) == OrZero(m[id].amountOwed) + delta
                        && r[id].synced == 0
    ensures id in m ==> r[id] == m[id].(balance := Some(OrZero(m[id].balance) + delta),
                                        amountOwed := Some(OrZero(m[id].amountOwed) + delta), synced := 0)
    ensures forall k :: k in m && k != id ==> r[k] == m[k]
  {
    if id in m then
      var c := m[id];
      m[id := c.(balance := Some(OrZero(c.balance) + delta), amountOwed := Some(OrZero(c.amountOwed) + delta), synced := 0)]
    else m
  }

  /** The entry `applyTransaction` writes; the store assigns its key. */
  function TransactionEntry(key: nat, customerId: string, amount: real, kind: string, invoiceId: Option<string>,
                            description: string, source: Option<string>, stamp: string, fmt: real -> string,
                            now: string): (row: LedgerRow)
    ensures row.id == Auto(key) && row.kind == kind && row.amount == Abs(amount) && row.amount >= 0.0
    ensures row.customerId == customerId && row.clientId == "ledger-" + customerId + "-" + stamp
    ensures row.source == source.GetOr("invoice") && row.synced == 0
    ensures row.invoiceId == invoiceId && row.createdAt == now
    ensures description != "" ==> row.description == description
    ensures description == "" ==>
      row.description == (if IsCreditKind(kind) then "Credit ₹" else "Debit ₹") + fmt(Abs(amount))
  {
    var a := Abs(amount);
    var fallback := if IsCreditKind(kind) then "Credit ₹" + fmt(a) else "Debit ₹" + fmt(a);
    LedgerRow(Auto(key), "ledger-" + customerId + "-" + stamp, customerId, invoiceId, kind, a,
              TextOr(description, fallback), source.GetOr("invoice"), 0, now)
  }

  const TransactionError := "applyTransaction requires customerId and amount"

  /**
   * `applyTransaction`: refused without a customer id or an amount; otherwise the entry
   * with `|amount|` is appended under the next auto-increment key and the customer's
   * balance and amount owed move by `+|amount|` for "selling"/"credit" and by `-|amount|`
   * for every other type. Nothing is queued for sync.
   */
  method ApplyTransaction(db: Db, customerId: string, amount: Option<real>, kind: string, invoiceId: Option<string>,
                          description: string, source: Option<string>, stamp: string, fmt: real -> string,
                          now: string)
    returns (r: Result<LedgerRow>)
    requires db.Valid()
    modifies db`ledger, db`nextLedgerId, db`customers
    ensures db.Valid()
    ensures r.Err? <==> customerId == "" || amount.None?
    ensures r.Err? ==> r.msg == TransactionError && db.ledger == old(db.ledger) && db.customers == old(db.customers)
                       && db.nextLedgerId == old(db.nextLedgerId)
    ensures r.Ok? ==>
      && r.value == TransactionEntry(old(db.nextLedgerId), customerId, amount.value, kind, invoiceId, description, source, stamp, fmt, now)
      && db.ledger == old(db.ledger) + [r.value]
      && db.nextLedgerId == old(db.nextLedgerId) + 1
      && db.customers == AdjustCached(old(db.customers), customerId,
                                      if IsCreditKind(kind) then Abs(amount.value) else -Abs(amount.value))
  {
    if customerId == "" || amount.None? {
      return Err(TransactionError);
    }
    var e := TransactionEntry(db.nextLedgerId, customerId, amount.value, kind, invoiceId, description, source, stamp, fmt, now);
    var row := db.AddLedgerRow(e.clientId, customerId, invoiceId, kind, e.amount, e.description, e.source, now);
    var a := Abs(amount.value);
    db.customers := AdjustCached(db.customers, customerId, if IsCreditKind(kind) then a else -a);
    r := Ok(row);
  }

  /** A "credit" or "debit" transaction keeps every cached balance in step with the ledger. */
  lemma TransactionKeepsCache(m: map<string, Customer>, rows: seq<LedgerRow>, key: nat, customerId: string,
                              amount: real, kind: string, invoiceId: Option<string>, description: string,
                              source: Option<string>, stamp: string, fmt: real -> string, now: string, c: string)
    requires kind == "credit" || kind == "debit"
    requires CacheConsistent(m, rows, c)
    ensures var row := TransactionEntry(key, customerId, amount, kind, invoiceId, description, source, stamp, fmt, now);
      CacheConsistent(AdjustCached(m, customerId, if IsCreditKind(kind) then Abs(amount) else -Abs(amount)), rows + [row], c)
  {
    var row := TransactionEntry(key, customerId, amount, kind, invoiceId, description, source, stamp, fmt, now);
    LedgerBalanceOfAppend(rows, row, c);
  }

  /**
   * A "selling" or "buying" transaction of a non-zero amount moves the cached balance but
   * not the ledger balance, which ignores those types: the cache and the ledger drift apart.
   */
  lemma TransactionVocabularyDrifts(m: map<string, Customer>, rows: seq<LedgerRow>, key: nat, customerId: string,
                                    amount: real, kind: string, invoiceId: Option<string>, description: string,
                                    source: Option<string>, stamp: string, fmt: real -> string, now: string)
    requires kind == "selling" || kind == "buying"
    requires amount != 0.0 && customerId in m
    requires CacheConsistent(m, rows, customerId)
    ensures var row := TransactionEntry(key, customerId, amount, kind, invoiceId, description, source, stamp, fmt, now);
      !CacheConsistent(AdjustCached(m, customerId, if IsCreditKind(kind) then Abs(amount) else -Abs(amount)), rows + [row], customerId)
  {
    var row := TransactionEntry(key, customerId, amount, kind, invoiceId, description, source, stamp, fmt, now);
    LedgerBalanceOfAppend(rows, row, customerId);
  }

  /** `getCustomerLedger`: the customer's entries, newest first. */
  method GetCustomerLedger(db: Db, customerId: string) returns (list: seq<LedgerRow>)
    ensures multiset(list) == multiset(RowsOf(db.ledger, customerId))
    ensures forall x :: x in list <==> x in db.ledger && x.customerId == customerId
    ensures SortedDescByStr(list, (x: LedgerRow) => x.createdAt)
  {
    var rows := RowsOf(db.ledger, customerId);
    list := SortDescByStr(rows, (x: LedgerRow) => x.createdAt);
    SortDescByStrSorted(rows, (x: LedgerRow) => x.createdAt);
    forall x ensures x in list <==> x in rows {
      assert x in list <==> x in multiset(list);
      assert x in rows <==> x in multiset(rows);
    }
  }

  /** The projection `getTopDebtors` returns. */
  datatype Debtor = Debtor(id: string, name: string, phone: string, balance: Option<real>)

  function AsDebtor(c: Customer): Debtor {
    Debtor(c.id, c.name, c.phone, c.balance)
  }

  function BalanceKey(c: Customer): real {
    OrZero(c.balance)
  }

  function Debtors(cs: seq<Customer>): (ds: seq<Debtor>)
    ensures |ds| == |cs|
    ensures forall i :: 0 <= i < |cs| ==> ds[i] == AsDebtor(cs[i])
  {
    if cs == [] then [] else Debtors(cs[..|cs| - 1]) + [AsDebtor(cs[|cs| - 1])]
  }

  /** The candidates `getTopDebtors` ranks: the customers with a positive balance, largest first. */
  function Ranked(all: seq<Customer>): (s: seq<Customer>)
    ensures multiset(s) <= multiset(all)
    ensures forall c :: c in s <==> c in all && BalanceKey(c) > 0.0
    ensures forall i :: 0 <= i < |s| ==> BalanceKey(s[i]) > 0.0
    ensures forall i, j :: 0 <= i < j < |s| ==> BalanceKey(s[j]) <= BalanceKey(s[i])
  {
    var owing := Filter(all, (c: Customer) => BalanceKey(c) > 0.0);
    var s := SortDescByReal(owing, BalanceKey);
    SortDescByRealSorted(owing, BalanceKey);
    forall c ensures c in s <==> c in owing {
      assert c in s <==> c in multiset(s);
      assert c in owing <==> c in multiset(owing);
    }
    assert forall i :: 0 <= i < |s| ==> s[i] in s;
    s
  }

  /**
   * `getTopDebtors(limit)` over `db.customers.toArray()`: at most `limit` customers, each
   * with a positive balance, largest first.
   */
  function TopDebtors(all: seq<Customer>, limit: nat): (r: seq<Debtor>)
    ensures |r| <= limit
    ensures forall i :: 0 <= i < |r| ==> OrZero(r[i].balance) > 0.0
    ensures forall i, j :: 0 <= i < j < |r| ==> OrZero(r[j].balance) <= OrZero(r[i].balance)
  {
    RankedPrefix(Ranked(all), limit);
    Debtors(Take(Ranked(all), limit))
  }

  /** The first `n` of a ranked list, as debtors, are ranked. */
  lemma RankedPrefix(s: seq<Customer>, n: nat)
    requires forall i :: 0 <= i < |s| ==> BalanceKey(s[i]) > 0.0
    requires forall i, j :: 0 <= i < j < |s| ==> BalanceKey(s[j]) <= BalanceKey(s[i])
    ensures var r := Debtors(Take(s, n));
      && |r| <= n
      && (forall i :: 0 <= i < |r| ==> OrZero(r[i].balance) > 0.0)
      && (forall i, j :: 0 <= i < j < |r| ==> OrZero(r[j].balance) <= OrZero(r[i].balance))
  {
    var top := Take(s, n);
    var r := Debtors(top);
    forall i | 0 <= i < |r|
      ensures r[i].balance == s[i].balance
    {
      assert top[i] == s[i];
    }
  }

  /** Every listed debtor is one of the customers. */
  lemma TopDebtorsFromAll(all: seq<Customer>, limit: nat)
    ensures var r := TopDebtors(all, limit);
      forall i :: 0 <= i < |r| ==> exists c :: c in all && r[i] == AsDebtor(c)
  {
    var s := Ranked(all);
    var top := Take(s, limit);
    var r := TopDebtors(all, limit);
    forall i | 0 <= i < |r|
      ensures exists c :: c in all && r[i] == AsDebtor(c)
    {
      assert top[i] == s[i] && s[i] in s;
    }
  }

  /**
   * The list is the top of the ranking: a customer owing money who is not listed owes no
   * more than any listed one, and the list is full.
   */
  lemma TopDebtorsAreTop(all: seq<Customer>, limit: nat, c: Customer)
    requires c in all && BalanceKey(c) > 0.0
    ensures var r := TopDebtors(all, limit);
      AsDebtor(c) !in r ==> |r| == limit && forall i :: 0 <= i < |r| ==> BalanceKey(c) <= OrZero(r[i].balance)
  {
    var s := Ranked(all);
    var top := Take(s, limit);
    var r := TopDebtors(all, limit);
    assert c in s;
    var j :| 0 <= j < |s| && s[j] == c;
    if j < |top| {
      assert r[j] == AsDebtor(top[j]);
    } else {
      forall i | 0 <= i < |r|
        ensures BalanceKey(c) <= OrZero(r[i].balance)
      {
        assert r[i] == AsDebtor(s[i]);
      }
    }
  }
}
