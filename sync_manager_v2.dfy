/**
 * The client sync engine (second version): a manager with a re-entry flag, a retry
 * counter with exponential backoff, a debounce timer, a once-only installer of the
 * `online` handler and a set of listeners told of every attempt that reached the network.
 *
 * `syncNow` is split at its one `await` on the network into `BeginSync` (the guards, the
 * snapshot of unsynced rows, the payload) and `FinishSync` (the outcome), so that the
 * store may change, and another `syncNow` may be attempted, while a request is in flight.
 * The network is an oracle: `reply` is the decoded body, or `None` when `bulkSync` throws;
 * `waOk` says which `sendWhatsApp` calls succeed; `online` is `navigator.onLine`.
 * Timers are recorded, not run: the caller performs the `syncNow` a timer would.
 */
module SyncManagerV2 {
  import opened Wrappers
  import opened LocalDb
  import opened SyncApi

  const MaxRetries: nat := 5
  const BaseDelayMs: nat := 2000
  const DebounceMs: nat := 300

  function Pow2(n: nat): (r: nat)
    ensures r >= 1
  {
    if n == 0 then 1 else 2 * Pow2(n - 1)
  }

  /** `BASE_DELAY_MS * Math.pow(2, attempt - 1)` for attempt 1..5: 2 s, 4 s, 8 s, 16 s, 32 s. */
  function Backoff(attempt: nat): (ms: nat)
    requires attempt >= 1
    ensures ms == BaseDelayMs * Pow2(attempt - 1)
    ensures attempt > 1 ==> ms == 2 * Backoff(attempt - 1)
  {
    BaseDelayMs * Pow2(attempt - 1)
  }

  /** The retry counter after a failed attempt, and the delay of the retry scheduled, if any. */
  function AfterFailure(count: nat, online: bool): (res: (nat, Option<nat>))
    ensures res.1.Some? <==> count < MaxRetries && online
    ensures res.1.Some? ==> res.0 == count + 1 && res.1.value == Backoff(count + 1)
    ensures res.1.None? ==> res.0 == count
  {
    if count < MaxRetries && online then (count + 1, Some(Backoff(count + 1))) else (count, None)
  }

  /** The retry delays scheduled by `n` consecutive failed attempts, online, from counter `count`. */
  function ScheduledAfter(count: nat, n: nat): seq<nat>
    decreases n
  {
    if n == 0 then []
    else
      var (c, d) := AfterFailure(count, true);
      (if d.Some? then [d.value] else []) + ScheduledAfter(c, n - 1)
  }

  function Min(a: nat, b: nat): nat {
    if a <= b then a else b
  }

  /**
   * From a fresh counter, `n` failures in a row schedule `min(n, 5)` retries, the i-th
   * after 2000 * 2^i ms; the sixth failure schedules none.
   */
  lemma {:induction false} ScheduledAfterFailures(count: nat, n: nat)
    requires count <= MaxRetries
    ensures |ScheduledAfter(count, n)| == Min(n, MaxRetries - count)
    ensures forall i :: 0 <= i < |ScheduledAfter(count, n)| ==> ScheduledAfter(count, n)[i] == Backoff(count + i + 1)
    decreases n
  {
    if n > 0 {
      var (c, d) := AfterFailure(count, true);
      ScheduledAfterFailures(c, n - 1);
      if count == MaxRetries {
        assert ScheduledAfter(count, n) == ScheduledAfter(count, n - 1);
      }
    }
  }

  /** What `syncNow` resolves to. */
  datatype SyncResult =
    | AlreadySyncing     // { ok: false, errors: ["Sync already in progress"] }
    | DeviceOffline      // { ok: false, errors: ["Device is offline"] }
    | NothingPending     // { ok: true, synced: 0/0/0, errors: [] }
    | Synced(reply: ClientReply)
    | Failed             // { ok: false, errors: [err.message] }
  {
    predicate Ok() {
      NothingPending? || Synced?
    }
  }

  /** The rows `syncNow` read as unsynced: the ids it will mark once the server answers. */
  datatype Snapshot = Snapshot(customers: set<string>, invoices: set<string>, ledger: set<LedgerKey>)

  datatype Begin = Early(result: SyncResult) | InFlight(snap: Snapshot, body: SyncBody)

  /** One `_listeners.forEach(cb => cb(result))`: the callbacks registered then, and the result. */
  datatype Notification = Notification(listeners: set<nat>, result: SyncResult)

  datatype SyncStatus = SyncStatus(
    online: bool, syncing: bool, customers: nat, invoices: nat, ledger: nat, total: nat, queueSize: nat)

  function CustomerPayloadOf(c: Customer): (p: CustomerPayload)
    ensures p.clientId == c.id && p.balance == OrZero(c.balance)
    ensures p.status == if c.status == "" then "active" else c.status
  {
    CustomerPayload(c.id, c.name, c.phone, c.address, OrZero(c.balance), if c.status == "" then "active" else c.status)
  }

  function InvoicePayloadOf(v: Invoice): (p: InvoicePayload)
    ensures p.clientId == v.id && p.items == v.items && p.total == v.total
  {
    InvoicePayload(v.id, v.customerId, v.items, v.total, v.status, v.whatsappSent)
  }

  function LedgerPayloadOf(r: LedgerRow): (p: LedgerPayload)
    ensures p.clientId == r.id && p.kind == r.kind && p.amount == r.amount
  {
    LedgerPayload(r.id, r.customerId, r.kind, r.amount, r.description, r.invoiceId)
  }

  /** `where("synced").equals(0).toArray()` on the customers, mapped to the payload shape. */
  method UnsyncedCustomerPayloads(m: map<string, Customer>) returns (ps: seq<CustomerPayload>)
    requires CustomersKeyed(m)
    ensures |ps| == |UnsyncedCustomers(m)|
    ensures forall k :: k in UnsyncedCustomers(m) ==> CustomerPayloadOf(m[k]) in ps
    ensures forall i :: 0 <= i < |ps| ==> ps[i].clientId in UnsyncedCustomers(m) && ps[i] == CustomerPayloadOf(m[ps[i].clientId])
  {
    var todo := UnsyncedCustomers(m);
    ps := [];
    while todo != {}
      invariant todo <= UnsyncedCustomers(m)
      invariant |ps| + |todo| == |UnsyncedCustomers(m)|
      invariant forall k :: k in UnsyncedCustomers(m) && k !in todo ==> CustomerPayloadOf(m[k]) in ps
      invariant forall i :: 0 <= i < |ps| ==> ps[i].clientId in UnsyncedCustomers(m) - todo && ps[i] == CustomerPayloadOf(m[ps[i].clientId])
      decreases |todo|
    {
      var k :| k in todo;
      ps := ps + [CustomerPayloadOf(m[k])];
      todo := todo - {k};
    }
  }

  method UnsyncedInvoicePayloads(m: map<string, Invoice>) returns (ps: seq<InvoicePayload>)
    requires InvoicesKeyed(m)
    ensures |ps| == |UnsyncedInvoices(m)|
    ensures forall k :: k in UnsyncedInvoices(m) ==> InvoicePayloadOf(m[k]) in ps
    ensures forall i :: 0 <= i < |ps| ==> ps[i].clientId in UnsyncedInvoices(m) && ps[i] == InvoicePayloadOf(m[ps[i].clientId])
  {
    var todo := UnsyncedInvoices(m);
    ps := [];
    while todo != {}
      invariant todo <= UnsyncedInvoices(m)
      invariant |ps| + |todo| == |UnsyncedInvoices(m)|
      invariant forall k :: k in UnsyncedInvoices(m) && k !in todo ==> InvoicePayloadOf(m[k]) in ps
      invariant forall i :: 0 <= i < |ps| ==> ps[i].clientId in UnsyncedInvoices(m) - todo && ps[i] == InvoicePayloadOf(m[ps[i].clientId])
      decreases |todo|
    {
      var k :| k in todo;
      ps := ps + [InvoicePayloadOf(m[k])];
      todo := todo - {k};
    }
  }

  function LedgerPayloads(rows: seq<LedgerRow>): (ps: seq<LedgerPayload>)
    ensures |ps| == |rows| && forall i :: 0 <= i < |rows| ==> ps[i] == LedgerPayloadOf(rows[i])
  {
    seq(|rows|, i requires 0 <= i < |rows| => LedgerPayloadOf(rows[i]))
  }

  /** The WhatsApp ids the client reads from the reply: `data.invoicesNeedingWhatsApp`, absent meaning none. */
  function WhatsAppIds(r: ClientReply): seq<string> {
    r.invoicesNeedingWhatsApp.GetOr([])
  }

  /** The local `whatsappSent: true` after each successful `sendWhatsApp`, in list order. */
  function MarkWhatsApp(m: map<string, Invoice>, ids: seq<string>, ok: string -> bool): (r: map<string, Invoice>)
    ensures r.Keys == m.Keys
    ensures forall k :: k in m ==> r[k] == if k in ids && ok(k) then m[k].(whatsappSent := true) else m[k]
  {
    if ids == [] then m
    else
      var front := MarkWhatsApp(m, ids[..|ids| - 1], ok);
      var id := ids[|ids| - 1];
      assert forall k :: k in ids <==> k in ids[..|ids| - 1] || k == id;
      if ok(id) && id in front then front[id := front[id].(whatsappSent := true)] else front
  }

  /** One more id in the WhatsApp pass marks at most that invoice. */
  lemma MarkWhatsAppStep(m: map<string, Invoice>, ids: seq<string>, i: nat, ok: string -> bool)
    requires i < |ids|
    ensures var f := MarkWhatsApp(m, ids[..i], ok);
      MarkWhatsApp(m, ids[..i + 1], ok) == if ok(ids[i]) && ids[i] in f then f[ids[i] := f[ids[i]].(whatsappSent := true)] else f
  {
    assert ids[..i + 1][..i] == ids[..i];
  }

  lemma MarkSentKeyed(m: map<string, Invoice>, id: string)
    requires InvoicesKeyed(m) && id in m
    ensures InvoicesKeyed(m[id := m[id].(whatsappSent := true)])
  {
  }

  /** The WhatsApp pass never changes whether an invoice is synced. */
  lemma MarkWhatsAppKeepsSynced(m: map<string, Invoice>, ids: seq<string>, ok: string -> bool)
    ensures UnsyncedInvoices(MarkWhatsApp(m, ids, ok)) == UnsyncedInvoices(m)
  {
    var r := MarkWhatsApp(m, ids, ok);
    assert forall k :: k in m ==> r[k].synced == m[k].synced;
  }

  /**
   * The reply of this server never lists `invoicesNeedingWhatsApp`, so the client's
   * post-sync WhatsApp pass changes no invoice.
   */
  lemma ServerReplyTriggersNoWhatsApp(r: SyncReply, m: map<string, Invoice>, ok: string -> bool)
    ensures MarkWhatsApp(m, WhatsAppIds(FromServer(r)), ok) == m
  {
  }

  class SyncManager {
    var syncing: bool
    var retryCount: nat
    /** The pending debounced `syncNow`, if any, by its delay. */
    var syncTimer: Option<nat>
    /** The delays of every retry timer set so far, in order. */
    var scheduled: seq<nat>
    var listening: bool
    var listeners: set<nat>
    var notified: seq<Notification>

    ghost predicate Valid()
      reads this
    {
      retryCount <= MaxRetries
    }

    constructor ()
      ensures Valid()
      ensures !syncing && retryCount == 0 && syncTimer.None? && scheduled == []
      ensures !listening && listeners == {} && notified == []
    {
      syncing, retryCount, syncTimer, scheduled := false, 0, None, [];
      listening, listeners, notified := false, {}, [];
    }

    /** `onSyncComplete(cb)`: `cb` is told of every later attempt; the returned function undoes it. */
    method OnSyncComplete(cb: nat)
      modifies this`listeners
      ensures listeners == old(listeners) + {cb}
    {
      listeners := listeners + {cb};
    }

    method Unsubscribe(cb: nat)
      modifies this`listeners
      ensures listeners == old(listeners) - {cb}
    {
      listeners := listeners - {cb};
    }

    /**
     * `enqueueSyncItem`: the queue item is added; online, any pending debounce timer is
     * replaced by a new 300 ms one.
     */
    method EnqueueSyncItem(db: Db, kind: string, recordId: string, action: string, online: bool, now: string)
      requires db.Valid()
      modifies db`syncQueue, db`nextQueueId, this`syncTimer
      ensures db.Valid()
      ensures db.syncQueue == old(db.syncQueue) + [QueueItem(old(db.nextQueueId), kind, recordId, action, now)]
      ensures db.nextQueueId == old(db.nextQueueId) + 1
      ensures syncTimer == if online then Some(DebounceMs) else old(syncTimer)
    {
      db.AddQueueItem(kind, recordId, action, now);
      if online {
        syncTimer := Some(DebounceMs);
      }
    }

    /**
     * The part of `syncNow` before the request: refused while another sync is in flight
     * and when offline; with nothing unsynced it resolves at once and resets the retry
     * counter; otherwise it raises the flag and returns the snapshot and the payload.
     */
    method BeginSync(db: Db, online: bool) returns (b: Begin)
      requires Valid() && db.Valid()
      modifies this`syncing, this`retryCount
      ensures Valid()
      ensures old(syncing) ==> b == Early(AlreadySyncing) && syncing && retryCount == old(retryCount)
      ensures !old(syncing) && !online ==> b == Early(DeviceOffline) && !syncing && retryCount == old(retryCount)
      ensures b.Early? ==> b.result.AlreadySyncing? || b.result.DeviceOffline? || b.result.NothingPending?
      ensures !old(syncing) && online ==> b != Early(AlreadySyncing) && b != Early(DeviceOffline)
      ensures b == Early(NothingPending) <==>
        && !old(syncing) && online
        && UnsyncedCustomers(db.customers) == {} && UnsyncedInvoices(db.invoices) == {} && UnsyncedLedger(db.ledger) == []
      ensures b == Early(NothingPending) ==> !syncing && retryCount == 0
      ensures b.InFlight? ==>
        && syncing && retryCount == old(retryCount)
        && b.snap == Snapshot(UnsyncedCustomers(db.customers), UnsyncedInvoices(db.invoices), LedgerKeys(UnsyncedLedger(db.ledger)))
        && b.body.customers.Some? && b.body.invoices.Some?
        && |b.body.customers.value| == |UnsyncedCustomers(db.customers)|
        && (forall k :: k in UnsyncedCustomers(db.customers) ==> CustomerPayloadOf(db.customers[k]) in b.body.customers.value)
        && |b.body.invoices.value| == |UnsyncedInvoices(db.invoices)|
        && (forall k :: k in UnsyncedInvoices(db.invoices) ==> InvoicePayloadOf(db.invoices[k]) in b.body.invoices.value)
        && b.body.ledger == Some(LedgerPayloads(UnsyncedLedger(db.ledger)))
    {
      if syncing {
        return Early(AlreadySyncing);
      }
      if !online {
        return Early(DeviceOffline);
      }
      syncing := true;
      var customers := UnsyncedCustomers(db.customers);
      var invoices := UnsyncedInvoices(db.invoices);
      var ledger := UnsyncedLedger(db.ledger);
      if |customers| == 0 && |invoices| == 0 && |ledger| == 0 {
        syncing := false;
        retryCount := 0;
        return Early(NothingPending);
      }
      var cps := UnsyncedCustomerPayloads(db.customers);
      var ips := UnsyncedInvoicePayloads(db.invoices);
      b := InFlight(Snapshot(customers, invoices, LedgerKeys(ledger)), SyncBody(Some(cps), Some(ips), Some(LedgerPayloads(ledger))));
    }

    /**
     * The part of `syncNow` after the request. On a reply: every row of the snapshot is
     * marked synced, the whole queue is cleared (items added meanwhile included), the
     * invoices the reply lists get `whatsappSent` where `sendWhatsApp` succeeds, the
     * counter is reset, and the listeners are told. On a failure: the store is untouched,
     * the listeners are told, and while fewer than five retries were made and the device
     * is online, the counter goes up and a retry is scheduled after the backoff delay.
     * Either way the flag is lowered.
     */
    method FinishSync(db: Db, snap: Snapshot, reply: Option<ClientReply>, waOk: string -> bool, online: bool)
      returns (result: SyncResult)
      requires Valid() && db.Valid()
      modifies this`syncing, this`retryCount, this`scheduled, this`notified
      modifies db`customers, db`invoices, db`ledger, db`syncQueue
      ensures Valid() && db.Valid() && !syncing
      ensures notified == old(notified) + [Notification(listeners, result)]
      ensures reply.Some? ==>
        && result == Synced(reply.value)
        && db.customers == MarkCustomersSynced(old(db.customers), snap.customers)
        && db.invoices == MarkWhatsApp(MarkInvoicesSynced(old(db.invoices), snap.invoices), WhatsAppIds(reply.value), waOk)
        && db.ledger == MarkLedgerSynced(old(db.ledger), snap.ledger)
        && db.syncQueue == []
        && retryCount == 0 && scheduled == old(scheduled)
      ensures reply.None? ==>
        && result == Failed
        && db.customers == old(db.customers) && db.invoices == old(db.invoices)
        && db.ledger == old(db.ledger) && db.syncQueue == old(db.syncQueue)
        && retryCount == AfterFailure(old(retryCount), online).0
        && scheduled == old(scheduled) + (if AfterFailure(old(retryCount), online).1.Some? then [AfterFailure(old(retryCount), online).1.value] else [])
    {
      if reply.Some? {
        db.customers := MarkCustomersSynced(db.customers, snap.customers);
        db.invoices := MarkInvoicesSynced(db.invoices, snap.invoices);
        db.ledger := MarkLedgerSynced(db.ledger, snap.ledger);
        db.ClearQueue();
        SendWhatsApp(db, WhatsAppIds(reply.value), waOk);
        retryCount := 0;
        result := Synced(reply.value);
        notified := notified + [Notification(listeners, result)];
      } else {
        result := Failed;
        notified := notified + [Notification(listeners, result)];
        if retryCount < MaxRetries && online {
          retryCount := retryCount + 1;
          scheduled := scheduled + [Backoff(retryCount)];
        }
      }
      syncing := false;
    }

    /**
     * The post-sync WhatsApp pass: each listed invoice whose `sendWhatsApp` succeeds is
     * marked sent locally, when it is stored; a failure is skipped.
     */
    method SendWhatsApp(db: Db, ids: seq<string>, waOk: string -> bool)
      requires db.Valid()
      modifies db`invoices
      ensures db.Valid()
      ensures db.invoices == MarkWhatsApp(old(db.invoices), ids, waOk)
    {
      var m0 := db.invoices;
      var m := m0;
      for i := 0 to |ids|
        invariant InvoicesKeyed(m)
        invariant m == MarkWhatsApp(m0, ids[..i], waOk)
      {
        MarkWhatsAppStep(m0, ids, i, waOk);
        var id := ids[i];
        if waOk(id) && id in m {
          MarkSentKeyed(m, id);
          m := m[id := m[id].(whatsappSent := true)];
        }
      }
      assert ids[..|ids|] == ids;
      db.invoices := m;
    }

    /**
     * `syncNow` with no other activity during the request. A success leaves no row
     * unsynced and an empty queue; a failure leaves the store as it was.
     */
    method SyncNow(db: Db, online: bool, reply: Option<ClientReply>, waOk: string -> bool, onlineAtFailure: bool)
      returns (result: SyncResult)
      requires Valid() && db.Valid()
      modifies this`syncing, this`retryCount, this`scheduled, this`notified
      modifies db`customers, db`invoices, db`ledger, db`syncQueue
      ensures Valid() && db.Valid()
      ensures old(syncing) ==> result == AlreadySyncing && syncing && retryCount == old(retryCount)
      ensures !old(syncing) ==> !syncing
      ensures result == DeviceOffline <==> !old(syncing) && !online
      ensures result.Ok() ==> && UnsyncedCustomers(db.customers) == {} && UnsyncedInvoices(db.invoices) == {}
                              && UnsyncedLedger(db.ledger) == [] && retryCount == 0
      ensures result.Synced? ==> db.syncQueue == [] && reply == Some(result.reply)
      ensures !result.Synced? ==> && db.customers == old(db.customers) && db.invoices == old(db.invoices)
                                  && db.ledger == old(db.ledger) && db.syncQueue == old(db.syncQueue)
      ensures result.Failed? <==>
        && !old(syncing) && online && reply.None?
        && !(UnsyncedCustomers(old(db.customers)) == {} && UnsyncedInvoices(old(db.invoices)) == {} && UnsyncedLedger(old(db.ledger)) == [])
      ensures result.Failed? ==>
        && retryCount == AfterFailure(old(retryCount), onlineAtFailure).0
        && scheduled == old(scheduled) + (if AfterFailure(old(retryCount), onlineAtFailure).1.Some?
                                          then [AfterFailure(old(retryCount), onlineAtFailure).1.value] else [])
      ensures result == NothingPending <==>
        && !old(syncing) && online
        && UnsyncedCustomers(old(db.customers)) == {} && UnsyncedInvoices(old(db.invoices)) == {} && UnsyncedLedger(old(db.ledger)) == []
      ensures result.Synced? <==>
        && !old(syncing) && online && reply.Some?
        && !(UnsyncedCustomers(old(db.customers)) == {} && UnsyncedInvoices(old(db.invoices)) == {} && UnsyncedLedger(old(db.ledger)) == [])
      ensures result.Synced? ==>
        && db.customers == MarkCustomersSynced(old(db.customers), UnsyncedCustomers(old(db.customers)))
        && db.invoices == MarkWhatsApp(MarkInvoicesSynced(old(db.invoices), UnsyncedInvoices(old(db.invoices))),
                                       WhatsAppIds(reply.value), waOk)
        && db.ledger == MarkLedgerSynced(old(db.ledger), LedgerKeys(UnsyncedLedger(old(db.ledger))))
        && scheduled == old(scheduled)
      ensures result.Synced? || result.Failed? ==> notified == old(notified) + [Notification(listeners, result)]
      ensures !result.Synced? && !result.Failed? ==> notified == old(notified) && scheduled == old(scheduled)
    {
      var b := BeginSync(db, online);
      if b.Early? {
        return b.result;
      }
      result := FinishSync(db, b.snap, reply, waOk, onlineAtFailure);
      if result.Synced? {
        MarkWhatsAppKeepsSynced(MarkInvoicesSynced(old(db.invoices), b.snap.invoices), WhatsAppIds(reply.value), waOk);
        MarkLedgerSnapshot(old(db.ledger));
      }
    }

    /** `triggerSync`: a manual sync starts with a fresh retry counter. */
    method TriggerSync(db: Db, online: bool, reply: Option<ClientReply>, waOk: string -> bool, onlineAtFailure: bool)
      returns (result: SyncResult)
      requires Valid() && db.Valid()
      modifies this`syncing, this`retryCount, this`scheduled, this`notified
      modifies db`customers, db`invoices, db`ledger, db`syncQueue
      ensures Valid() && db.Valid()
      ensures old(syncing) ==> result == AlreadySyncing && retryCount == 0
      ensures result.Failed? ==> && retryCount == (if onlineAtFailure then 1 else 0)
                                 && scheduled == old(scheduled) + (if onlineAtFailure then [BaseDelayMs] else [])
      ensures result == DeviceOffline <==> !old(syncing) && !online
      ensures !old(syncing) ==> !syncing
      ensures result.Ok() ==> && UnsyncedCustomers(db.customers) == {} && UnsyncedInvoices(db.invoices) == {}
                              && UnsyncedLedger(db.ledger) == [] && retryCount == 0
      ensures result == NothingPending <==>
        && !old(syncing) && online
        && UnsyncedCustomers(old(db.customers)) == {} && UnsyncedInvoices(old(db.invoices)) == {} && UnsyncedLedger(old(db.ledger)) == []
      ensures result.Synced? <==>
        && !old(syncing) && online && reply.Some?
        && !(UnsyncedCustomers(old(db.customers)) == {} && UnsyncedInvoices(old(db.invoices)) == {} && UnsyncedLedger(old(db.ledger)) == [])
      ensures result.Synced? ==>
        && result.reply == reply.value && db.syncQueue == []
        && db.customers == MarkCustomersSynced(old(db.customers), UnsyncedCustomers(old(db.customers)))
        && db.invoices == MarkWhatsApp(MarkInvoicesSynced(old(db.invoices), UnsyncedInvoices(old(db.invoices))),
                                       WhatsAppIds(reply.value), waOk)
        && db.ledger == MarkLedgerSynced(old(db.ledger), LedgerKeys(UnsyncedLedger(old(db.ledger))))
        && scheduled == old(scheduled)
      ensures !result.Synced? ==> && db.customers == old(db.customers) && db.invoices == old(db.invoices)
                                  && db.ledger == old(db.ledger) && db.syncQueue == old(db.syncQueue)
      ensures result.Synced? || result.Failed? ==> notified == old(notified) + [Notification(listeners, result)]
      ensures !result.Synced? && !result.Failed? ==> notified == old(notified) && scheduled == old(scheduled)
    {
      retryCount := 0;
      result := SyncNow(db, online, reply, waOk, onlineAtFailure);
    }

    /**
     * `startAutoSync(callback)`: installs the `online` handler and the callback once; a
     * second call does nothing. Reports whether a sync starts at once (online at startup).
     */
    method StartAutoSync(callback: Option<nat>, online: bool) returns (syncStarted: bool)
      modifies this`listening, this`listeners
      ensures old(listening) ==> !syncStarted && listening && listeners == old(listeners)
      ensures !old(listening) ==> && listening && syncStarted == online
                                  && listeners == old(listeners) + (if callback.Some? then {callback.value} else {})
    {
      if listening {
        return false;
      }
      listening := true;
      if callback.Some? {
        listeners := listeners + {callback.value};
      }
      syncStarted := online;
    }

    /** The installed `online` handler: reset the counter and sync. */
    method HandleOnline(db: Db, reply: Option<ClientReply>, waOk: string -> bool, onlineAtFailure: bool)
      returns (result: SyncResult)
      requires listening
      requires Valid() && db.Valid()
      modifies this`syncing, this`retryCount, this`scheduled, this`notified
      modifies db`customers, db`invoices, db`ledger, db`syncQueue
      ensures Valid() && db.Valid()
      ensures old(syncing) ==> result == AlreadySyncing && retryCount == 0
      ensures !old(syncing) ==> result != DeviceOffline
      ensures result.Failed? ==> && retryCount == (if onlineAtFailure then 1 else 0)
                                 && scheduled == old(scheduled) + (if onlineAtFailure then [BaseDelayMs] else [])
      ensures !old(syncing) ==> !syncing
      ensures result.Ok() ==> && UnsyncedCustomers(db.customers) == {} && UnsyncedInvoices(db.invoices) == {}
                              && UnsyncedLedger(db.ledger) == [] && retryCount == 0
      ensures result == NothingPending <==>
        && !old(syncing)
        && UnsyncedCustomers(old(db.customers)) == {} && UnsyncedInvoices(old(db.invoices)) == {} && UnsyncedLedger(old(db.ledger)) == []
      ensures result.Synced? <==>
        && !old(syncing) && reply.Some?
        && !(UnsyncedCustomers(old(db.customers)) == {} && UnsyncedInvoices(old(db.invoices)) == {} && UnsyncedLedger(old(db.ledger)) == [])
      ensures result.Synced? ==>
        && result.reply == reply.value && db.syncQueue == []
        && db.customers == MarkCustomersSynced(old(db.customers), UnsyncedCustomers(old(db.customers)))
        && db.invoices == MarkWhatsApp(MarkInvoicesSynced(old(db.invoices), UnsyncedInvoices(old(db.invoices))),
                                       WhatsAppIds(reply.value), waOk)
        && db.ledger == MarkLedgerSynced(old(db.ledger), LedgerKeys(UnsyncedLedger(old(db.ledger))))
        && scheduled == old(scheduled)
      ensures !result.Synced? ==> && db.customers == old(db.customers) && db.invoices == old(db.invoices)
                                  && db.ledger == old(db.ledger) && db.syncQueue == old(db.syncQueue)
      ensures result.Synced? || result.Failed? ==> notified == old(notified) + [Notification(listeners, result)]
      ensures !result.Synced? && !result.Failed? ==> notified == old(notified) && scheduled == old(scheduled)
    {
      retryCount := 0;
      result := SyncNow(db, true, reply, waOk, onlineAtFailure);
    }

    /** `getSyncStatus`: the flag, the three `synced == 0` counts, their sum and the queue length. */
    method GetSyncStatus(db: Db, online: bool) returns (st: SyncStatus)
      ensures st.online == online && st.syncing == syncing
      ensures st.customers == |UnsyncedCustomers(db.customers)| && st.invoices == |UnsyncedInvoices(db.invoices)|
      ensures st.ledger == |UnsyncedLedger(db.ledger)|
      ensures st.total == st.customers + st.invoices + st.ledger
      ensures st.queueSize == |db.syncQueue|
    {
      var c := |UnsyncedCustomers(db.customers)|;
      var i := |UnsyncedInvoices(db.invoices)|;
      var l := |UnsyncedLedger(db.ledger)|;
      st := SyncStatus(online, syncing, c, i, l, c + i + l, |db.syncQueue|);
    }
  }
}
