/**
 * The first client sync engine: the same push of unsynced rows, without a re-entry flag,
 * without retries and without the ledger. The network is an oracle (`reply`, `None` when
 * the request throws); `online` is `navigator.onLine`.
 */
module SyncManagerV1 {
  import opened Wrappers
  import opened LocalDb
  import opened SyncApi

  datatype SyncResult = NothingPending | Synced(reply: ClientReply) | Failed {
    predicate Ok() {
      !Failed?
    }
  }

  /** `enqueue(type, recordId, action)`. */
  method Enqueue(db: Db, kind: string, recordId: string, action: string, now: string)
    requires db.Valid()
    modifies db`syncQueue, db`nextQueueId
    ensures db.Valid()
    ensures db.syncQueue == old(db.syncQueue) + [QueueItem(old(db.nextQueueId), kind, recordId, action, now)]
    ensures db.nextQueueId == old(db.nextQueueId) + 1
  {
    db.AddQueueItem(kind, recordId, action, now);
  }

  /** `getPendingQueue`: `orderBy("queueId")`, which is the order the items were queued in. */
  method GetPendingQueue(db: Db) returns (q: seq<QueueItem>)
    requires db.Valid()
    ensures q == db.syncQueue
    ensures forall i, j :: 0 <= i < j < |q| ==> q[i].queueId < q[j].queueId
  {
    q := db.syncQueue;
  }

  /**
   * `syncNow`: with no unsynced customer or invoice it resolves at once (unsynced ledger
   * rows do not count); on a reply it marks the customers and invoices of the snapshot
   * synced and clears the queue; on a failure nothing changes. Ledger rows are never sent
   * nor marked.
   */
  method SyncNow(db: Db, reply: Option<ClientReply>) returns (result: SyncResult)
    requires db.Valid()
    modifies db`customers, db`invoices, db`syncQueue
    ensures db.Valid()
    ensures result == NothingPending <==> UnsyncedCustomers(old(db.customers)) == {} && UnsyncedInvoices(old(db.invoices)) == {}
    ensures result.Synced? <==> !(UnsyncedCustomers(old(db.customers)) == {} && UnsyncedInvoices(old(db.invoices)) == {}) && reply.Some?
    ensures result.Synced? ==> && result.reply == reply.value
                               && db.customers == MarkCustomersSynced(old(db.customers), UnsyncedCustomers(old(db.customers)))
                               && db.invoices == MarkInvoicesSynced(old(db.invoices), UnsyncedInvoices(old(db.invoices)))
                               && db.syncQueue == []
    ensures !result.Synced? ==> db.customers == old(db.customers) && db.invoices == old(db.invoices) && db.syncQueue == old(db.syncQueue)
    ensures result.Ok() ==> UnsyncedCustomers(db.customers) == {} && UnsyncedInvoices(db.invoices) == {}
    ensures db.ledger == old(db.ledger)
  {
    var customers := UnsyncedCustomers(db.customers);
    var invoices := UnsyncedInvoices(db.invoices);
    if customers == {} && invoices == {} {
      return NothingPending;
    }
    if reply.None? {
      return Failed;
    }
    db.customers := MarkCustomersSynced(db.customers, customers);
    db.invoices := MarkInvoicesSynced(db.invoices, invoices);
    db.ClearQueue();
    result := Synced(reply.value);
  }

  /** The once-only installer of the `online` handler. */
  class AutoSync {
    var listening: bool
    var callback: Option<nat>

    constructor ()
      ensures !listening && callback.None?
    {
      listening, callback := false, None;
    }

    /**
     * `startAutoSync(onSyncComplete)`: the first call installs the handler with its
     * callback and reports whether a sync starts at once; later calls do nothing.
     */
    method StartAutoSync(onSyncComplete: Option<nat>, online: bool) returns (syncStarted: bool)
      modifies this
      ensures old(listening) ==> !syncStarted && listening && callback == old(callback)
      ensures !old(listening) ==> listening && callback == onSyncComplete && syncStarted == online
    {
      if listening {
        return false;
      }
      listening := true;
      callback := onSyncComplete;
      syncStarted := online;
    }

    /** The installed handler: a sync, whose result goes to the callback. */
    method HandleOnline(db: Db, reply: Option<ClientReply>) returns (result: SyncResult, delivered: Option<(nat, SyncResult)>)
      requires listening && db.Valid()
      modifies db`customers, db`invoices, db`syncQueue
      ensures db.Valid()
      ensures delivered == if callback.Some? then Some((callback.value, result)) else None
      ensures result == NothingPending <==> UnsyncedCustomers(old(db.customers)) == {} && UnsyncedInvoices(old(db.invoices)) == {}
      ensures result.Synced? <==> !(UnsyncedCustomers(old(db.customers)) == {} && UnsyncedInvoices(old(db.invoices)) == {}) && reply.Some?
      ensures result.Synced? ==> && result.reply == reply.value
                                 && db.customers == MarkCustomersSynced(old(db.customers), UnsyncedCustomers(old(db.customers)))
                                 && db.invoices == MarkInvoicesSynced(old(db.invoices), UnsyncedInvoices(old(db.invoices)))
                                 && db.syncQueue == []
      ensures !result.Synced? ==> db.customers == old(db.customers) && db.invoices == old(db.invoices) && db.syncQueue == old(db.syncQueue)
      ensures result.Ok() ==> UnsyncedCustomers(db.customers) == {} && UnsyncedInvoices(db.invoices) == {}
    {
      result := SyncNow(db, reply);
      delivered := if callback.Some? then Some((callback.value, result)) else None;
    }
  }
}
