# NanoBiz bookkeeping core in Dafny

NanoBiz is an offline-first bookkeeping app for small traders. The browser keeps its own
store: customers, invoices, payments, an append-only ledger and a sync queue, held in
IndexedDB through Dexie. Every screen writes to that store first. A sync manager then
pushes the unsynced rows to an Express server backed by MongoDB. The server upserts each
record by its `clientId`, so a resent record does no harm. The server also builds wa.me
WhatsApp links for synced invoices, and it asks a language model to turn a spoken
sentence into a transaction.

This project models that core and proves what it promises:

- **Ledger.** A balance is the sum of a customer's "credit" entries minus the sum of its
  "debit" entries. The cached `balance` on the customer record is checked against the
  recomputed one. The client's entry constructors are modelled, and so is the server's
  append-only, deduplicated `createLedgerEntry`, whose replay is harmless.
- **Client sync engines.** Both versions are modelled. The second has a re-entry flag,
  exponential backoff for at most 5 retries, a debounce timer and a once-only `online`
  handler. It is split at its one network `await` into `BeginSync` and `FinishSync`.
- **Server reconciler.** `syncAll`, `createCustomer` and `createInvoice` are modelled as
  `findOneAndUpdate` upserts checked by the Mongoose schemas. The schemas become validity
  predicates and default-filling functions.
- **Screens.** The business rules of the invoice form, the two payment dialogs, the
  balance preview, the invoice list, page and table, the payments page and the dashboard.
- **WhatsApp.** The notification gate on both sides, and the message and link builder.
- **AI parse.** The sentence check, the model fallback loop and the normalisation of
  `transaction_type`.

Some things are parameters of the model, because they cannot be seen or are not
deterministic:

- the network, `navigator.onLine` and the server's replies;
- the language model together with `JSON.parse`;
- fresh ids (`crypto.randomUUID`, `Date.now`, `Math.random`) and timestamps;
- number-to-text conversion in template strings (`fmt`) and `encodeURIComponent` (`encode`).

Money is an exact Dafny `real`. A field the code may find missing is an `Option`, read as 0
where the code writes `x || 0`.

Where the code disagrees with its own comments or with another part of the system, the
model follows the code. It proves the disagreement as a lemma, for example:

- `Ledger.VocabularyMismatch`: the invoice screens write "selling"/"buying" entries, which
  the balance fold ignores.
- `CreateInvoice.DraftOwesWithoutLedger`: a draft moves the cached totals without writing
  a ledger entry.
- `SyncManagerV2.ServerReplyTriggersNoWhatsApp`: the server never returns the WhatsApp
  list the client reads.

## Model

| member | source | states |
|---|---|---|
| Models.CustomerMerge | backend/models/Customer.js:11-43 | the stored customer after an upsert: the request's name, phone and address trimmed; on insert balance 0, status "active" and the insert time; on update the stored balance, status and insert time kept |
| Models.CustomerPolicyOverwrites | backend/models/Customer.js:11-43 | a second accepted upsert of the same key gives what that request alone gives on the document before the first, so the insert time of the first is kept |
| Models.CustomerMergeValid | backend/models/Customer.js:11-43 | an accepted upsert (non-empty key, name non-empty after trimming) leaves a document the schema accepts: key and name present, strings trimmed, status active or inactive |
| Models.SaveKeepsPhonesUnique | backend/models/Customer.js:51-62 | a save the phone hook lets through keeps every non-empty phone held by one customer only |
| Models.EmptyPhoneAlwaysAccepted | backend/models/Customer.js:51-52 | a blank phone is never refused by the hook, so empty phones may repeat |
| Models.StatusOrPending | backend/controllers/invoiceController.js:33 | `status \|\| "pending"`: never empty, and a given status is kept |
| Models.InvoiceMerge | backend/models/Invoice.js:22-78 | the stored invoice after an upsert: key, customer, items, total and status from the request (a request without a total is refused before the merge), synced true; on insert type "selling", tax, paid and due 0, notes "", whatsappSent false; on update those kept |
| Models.InvoicePolicyOverwrites | backend/models/Invoice.js:22-78 | a second accepted upsert of the same key gives what that request alone gives on the document before the first |
| Models.InvoiceMergeValid | backend/models/Invoice.js:22-78 | an accepted upsert (key, customer, at least one item each named with qty ≥ 1 and price ≥ 0, total present and ≥ 0, a known status) leaves a document the schema accepts |
| Models.NewLedgerDoc | backend/models/LedgerEntry.js:19-53 | `LedgerEntry.create`: refused exactly when key or customer is empty, the type is not credit/debit/selling/buying or the amount is negative; otherwise the entry with the description trimmed, source "invoice" and the given invoice reference, which the schema accepts |
| Models.NewPaymentDoc | backend/models/Payment.js:11-53 | `new Payment(body)`: refused exactly when key or customer is empty, the amount is absent or negative or the method is not Cash/UPI/Bank Transfer; otherwise name and note trimmed and defaulted to "", method "Cash", date today, synced true |
| ServerDb.FindLedger | backend/controllers/ledgerController.js:42 | `LedgerEntry.findOne({ clientId })`: finds a stored entry with that key, and nothing exactly when none is stored |
| ServerDb.EntriesOf | backend/controllers/ledgerController.js:78 | `LedgerEntry.find({ customerId })`: exactly the stored entries of that customer |
| ServerDb.LedgerBalanceAppend | backend/models/LedgerEntry.js:5-14 | appending an entry moves its customer's ledger balance by the entry's signed amount and leaves every other customer's alone |
| ServerDb.IncBalance | backend/controllers/ledgerController.js:59-62 | `$inc` without upsert: the named customer's balance moves by `delta`, every other customer is unchanged and an unknown id changes nothing |
| ServerDb.Store.UpsertCustomer | backend/controllers/customerController.js:33-37 | `findOneAndUpdate` with upsert and validators on customers: the collection becomes one upsert step, and a document is returned exactly when the validators accept |
| ServerDb.Store.UpsertInvoice | backend/controllers/invoiceController.js:31-35 | the same on invoices |
| ServerDb.Store.InsertLedger | backend/models/LedgerEntry.js:19-24 | an insert the unique `clientId` index refuses exactly when the key is already stored; otherwise the entry is appended |
| ServerDb.Store.IncCustomerBalance | backend/controllers/ledgerController.js:59-62 | the customers collection becomes `IncBalance` of the old one |
| ServerDb.Store.MarkWhatsAppSent | backend/controllers/whatsappController.js:50-51 | only the named invoice changes, and only its `whatsappSent`, which becomes true |
| ServerDb.Documents | backend/controllers/customerController.js:9 | a `find()` cursor: each stored document exactly once, in no fixed order |
| Upsert.Step | backend/controllers/customerController.js:33-37 | a request the validators accept replaces the document under its key with the merge; a rejected one leaves the collection alone; other keys never change |
| Upsert.LastValid | backend/controllers/syncController.js:16-27 | the last accepted request of a batch for a key, or none when no accepted request has that key |
| Upsert.FoldClosedForm | backend/controllers/syncController.js:16-27 | after a batch, each key holds what its last accepted request made of the document stored before the batch |
| Upsert.FoldIdempotent | backend/controllers/syncController.js:16-27 | sending the same batch again, at any later time, changes nothing |
| Upsert.StepIdempotent | backend/controllers/customerController.js:31-37 | one request sent twice is stored once |
| Upsert.FoldKeys | backend/controllers/syncController.js:16-27 | a batch adds exactly the keys of its accepted requests and removes none |
| Upsert.Accepted | backend/controllers/syncController.js:23 | `results.customers`: exactly the requests the validators accept |
| Upsert.Rejected | backend/controllers/syncController.js:25 | the requests pushed onto `errors`: exactly those the validators reject |
| Upsert.AcceptedPlusRejected | backend/controllers/syncController.js:16-27 | every request is counted once, as stored or as an error |
| CustomerController.CreateCustomerSpec | backend/controllers/customerController.js:21-44 | 400 exactly when `clientId` or `name` is empty; 201 exactly when the validators accept, with the upsert done and the stored document returned; otherwise (a name of whitespace) a 500 with nothing written |
| CustomerController.CreateCustomer | backend/controllers/customerController.js:21-44 | the collection and reply are those of `CreateCustomerSpec` |
| CustomerController.CreateCustomerStores | backend/controllers/customerController.js:33-37 | after a 201 the customer under `clientId` has the request's name, phone and address, trimmed |
| CustomerController.CreateCustomerTouchesOneKey | backend/controllers/customerController.js:33-37 | a 201 adds at most the request's key and every other customer stays as it was |
| CustomerController.CreateCustomerReplay | backend/controllers/customerController.js:31-37 | re-sending the same body at a later time stores nothing new and gets the same reply |
| CustomerController.GetCustomers | backend/controllers/customerController.js:7-15 | every customer exactly once, newest `createdAt` first |
| InvoiceController.CreateInvoiceSpec | backend/controllers/invoiceController.js:21-42 | 400 exactly when `clientId` or `customerId` is empty or there is no item; 201 exactly when the validators accept; otherwise a 500 with nothing written |
| InvoiceController.CreateInvoice | backend/controllers/invoiceController.js:21-42 | the collection and reply are those of `CreateInvoiceSpec` |
| InvoiceController.CreateInvoiceStores | backend/controllers/invoiceController.js:31-35 | a stored invoice has the sent status or "pending", synced true, the request's items and customer, and satisfies the schema when the document it replaced did |
| InvoiceController.CreateInvoiceReplay | backend/controllers/invoiceController.js:31-35 | repeating the request yields the same stored invoice and reply |
| InvoiceController.GetInvoices | backend/controllers/invoiceController.js:7-15 | every invoice exactly once, newest `createdAt` first |
| SyncApi.FromServer | backend/controllers/syncController.js:50-57 | the reply carries the two counts and the errors and never an `invoicesNeedingWhatsApp` list |
| SyncController.SyncAll | backend/controllers/syncController.js:10-62 | the store and reply are those of the batch: customers folded, then invoices, ledger untouched, counts of accepted records, errors of the rejected ones |
| SyncController.SyncCustomers | backend/controllers/syncController.js:16-27 | the customer loop: the collection is the fold of the batch, the count is the number accepted, and the errors are the rejected records, in order |
| SyncController.SyncInvoices | backend/controllers/syncController.js:30-48 | the same for invoices, with `status \|\| "pending"` and `synced: true` |
| SyncController.CustomerErrorsAppend | backend/controllers/syncController.js:25 | a rejected customer adds exactly one `{ type: "customer", clientId }` at the end of the errors |
| SyncController.InvoiceErrorsAppend | backend/controllers/syncController.js:46 | a rejected invoice adds exactly one `{ type: "invoice", clientId }` at the end of the errors |
| SyncController.SyncIdempotent | backend/controllers/syncController.js:10-62 | resending the same batch leaves the store as sending it once did |
| SyncController.SyncCountsAddUp | backend/controllers/syncController.js:50-57 | synced counts plus errors add up to the number of records sent, per collection and in total |
| SyncController.CustomerErrorsFirst | backend/controllers/syncController.js:16-48 | every customer error comes before every invoice error |
| SyncController.SyncStoresLastCustomer | backend/controllers/syncController.js:16-27 | each customer key holds what the last valid record for it made of the old document |
| SyncController.SyncStoresLastInvoice | backend/controllers/syncController.js:30-48 | each invoice key holds what the last valid record for it made of the old document |
| SyncController.SyncIgnoresLedger | backend/controllers/syncController.js:12 | the `ledger` array of the body changes neither the store nor the reply |
| SyncController.SyncMissingArrays | backend/controllers/syncController.js:12 | a body without the arrays is an empty batch: nothing stored, zero counts, no errors |
| SyncController.SyncSkipsPhoneHook | backend/controllers/syncController.js:18-22 | two valid records with distinct keys and the same non-empty phone are both stored, so phones are no longer unique |
| SyncController.TwoCustomers | backend/controllers/syncController.js:16-27 | two valid records with distinct keys sent to an empty collection are both inserted as built from nothing |
| LedgerController.SignedAmount | backend/controllers/ledgerController.js:58 | for credit and debit, the same change the balance rule gives the entry |
| LedgerController.InvoiceRef | backend/controllers/ledgerController.js:54 | `invoiceId \|\| null`: none exactly when the id is empty |
| LedgerController.CreateLedgerSpec | backend/controllers/ledgerController.js:27-69 | 400 exactly when a required field is missing; 400 for a type other than credit or debit; 200 with the stored entry when the key exists; 201 only for a new key, a credit or debit and a non-negative amount, with the entry appended and the customer's balance moved by the signed amount; nothing written otherwise |
| LedgerController.CreateLedgerEntry | backend/controllers/ledgerController.js:27-69 | the store and reply are those of `CreateLedgerSpec` |
| LedgerController.AppendAndCredit | backend/controllers/ledgerController.js:48-62 | the entry is appended and its customer's balance moved by `delta`; invoices unchanged |
| LedgerController.CreateLedgerCreates | backend/controllers/ledgerController.js:48-64 | past the guards, with a new key, the request is the append and `$inc` with a 201 |
| LedgerController.CreatedEntryShape | backend/controllers/ledgerController.js:48-55 | a new entry is the request's fields with the description trimmed, source "invoice" and `invoiceId \|\| null` |
| LedgerController.CreateLedgerReplayOnce | backend/controllers/ledgerController.js:41-46 | a second delivery of a created entry returns the stored entry with a 200 and changes nothing |
| LedgerController.FindLedgerAppend | backend/controllers/ledgerController.js:42 | after appending an entry with a new key, looking the key up finds that entry |
| LedgerController.ReplayIsOnce | backend/controllers/ledgerController.js:41-46 | any number of deliveries of one request leave the store as the first did |
| LedgerController.CreateLedgerKeepsCache | backend/controllers/ledgerController.js:57-62 | a customer whose cached balance agreed with its ledger still agrees after any request |
| LedgerController.GetCustomerBalance | backend/controllers/ledgerController.js:75-91 | the loop's balance is the customer's ledger balance (credits added, debits subtracted, other types ignored) and the count is its number of entries |
| LedgerController.LedgerBalanceIsCreditsMinusDebits | backend/models/LedgerEntry.js:12 | the recomputed balance is the sum of the customer's credits minus the sum of its debits |
| LedgerController.GetLedgerEntries | backend/controllers/ledgerController.js:9-20 | the customer's entries when an id is given, otherwise all, each once, newest `createdAt` first |
| Ledger.Delta | backend/models/LedgerEntry.js:5-14 | credit adds its amount, debit subtracts it, every other type contributes nothing |
| Ledger.BalanceIsCreditsMinusDebits | backend/models/LedgerEntry.js:12 | the balance fold is the sum of credits minus the sum of debits |
| Ledger.BalanceAppend | backend/models/LedgerEntry.js:14 | the balance of two runs of entries is the sum of their balances |
| Ledger.BalancePermutation | backend/controllers/ledgerController.js:78-84 | the balance does not depend on the order the entries are read in |
| LocalDb.RowsOf | frontend/src/services/ledgerService.js:37-40 | `where("customerId").equals(id)`: only the customer's rows, each of them present and nothing else |
| LocalDb.RowsOfAppend | frontend/src/services/ledgerService.js:37-40 | ledger order and multiplicity: no rows give none, and an appended row is appended to exactly its own customer's rows |
| LocalDb.RowsOfPostings | frontend/src/services/ledgerService.js:37-46 | reading the customer's rows and then their types and amounts is the same as the customer's postings |
| LocalDb.UnsyncedLedger | frontend/src/services/syncManagerV2.js:96 | `where("synced").equals(0)` on the ledger: exactly the rows with synced 0 |
| LocalDb.MarkCustomersSynced | frontend/src/services/syncManagerV2.js:153-155 | `update(id, { synced: 1 })` for each snapshot id: the snapshot's customers become synced, no other record changes, an id no longer stored is ignored |
| LocalDb.MarkInvoicesSynced | frontend/src/services/syncManagerV2.js:156-158 | the same for invoices |
| LocalDb.MarkLedgerSynced | frontend/src/services/syncManagerV2.js:159-161 | the same for ledger rows: a row whose key is in the snapshot gets synced 1, every other row is kept, and the number of rows and their keys stay |
| LocalDb.MarkLedgerSnapshot | frontend/src/services/syncManagerV2.js:159-161 | marking the keys of the unsynced snapshot leaves no ledger row unsynced |
| LocalDb.Db.constructor | frontend/src/db/index.js:35-44 | an empty database whose two auto-increment keys start at 1 |
| LocalDb.Db.AddQueueItem | frontend/src/db/index.js:43 | `syncQueue.add`: the item is appended under the next auto-increment key, which then moves on |
| LocalDb.Db.ClearQueue | frontend/src/services/syncManagerV2.js:164 | `syncQueue.clear()`: the queue is empty and the key generator is not reset |
| LocalDb.Db.AddLedgerRow | frontend/src/db/index.js:38 | `ledger.add` of a row without an id: it is appended under the next auto-increment key, synced 0 |
| LocalDb.Db.AddLedgerRowWithId | frontend/src/services/ledgerService.js:90 | `ledger.add` of a row with its own id: refused exactly when the key is taken, appended otherwise |
| LedgerService.PostingsAppend | frontend/src/services/ledgerService.js:37-40 | appending a row adds a posting to its own customer's list only |
| LedgerService.LedgerBalanceOfAppend | frontend/src/services/ledgerService.js:29-31 | appending a row moves only its own customer's ledger balance, by the row's signed amount |
| LedgerService.CalculateCustomerBalance | frontend/src/services/ledgerService.js:36-49 | the loop's result is the customer's credits minus debits, other types skipped |
| LedgerService.SetBalance | frontend/src/services/ledgerService.js:59 | `customers.update(id, { balance, updatedAt })`: only that customer changes; an unknown id changes nothing |
| LedgerService.RecalculateAndCache | frontend/src/services/ledgerService.js:57-61 | the returned balance is the ledger balance, the customers table is `SetBalance` of the old one, and the cache then agrees with the ledger |
| LedgerService.RecalculateFixesOnlyItsCustomer | frontend/src/services/ledgerService.js:57-61 | after re-caching, a customer's cache agrees with the ledger exactly when it is the re-cached one or already agreed |
| LedgerService.AdjustBalance | frontend/src/services/ledgerService.js:93-100 | `(balance \|\| 0) + delta` on an existing customer, whose record is otherwise kept except `updatedAt`; no other record changes, an absent customer is left alone |
| LedgerService.TextOr | frontend/src/services/ledgerService.js:83 | `description \|\| default`: a given description is kept, and the result is empty only when the default is |
| LedgerService.ManualEntry | frontend/src/services/ledgerService.js:78-88 | the entry under the fresh id with the customer, type, amount and invoice given, synced 0, stamped now |
| LedgerService.ApplyManual | frontend/src/services/ledgerService.js:77-157 | a taken id writes nothing; otherwise the entry is appended, the cached balance moves by plus or minus the amount, and one `("ledger", id, "create")` item is queued |
| LedgerService.ApplyCredit | frontend/src/services/ledgerService.js:77-111 | refused exactly when the id is already in the ledger, and then ledger, balances, queue and queue counter are unchanged; otherwise the credit entry appended, the customer's balance raised by exactly `amount`, one `ledger`/`create` queue item with the next queue id, and the counter advanced by one |
| LedgerService.ApplyDebit | frontend/src/services/ledgerService.js:123-157 | refused exactly when the id is already in the ledger, and then ledger, balances, queue and queue counter are unchanged; otherwise the debit entry appended, the customer's balance lowered by exactly `amount`, one `ledger`/`create` queue item with the next queue id, and the counter advanced by one |
| LedgerService.ManualEntryDescription | frontend/src/services/ledgerService.js:83 | without a description a credit reads "Credit ₹amount" and a debit "Payment ₹amount" |
| LedgerService.ManualKeepsCache | frontend/src/services/ledgerService.js:90-100 | `applyCredit` and `applyDebit` keep every customer's cache in step with the ledger |
| LedgerService.Abs | frontend/src/services/ledgerService.js:232 | `Math.abs`, also the magnitude the balance preview shows: non-negative and equal to the value or its negation |
| LedgerService.AdjustCached | frontend/src/services/ledgerService.js:242-252 | balance and amount owed of an existing customer move by `delta` and it becomes unsynced, every other field of the record kept; no other record changes |
| LedgerService.TransactionEntry | frontend/src/services/ledgerService.js:227-237 | the entry `applyTransaction` writes: amount `\|amount\|`, key "ledger-"+customer+"-"+stamp, the given invoice id and time, the description or else "Credit ₹"/"Debit ₹" and the magnitude, source defaulting to "invoice", synced 0 |
| LedgerService.ApplyTransaction | frontend/src/services/ledgerService.js:213-255 | refused with its message exactly when customer id or amount is missing, writing nothing; otherwise the entry is appended and the customer's balance and amount owed move by `+\|amount\|` for selling/credit and `-\|amount\|` otherwise; nothing is queued |
| LedgerService.TransactionKeepsCache | frontend/src/services/ledgerService.js:225-252 | a credit or debit transaction keeps every cache in step with the ledger |
| LedgerService.TransactionVocabularyDrifts | frontend/src/services/ledgerService.js:225-252 | a non-zero selling or buying transaction moves the cached balance and not the ledger balance, so a consistent cache becomes inconsistent |
| LedgerService.GetCustomerLedger | frontend/src/services/ledgerService.js:169-176 | exactly the customer's entries, each once, newest `createdAt` first |
| LedgerService.Debtors | frontend/src/services/ledgerService.js:190 | the `{ id, name, phone, balance }` projection, one per customer, in order |
| LedgerService.Ranked | frontend/src/services/ledgerService.js:186-188 | exactly the customers with a positive balance, largest first |
| LedgerService.TopDebtors | frontend/src/services/ledgerService.js:184-191 | at most `limit` debtors, each with a positive balance, largest first |
| LedgerService.TopDebtorsFromAll | frontend/src/services/ledgerService.js:184-191 | every listed debtor is one of the stored customers |
| LedgerService.TopDebtorsAreTop | frontend/src/services/ledgerService.js:184-191 | a customer owing money who is left out means the list is full and every listed debtor owes at least as much |
| SyncManagerV1.Enqueue | frontend/src/services/syncManager.js:24-31 | the item is appended to the queue under the next auto-increment key |
| SyncManagerV1.GetPendingQueue | frontend/src/services/syncManager.js:36-38 | the whole queue, oldest first: keys strictly increase along it |
| SyncManagerV1.SyncNow | frontend/src/services/syncManager.js:51-96 | nothing is sent exactly when no customer or invoice is unsynced; on a reply the snapshot's customers and invoices become synced and the queue is emptied; on a failure nothing changes; a successful run leaves no customer or invoice unsynced; ledger rows are never touched |
| SyncManagerV1.AutoSync.constructor | frontend/src/services/syncManager.js:102 | the handler is not yet installed |
| SyncManagerV1.AutoSync.StartAutoSync | frontend/src/services/syncManager.js:112-130 | only the first call installs the handler and its callback, and it starts a sync exactly when online; later calls change nothing |
| SyncManagerV1.AutoSync.HandleOnline | frontend/src/services/syncManager.js:116-120 | the handler runs `syncNow` and hands its result to the callback when there is one; nothing pending exactly when no customer or invoice is unsynced; a success exactly when something was pending and the server answered, and then every unsynced customer and invoice is marked synced and the queue is empty; otherwise the store is unchanged |
| SyncManagerV2.Backoff | frontend/src/services/syncManagerV2.js:208 | the delay before retry `n` is 2000 ms times 2^(n-1), and each delay doubles the one before |
| SyncManagerV2.AfterFailure | frontend/src/services/syncManagerV2.js:206-211 | a retry is scheduled exactly when fewer than 5 were made and the device is online, and then the counter goes up by one and the delay is the backoff of the new count |
| SyncManagerV2.ScheduledAfterFailures | frontend/src/services/syncManagerV2.js:37-38 | n failures in a row from counter c schedule min(n, 5 - c) retries, the i-th after the backoff of c + i + 1 |
| SyncManagerV2.CustomerPayloadOf | frontend/src/services/syncManagerV2.js:123-130 | the customer payload: client id from the local id, `balance \|\| 0`, `status \|\| "active"` |
| SyncManagerV2.InvoicePayloadOf | frontend/src/services/syncManagerV2.js:131-138 | the invoice payload: client id from the local id, the same items and total |
| SyncManagerV2.LedgerPayloadOf | frontend/src/services/syncManagerV2.js:139-146 | the ledger payload: client id from the local key, the same type and amount |
| SyncManagerV2.UnsyncedCustomerPayloads | frontend/src/services/syncManagerV2.js:107 | one payload per unsynced customer, each once, and nothing else |
| SyncManagerV2.UnsyncedInvoicePayloads | frontend/src/services/syncManagerV2.js:108 | one payload per unsynced invoice, each once, and nothing else |
| SyncManagerV2.LedgerPayloads | frontend/src/services/syncManagerV2.js:139-146 | one payload per row, in order |
| SyncManagerV2.MarkWhatsApp | frontend/src/services/syncManagerV2.js:167-182 | exactly the stored invoices that are listed and whose send succeeded get `whatsappSent`; nothing else changes |
| SyncManagerV2.MarkWhatsAppKeepsSynced | frontend/src/services/syncManagerV2.js:167-182 | the WhatsApp pass never changes which invoices are unsynced |
| SyncManagerV2.ServerReplyTriggersNoWhatsApp | frontend/src/services/syncManagerV2.js:167 | the server's sync reply never lists `invoicesNeedingWhatsApp`, so the pass changes no invoice |
| SyncManagerV2.SyncManager.constructor | frontend/src/services/syncManagerV2.js:68-81 | idle: not syncing, counter 0, no timer, no handler, no listeners |
| SyncManagerV2.SyncManager.OnSyncComplete | frontend/src/services/syncManagerV2.js:87-90 | the callback joins the listeners |
| SyncManagerV2.SyncManager.Unsubscribe | frontend/src/services/syncManagerV2.js:89 | the returned unsubscribe removes exactly that callback |
| SyncManagerV2.SyncManager.EnqueueSyncItem | frontend/src/services/syncManagerV2.js:52-66 | the item is queued under the next key; online, the debounce timer is reset to 300 ms; offline it is left alone |
| SyncManagerV2.SyncManager.BeginSync | frontend/src/services/syncManagerV2.js:99-147 | refused while syncing or offline; nothing pending exactly when no customer, invoice or ledger row is unsynced, which resets the counter; otherwise the flag is up and the payload holds every unsynced record |
| SyncManagerV2.SyncManager.FinishSync | frontend/src/services/syncManagerV2.js:150-216 | on a reply the snapshot is marked synced, the queue cleared, the WhatsApp pass applied and the counter reset; on a failure the store is untouched and the retry rule applies; the listeners are told either way and the flag is lowered |
| SyncManagerV2.SyncManager.SendWhatsApp | frontend/src/services/syncManagerV2.js:167-182 | the loop's result is `MarkWhatsApp` of the listed ids |
| SyncManagerV2.SyncManager.SyncNow | frontend/src/services/syncManagerV2.js:99-217 | refused while a sync runs and offline exactly when not syncing and offline; nothing pending, success and failure each exactly under their conditions; a success marks exactly the rows unsynced before it as synced (and the invoices the server reports as sent by WhatsApp), empties the queue, resets the counter and notifies the listeners; a failure leaves the store as it was, advances the counter, schedules the retry the backoff gives and notifies the listeners; the other outcomes change neither store nor notifications nor schedule |
| SyncManagerV2.SyncManager.TriggerSync | frontend/src/services/syncManagerV2.js:227-230 | a manual sync starts from a zero counter: a failure schedules its first retry after 2000 ms whatever the counter was; the outcome conditions, the success state (rows marked, queue empty, listeners notified) and the unchanged store on every other outcome are those of `syncNow`; the flag is clear afterwards |
| SyncManagerV2.SyncManager.StartAutoSync | frontend/src/services/syncManagerV2.js:248-266 | only the first call installs the handler and the callback, and it syncs at once exactly when online |
| SyncManagerV2.SyncManager.HandleOnline | frontend/src/services/syncManagerV2.js:254-258 | the reconnect handler resets the counter and syncs as online: never refused as offline; the outcome conditions, the success state, the failure's 2000 ms retry and the unchanged store otherwise are those of `syncNow` |
| SyncManagerV2.SyncManager.GetSyncStatus | frontend/src/services/syncManagerV2.js:271-288 | the three unsynced counts, their sum and the queue length |
| CreateInvoice.UpdateItem | frontend/src/pages/CreateInvoice.jsx:60-64 | one field of the addressed row is replaced; every other row and field is kept |
| CreateInvoice.RemoveItem | frontend/src/pages/CreateInvoice.jsx:70-73 | the last remaining row is never removed; otherwise the addressed row goes and the others keep their order |
| CreateInvoice.RowsNeverRunOut | frontend/src/pages/CreateInvoice.jsx:65-73 | whatever edits the user makes, the form keeps at least one row |
| CreateInvoice.RemoveCanStrandFocus | frontend/src/pages/CreateInvoice.jsx:65-73 | adding a row and removing it leaves the focus one past the last row |
| CreateInvoice.SubtotalPositive | frontend/src/pages/CreateInvoice.jsx:75 | rows with positive quantities and prices add up to a positive subtotal |
| CreateInvoice.AddRowKeepsTotal | frontend/src/pages/CreateInvoice.jsx:65-76 | adding a blank row leaves the grand total as it was |
| CreateInvoice.Validate | frontend/src/pages/CreateInvoice.jsx:262-266 | no refusal exactly when a customer is chosen, every row has a non-blank name and positive quantity and price, and the total is positive; the refusals come in the source's order |
| CreateInvoice.TotalGuardNeedsNegativeTax | frontend/src/pages/CreateInvoice.jsx:264-266 | with at least one row, the total guard can only refuse when the tax is -100% or less |
| CreateInvoice.NoRowsRefusedByTotal | frontend/src/pages/CreateInvoice.jsx:263-266 | with no rows every row guard passes and the total guard refuses |
| CreateInvoice.PaidAmount | frontend/src/pages/CreateInvoice.jsx:270-273 | never more than the total, and the whole total when the status is "paid" |
| CreateInvoice.BalanceDue | frontend/src/pages/CreateInvoice.jsx:296 | never negative, never less than total minus paid, and one of the two |
| CreateInvoice.StatusOf | frontend/src/pages/CreateInvoice.jsx:276-282 | always one of "draft", "paid", "partial", "pending" |
| CreateInvoice.PaymentSplit | frontend/src/pages/CreateInvoice.jsx:270-296 | for a positive total and a non-negative amount, paid plus due is the total, and "paid", "partial" and "pending" each mean exactly nothing due, some paid and nothing paid |
| CreateInvoice.NegativePaymentInflatesDue | frontend/src/pages/CreateInvoice.jsx:270-296 | a negative amount typed is not clamped: the invoice is "pending" with more due than its total |
| CreateInvoice.PaidToggleSettles | frontend/src/pages/CreateInvoice.jsx:84-87 | toggling to "paid" clears the amount field and settles the whole total |
| CreateInvoice.TrimNames | frontend/src/pages/CreateInvoice.jsx:288-292 | one stored row per row, the name trimmed and the numbers kept |
| CreateInvoice.NewInvoice | frontend/src/pages/CreateInvoice.jsx:284-303 | the record has a total, an amount paid and a non-negative balance due that with the paid amount cover the total; it is a draft exactly when saved as one |
| CreateInvoice.StoredInvoice | frontend/src/pages/CreateInvoice.jsx:284-388 | synced exactly when online and posted; a WhatsApp message that was due ends either sent (only online) or pending, never both and never when none was due |
| CreateInvoice.BumpCustomer | frontend/src/pages/CreateInvoice.jsx:321-343 | a sale adds the amount due to `amountOwed`, anything else to `sellerDebt`; the customer is marked pending, dated the invoice's day and unsynced, every other field of its record kept; others are untouched, an unknown customer is left alone |
| CreateInvoice.AppendMovesCurrentBalance | frontend/src/pages/CreateInvoice.jsx:42-53 | a row appended for one customer moves that customer's shown balance by plus the amount for "selling" and minus it otherwise, and no one else's |
| CreateInvoice.WhatsAppLink | frontend/src/pages/CreateInvoice.jsx:381 | the link is wa.me/91 followed by the digits of the phone and the encoded message |
| CreateInvoice.ServerAcceptsIffWholeQuantities | frontend/src/pages/CreateInvoice.jsx:350-361 | a save the screen allows passes the server's validators exactly when every quantity is at least 1 |
| CreateInvoice.NamedRowsStayNamed | frontend/src/pages/CreateInvoice.jsx:288-292 | a row with a non-blank name keeps a non-empty name once trimmed |
| CreateInvoice.StatusAccepted | frontend/src/pages/CreateInvoice.jsx:276-282 | every status the screen derives is one the server's schema accepts |
| CreateInvoice.ServerFilesPurchaseAsSale | frontend/src/pages/CreateInvoice.jsx:350-361 | the server ignores the posted invoice type, so a purchase saved locally as "buying" is filed by the server as "selling" |
| CreateInvoice.SaveInvoice | frontend/src/pages/CreateInvoice.jsx:261-391 | refused with the first failing guard and no write; otherwise the invoice is stored, its ledger row added unless a draft, the customer bumped, the invoice queued unless posted, the WhatsApp link opened when due and online, and the shown balance moves by the signed amount due |
| CreateInvoice.Commit | frontend/src/pages/CreateInvoice.jsx:305-367 | the writes of a save: the invoice, the ledger row unless a draft, the customer's totals, and the queue item unless posted |
| CreateInvoice.AddInvoiceRow | frontend/src/pages/CreateInvoice.jsx:308-319 | the ledger row carries the amount due and moves the shown balance by it |
| CreateInvoice.PostOrQueue | frontend/src/pages/CreateInvoice.jsx:345-367 | synced exactly when online and the post succeeded; otherwise one queue item is added |
| CreateInvoice.DraftOwesWithoutLedger | frontend/src/pages/CreateInvoice.jsx:307-343 | a saved draft still raises what the customer owes, with no ledger row to back it |
| CreateInvoice.HonorificAt | frontend/src/pages/CreateInvoice.jsx:121 | the first honorific, in the pattern's order, that the text starts with |
| CreateInvoice.StripHonorifics | frontend/src/pages/CreateInvoice.jsx:121 | removing honorifics never lengthens the text nor brings in new characters |
| CreateInvoice.NormShape | frontend/src/pages/CreateInvoice.jsx:118-123 | a normalised name has no upper-case letter, no run of spaces and nothing left to trim |
| CreateInvoice.FirstWhere | frontend/src/pages/CreateInvoice.jsx:134-137 | the first position that satisfies the test, or none exactly when no element does |
| CreateInvoice.FindMatchIsFirst | frontend/src/pages/CreateInvoice.jsx:134-137 | the contact chosen is the first whose normalised name matches, and none is chosen exactly when none matches |
| CreateInvoice.HonorificNameMatchesEveryone | frontend/src/pages/CreateInvoice.jsx:118-137 | a contact named "Anna" normalises to the empty name and so matches every spoken name |
| CreateInvoice.NumberOr | frontend/src/pages/CreateInvoice.jsx:153-154 | `x \|\| d`: an absent or zero number gives the default, any other the number |
| CreateInvoice.FillRow | frontend/src/pages/CreateInvoice.jsx:148-157 | only the focused row, clamped to the last one, is replaced by the spoken item |
| CreateInvoice.PickCustomer | frontend/src/pages/CreateInvoice.jsx:117-144 | a spoken party name selects the first matching contact; no name or no match keeps the current customer |
| CreateInvoice.ApplyAi | frontend/src/pages/CreateInvoice.jsx:105-174 | the voice fill never changes the invoice type, the payment status, the tax or the focus; it moves to the payments page exactly when the type is "payment", and otherwise fills the focused row |
| PaymentModal.InvoiceChoices | frontend/src/components/PaymentModal.jsx:53-70 | exactly the chosen customer's "pending" and "partial" invoices, none when no customer is chosen |
| PaymentModal.InvoiceRef | frontend/src/components/PaymentModal.jsx:90 | `invoiceId \|\| null`: absent exactly when no invoice was chosen, the id otherwise |
| PaymentModal.PayInvoice | frontend/src/components/PaymentModal.jsx:115-127 | the amount is added to what was paid, the amount due is what remains of the total floored at 0, "paid" exactly when nothing remains and "partial" otherwise; no other field changes |
| PaymentModal.SettleInvoice | frontend/src/components/PaymentModal.jsx:115-127 | only a linked, stored invoice is updated, by `PayInvoice`; the others and the keys stay |
| PaymentModal.ReduceOwed | frontend/src/components/PaymentModal.jsx:129-134 | the customer's `amountOwed` drops by the amount, floored at 0, and it becomes unsynced; its `balance` and every other customer stay |
| PaymentModal.NewPayment | frontend/src/components/PaymentModal.jsx:86-97 | the record "PAY-" + time, note trimmed, the invoice reference, the amount and customer given, unsynced |
| PaymentModal.HandleSave | frontend/src/components/PaymentModal.jsx:76-152 | refused with no write exactly when no customer is chosen, the amount is absent or not positive, or the payment id is taken; otherwise the payment, a "debit" ledger entry of the amount, the invoice update, the lowered `amountOwed` and one "payment" queue item are written |
| PaymentModal.Record | frontend/src/components/PaymentModal.jsx:99-142 | the five writes of a payment, in order, and nothing else |
| PaymentModal.PaymentsCombine | frontend/src/components/PaymentModal.jsx:115-127 | two payments on an invoice leave it as one payment of their sum would |
| PaymentModal.PaymentShrinksDue | frontend/src/components/PaymentModal.jsx:118-120 | on an invoice whose amount due follows from its total, a payment never raises what is due, and settles it exactly when it covers the rest |
| PaymentModal.ChoicesAfterPayment | frontend/src/components/PaymentModal.jsx:59-127 | after a payment an offered invoice stays offered exactly when it became "partial" |
| PaymentModal.OverpaymentFloored | frontend/src/components/PaymentModal.jsx:132 | paying more than is owed leaves `amountOwed` at 0 |
| PaymentModal.PaymentBreaksBalanceCache | frontend/src/components/PaymentModal.jsx:102-134 | the debit entry lowers the ledger balance by the amount, while the cached `balance` is not touched, so a cache that agreed with the ledger no longer does |
| PaymentModal.PaidInvoiceNotResent | frontend/src/components/PaymentModal.jsx:121-125 | the invoice update keeps `synced`, so a payment on a pushed invoice does not put it back in the next sync |
| RecordPaymentModal.Remaining | frontend/src/components/RecordPaymentModal.jsx:32 | the remaining amount plus what was paid is the invoice amount, a missing figure counting as 0 |
| RecordPaymentModal.Reset | frontend/src/components/RecordPaymentModal.jsx:19-28 | the reset form: empty amount, note and error, method "Cash", today's date |
| RecordPaymentModal.Submit | frontend/src/components/RecordPaymentModal.jsx:34-57 | a missing, zero or negative amount is invalid; a positive one above the remaining amount is refused naming it; accepted exactly when 0 < amount <= remaining, and then the payment carries the invoice's id, name and phone, the amount, method, date and trimmed note |
| RecordPaymentModal.ErrorAfter | frontend/src/components/RecordPaymentModal.jsx:38-47 | an accepted submit clears the error; an invalid amount shows the invalid-amount text |
| RecordPaymentModal.ExactRemainingAccepted | frontend/src/components/RecordPaymentModal.jsx:42-56 | paying exactly the remaining amount is accepted whenever something remains |
| RecordPaymentModal.NothingRemainingRefusesAll | frontend/src/components/RecordPaymentModal.jsx:32-45 | on a fully paid or overpaid invoice every amount is refused |
| RecordPaymentModal.ResetFormRefused | frontend/src/components/RecordPaymentModal.jsx:19-41 | submitting a freshly reset form is refused as an invalid amount |
| RecordPaymentModal.AcceptedStaysWithinAmount | frontend/src/components/RecordPaymentModal.jsx:32-56 | an accepted payment is positive and never takes the paid amount above the invoice amount |
| BalancePreview.AfterBalance | frontend/src/components/BalancePreview.jsx:26-29 | a "selling" invoice raises the balance by its amount; any other type lowers it by the amount |
| BalancePreview.Label | frontend/src/components/BalancePreview.jsx:37-41 | "They owe you" exactly when positive, "You owe them" exactly when negative, "Settled" exactly when zero |
| BalancePreview.Preview | frontend/src/components/BalancePreview.jsx:43-75 | nothing is shown exactly when the amount is zero; otherwise the label and magnitude of the balance before and after |
| BalancePreview.SaleThenPurchaseCancels | frontend/src/components/BalancePreview.jsx:26-29 | a sale and a purchase of the same amount cancel out |
| BalancePreview.PreviewMatchesLedgerIffUnpaid | frontend/src/pages/CreateInvoice.jsx:449-454 | the preview adds the grand total while the saved ledger row carries the amount due, so the balance shown after the save equals the preview exactly when nothing was paid up front |
| InvoiceList.NextStatus | frontend/src/pages/InvoiceList.jsx:28 | "pending" exactly when the status was "paid", "paid" exactly when it was anything else |
| InvoiceList.Toggled | frontend/src/pages/InvoiceList.jsx:29-31 | the invoice with the new status and `synced` 0, every other field kept |
| InvoiceList.ToggleStore | frontend/src/pages/InvoiceList.jsx:29 | only the stored invoice with that id is toggled; an unknown id writes nothing |
| InvoiceList.ToggleList | frontend/src/pages/InvoiceList.jsx:30-32 | every listed invoice with that id is toggled, the others kept, in order |
| InvoiceList.InvoiceListPage.constructor | frontend/src/pages/InvoiceList.jsx:12-24 | the page holds the invoice table newest first by `createdAt`: a permutation of the rows read, sorted, and each the row stored under its id |
| InvoiceList.InvoiceListPage.ToggleStatus | frontend/src/pages/InvoiceList.jsx:27-33 | the store and the shown list are both toggled with the status computed from the invoice handed in, and a list that mirrored the store still does |
| InvoiceList.ToggleKeepsMirror | frontend/src/pages/InvoiceList.jsx:29-32 | a toggle keeps the page's list and the store in agreement |
| InvoiceList.NextStatusTwice | frontend/src/pages/InvoiceList.jsx:28 | toggling twice restores the status exactly when it was "paid" or "pending" |
| InvoiceList.ToggleTwiceRestores | frontend/src/pages/InvoiceList.jsx:27-33 | toggling an invoice twice restores a "paid" or "pending" status on every listed copy, which stays unsynced; the other invoices are untouched |
| InvoiceList.DraftToggledTwiceIsPending | frontend/src/pages/InvoiceList.jsx:28 | a "draft" toggled twice comes back as "pending" |
| InvoiceTable.TabFilter | frontend/src/components/InvoiceTable.jsx:51-54 | "All" lists every row; any other tab lists exactly the rows whose lowercased status is the tab's lowercased name, each no more often than in the input |
| InvoiceTable.StatusBadge | frontend/src/components/InvoiceTable.jsx:112-121 | the paid badge exactly for "paid", the overdue badge exactly for "overdue", the pending badge for every other status |
| InvoiceTable.SyncLabel | frontend/src/components/InvoiceTable.jsx:123-131 | "Synced" exactly for the sync status "synced", "Pending Sync" otherwise |
| InvoiceTable.LowerTabNames | frontend/src/components/InvoiceTable.jsx:5 | the three status tabs lowercase to "paid", "pending" and "overdue" |
| InvoiceTable.TabFilterLast | frontend/src/components/InvoiceTable.jsx:54 | the filter keeps the input's order: the last row comes last in each tab it belongs to |
| InvoiceTable.TabsPartition | frontend/src/components/InvoiceTable.jsx:51-54 | when every status is paid, pending or overdue in some letter case, the three status tabs together list every row exactly once |
| InvoiceTable.InOneTab | frontend/src/components/InvoiceTable.jsx:54 | such a row is in exactly one status tab |
| InvoiceTable.CapitalisedStatusLooksPending | frontend/src/components/InvoiceTable.jsx:54-164 | a status written "Paid" is listed under the "Paid" tab yet gets the pending badge and the "mark as paid" action |
| InvoicePage.MarkPaid | frontend/src/pages/InvoicePage.jsx:68-74 | every row with that id becomes "paid" and waits for a sync; the others are kept, in order |
| InvoicePage.Phones | frontend/src/pages/InvoicePage.jsx:91 | exactly the phone numbers that occur in the rows |
| InvoicePage.Find | frontend/src/pages/InvoicePage.jsx:77 | a row with that id, and none exactly when no row has it |
| InvoicePage.FindFirst | frontend/src/pages/InvoicePage.jsx:77 | the row found is the first with that id, as `Array.find` returns |
| InvoicePage.ResendLink | frontend/src/pages/InvoicePage.jsx:76-86 | no link exactly when no row has the id; otherwise wa.me/91 followed by the phone of the first row with that id and the encoded reminder built from that row's name, id, formatted amount and status |
| InvoicePage.MarkPaidPrefix | frontend/src/pages/InvoicePage.jsx:69-73 | marking works row by row: the marked list without its last row is the shorter list marked |
| InvoicePage.MarkPaidIdempotent | frontend/src/pages/InvoicePage.jsx:68-74 | marking an invoice paid twice is marking it once |
| InvoicePage.PendingAtMostSales | frontend/src/pages/InvoicePage.jsx:89-90 | with no negative amount, the pending figure is between 0 and total sales |
| InvoicePage.CustomersAtMostInvoices | frontend/src/pages/InvoicePage.jsx:91-92 | the customers figure never exceeds the invoices figure |
| InvoicePage.MarkPaidKeepsSales | frontend/src/pages/InvoicePage.jsx:68-89 | marking an invoice paid leaves total sales as they were |
| InvoicePage.MarkPaidNeverRaisesPending | frontend/src/pages/InvoicePage.jsx:68-90 | with no negative amount, marking an invoice paid never raises the pending figure |
| InvoicePage.MarkedRowsOfferNoAction | frontend/src/pages/InvoicePage.jsx:68-74 | once marked paid, an invoice no longer offers the "mark as paid" action |
| PaymentsPage.ListPayments | frontend/src/pages/PaymentsPage.jsx:41-44 | the loaded payments, each as often as stored, newest `createdAt` first |
| PaymentsPage.DayAmount | frontend/src/pages/PaymentsPage.jsx:72-74 | a payment counts towards today's figure with its amount exactly when it is dated today |
| PaymentsPage.PartialInvoices | frontend/src/pages/PaymentsPage.jsx:77 | exactly the "partial" invoices |
| PaymentsPage.SettledInvoices | frontend/src/pages/PaymentsPage.jsx:80-82 | exactly the invoices that are "paid" or carry an amount due of at most 0 |
| PaymentsPage.ComputeKpis | frontend/src/pages/PaymentsPage.jsx:63-85 | today's collection is the sum over today's payments, whatever their order; the partial and settled counts are those of the two filters and never exceed the number of invoices |
| PaymentsPage.CollectedTodayOrderFree | frontend/src/pages/PaymentsPage.jsx:43-74 | sorting the payments does not change what was collected today |
| PaymentsPage.CollectedTodayAfterPayment | frontend/src/pages/PaymentsPage.jsx:57-74 | a new payment raises today's figure by its amount exactly when it is dated today |
| PaymentsPage.CollectedTodayNonNegative | frontend/src/pages/PaymentsPage.jsx:72-74 | with no negative amount, today's figure is at least 0 |
| PaymentsPage.PartialInvoicesLast | frontend/src/pages/PaymentsPage.jsx:77 | the partial filter keeps the input's order |
| PaymentsPage.SettledInvoicesLast | frontend/src/pages/PaymentsPage.jsx:80-82 | the settled filter keeps the input's order |
| PaymentsPage.PartialAndSettledDisjoint | frontend/src/pages/PaymentsPage.jsx:76-82 | when no "partial" invoice claims nothing is due, no invoice is counted both as partial and as settled |
| PaymentsPage.PaymentKeepsPartialMeaningful | frontend/src/components/PaymentModal.jsx:118-125 | every invoice a recorded payment writes is settled exactly when it is not "partial", and a "partial" one always has something due |
| Dashboard.PaidTotal | frontend/src/pages/Dashboard.jsx:24-26 | a paid invoice contributes its total, a missing total counting as 0; any other invoice contributes nothing |
| Dashboard.Load | frontend/src/pages/Dashboard.jsx:18-31 | given the table's rows as read, the two row counts, the number of unsynced invoices, never more than the invoices, and the revenue of the paid invoices |
| Dashboard.PendingSyncAtMostInvoices | frontend/src/pages/Dashboard.jsx:21-22 | the unsynced invoices are stored invoices, so the pending figure never exceeds the invoices figure |
| Dashboard.SubsetSize | frontend/src/pages/Dashboard.jsx:21-22 | the helper behind `PendingSyncAtMostInvoices`: a subset is no larger than its superset |
| Dashboard.RevenueOrderFree | frontend/src/pages/Dashboard.jsx:23-26 | the revenue does not depend on the order the table is read in |
| Dashboard.RevenueNonNegative | frontend/src/pages/Dashboard.jsx:24-26 | with no negative total, the revenue is at least 0 |
| Dashboard.NothingPendingIffAllSynced | frontend/src/pages/Dashboard.jsx:22 | the pending figure is 0 exactly when every invoice is synced |
| WhatsAppService.ItemLines | backend/services/whatsappService.js:21-23 | one line per item, in item order, each with its name, quantity and price |
| WhatsAppService.IntendedLines | backend/services/whatsappService.js:25-34 | the lines the message is meant to read as: seven fixed lines around one line per item |
| WhatsAppService.SendWhatsAppInvoice | backend/services/whatsappService.js:19-42 | the message is the joined lines, and the url is wa.me/ followed by the digits of the phone, only digits there, and the encoded message |
| WhatsAppService.MessageIsIntendedLines | backend/services/whatsappService.js:21-34 | with at least one item, joining the item lines first and then the parts gives the intended lines joined by newlines |
| WhatsAppService.SplitJoin | backend/services/whatsappService.js:23-34 | splitting a newline-joined list of lines without newlines gives the lines back |
| WhatsAppService.MessageLines | backend/services/whatsappService.js:21-34 | with at least one item and single-line fields, the message splits into exactly the intended lines: item i is line 2 + i, and there are seven more lines than items |
| WhatsAppService.NoItemsLeaveBlankLine | backend/services/whatsappService.js:21-34 | with no items, an empty line takes the place of the item lines |
| WhatsAppController.Decide | backend/controllers/whatsappController.js:11-62 | each reply exactly under its condition, in the controller's order: no id, unknown invoice, unsynced, already sent, no phone; otherwise the link built from the customer's phone and the invoice |
| WhatsAppController.After | backend/controllers/whatsappController.js:49-51 | only a ready reply changes the state, by marking that invoice sent; customers and ledger never change |
| WhatsAppController.SendWhatsApp | backend/controllers/whatsappController.js:11-62 | the reply is that of `Decide` on the old state and the new state is that of `After` |
| WhatsAppController.SecondRequestAlreadySent | backend/controllers/whatsappController.js:30-33 | after a link was handed out, the same request is answered "already sent" and writes nothing |
| WhatsAppController.SentFlagOnlyRises | backend/controllers/whatsappController.js:49-51 | no request ever unmarks an invoice, a refused one changes none, and no other invoice changes |
| WhatsAppController.ReadyLinkTargetsPhone | backend/controllers/whatsappController.js:36-47 | the link handed out goes to the digits of the customer's non-empty phone |
| WhatsAppServiceV2.GetWhatsAppStatus | frontend/src/services/whatsappServiceV2.js:46-64 | each reason exactly under its condition in the function's order (no invoice, already sent, unsynced, else ready); a send is allowed exactly when ready; the warning variant exactly for unsynced, the info variant exactly for no invoice |
| WhatsAppServiceV2.StatusAgreesWithGate | frontend/src/services/whatsappServiceV2.js:36-64 | the status shown allows a send exactly when `canSendWhatsApp` does |
| WhatsAppServiceV2.LocalLinkUrl | frontend/src/services/whatsappServiceV2.js:126-143 | the offline link is the one the server would build for the same invoice and phone, a missing total read as 0 |
| WhatsAppServiceV2.MarkSent | frontend/src/services/whatsappServiceV2.js:104 | only the named invoice changes, to `whatsappSent` true; keys and key agreement are kept |
| WhatsAppServiceV2.SendWhatsAppIfSynced | frontend/src/services/whatsappServiceV2.js:79-120 | each refusal exactly under its guard, in order: unsynced, already sent, no phone; the server path exactly when online and the call answered, with its url and the invoice marked sent; otherwise the local link, and then the store is unchanged |
| WhatsAppServiceV2.GuardOrdersDiffer | frontend/src/services/whatsappServiceV2.js:46-96 | an invoice both unsynced and already sent is shown as already sent while the send refuses it as unsynced |
| WhatsAppServiceV2.SendPastGuardsIsAllowed | frontend/src/services/whatsappServiceV2.js:36-104 | an invoice that passes the send's guards is one the gate allows, and once marked sent the gate closes |
| AiController.NormalizeType | backend/controllers/aiController.js:74-81 | a lowercased type holding a selling word becomes "selling", else one holding a buying word "buying", else one holding a payment word "payment", else it is left as returned |
| AiController.Normalize | backend/controllers/aiController.js:74-81 | only `transaction_type` of the record may change, to "selling", "buying" or "payment" or not at all, and the result is already normalised |
| AiController.NormalizeTypeIdempotent | backend/controllers/aiController.js:74-81 | normalising twice is normalising once, for every type |
| AiController.SellingFixed | backend/controllers/aiController.js:75-76 | "selling" is left as it is |
| AiController.BuyingFixed | backend/controllers/aiController.js:77-78 | "buying" is left as it is |
| AiController.PaymentFixed | backend/controllers/aiController.js:79-80 | "payment" is left as it is |
| AiController.SoldKept | backend/controllers/aiController.js:74-81 | "sold" matches no word family and comes back unchanged |
| AiController.BoughtKept | backend/controllers/aiController.js:74-81 | "bought" matches no word family and comes back unchanged |
| AiController.PaidKept | backend/controllers/aiController.js:74-81 | "paid" matches no word family and comes back unchanged |
| AiController.Unmatched | backend/controllers/aiController.js:74-81 | a lower-case type that holds no word of any family is left as it is |
| AiController.SellMatched | backend/controllers/aiController.js:75-76 | a lower-case type holding any selling word becomes "selling" |
| AiController.BuyMatched | backend/controllers/aiController.js:77-78 | a lower-case type holding a buying word and no selling word becomes "buying" |
| AiController.PayMatched | backend/controllers/aiController.js:79-80 | a lower-case type holding a payment word and no selling or buying word becomes "payment" |
| AiController.FirstSuccess | backend/controllers/aiController.js:58-98 | the index of the first model whose call succeeds, every earlier one having failed; none exactly when all fail |
| AiController.Respond | backend/controllers/aiController.js:50-99 | 400 exactly for a missing or blank sentence; 500 exactly when every model fails on the trimmed sentence; otherwise the normalised record of the first model that succeeds, whose type is already normal |
| AiController.Calls | backend/controllers/aiController.js:58-98 | a request asks at most as many models as are listed, and none exactly when the sentence is refused |
| AiController.ParseInvoiceSentence | backend/controllers/aiController.js:50-99 | the reply is that of `Respond` and the number of model calls that of `Calls` |
| Ledger.VocabularyMismatch | frontend/src/pages/CreateInvoice.jsx:47-49 | the two balances read different type words: a "credit" row counts +100 in the ledger balance and -100 in the preview's running sum, and a "selling" row 0 and +100 |
| Text.DigitsOnly | backend/services/whatsappService.js:37 | `replace(/\D/g, "")`: the result holds only digits and is no longer than the phone |
| Text.DigitsOnlyAppend | backend/services/whatsappService.js:37 | the digits of a concatenation are the digits of each part in order, so the cleaned phone keeps its digits in their order |
| Text.DigitsOnlyIdempotent | backend/services/whatsappService.js:37 | cleaning an already cleaned phone changes nothing |
| Text.Trim | backend/controllers/aiController.js:66 | `trim()`: no whitespace at either end of the result, and a string with none there is returned as it is |
| Text.TrimIdempotent | backend/controllers/aiController.js:66 | trimming twice is trimming once |
| Text.ToLower | backend/controllers/aiController.js:74 | `toLowerCase()` on ASCII letters: same length, each character folded on its own |
| Sorting.SortDescByStr | frontend/src/services/ledgerService.js:175 | the sort keeps exactly the rows it was given, as a permutation |
| Sorting.SortDescByStrSorted | frontend/src/services/ledgerService.js:175 | the sorted rows are newest first by their timestamp string |
| Sorting.SortDescByReal | frontend/src/services/ledgerService.js:188 | the sort keeps exactly the customers it was given, as a permutation |
| Sorting.SortDescByRealSorted | frontend/src/services/ledgerService.js:188 | the sorted customers have non-increasing balances |

## Left out

- Rendering: JSX markup, styles, icons, dialogs opening and closing, navigation, `alert` and `window.open` are not modelled; only the state each handler computes is.
- Display-only components (ErrorBoundary, Layout, Navbar, StatCard, StatsCard, CustomerCard, RevenueCard, RevenueChart, TopDebtors, CustomerDrawer, InvoiceDetailsCard, InvoiceItemsCard) carry no logic beyond what the forms already compute.
- Speech recognition in the invoice form, `useOnlineStatus.js` and the browser's event listeners are browser I/O. Their results enter as parameters.
- Timers are recorded as the delay they were set with and are never run. Real time is not modelled.
- Async interleaving is modelled only at the sync engine's network `await`, which is split into `BeginSync` and `FinishSync`. Every other handler is one atomic step.
- Numbers are exact reals. IEEE rounding, `NaN` from non-numeric text or from missing fields in arithmetic, and the tax division of the invoice form in floating point are not modelled.
- `toLocaleString` and the text of numbers in template strings are left to the uninterpreted `fmt`, and `encodeURIComponent` to `encode`.
- `toLowerCase` folds ASCII letters only. Other scripts are left as they are.
- `localeCompare` between timestamps is modelled as code-unit order. The two agree on ISO-8601 strings of one shape.
- Dexie's iteration order over a table is a parameter (the `all` sequence) where a figure is computed over `toArray()`.
- `frontend/src/db/index.js` and `frontend/src/db/schema.js` both open "NanoBizDB" but disagree on the customers key ("id" against "phone") and on the ledger key (`++id` against "id"). The model keys customers by id and gives every ledger row either an auto-increment or a supplied key.
- The payload of the first sync engine is not modelled field by field. Only which rows it sends and what it marks is.
- `backend/controllers/paymentController.js` is a bare `Payment.create(req.body)` with no logic of its own. `voiceController.js` returns fixed mock data.
- The HTTP wrappers (`api.js`, `apiService.js`, `aiService.js`), the Express routes, `server.js` and the Vite configuration are wiring.
- `frontend/src/services/whatsapp.js` and `InvoiceList`'s WhatsApp button duplicate the server's builder and end in `window.open`.
- The language model call and `JSON.parse` form one oracle. A reply whose `transaction_type` is not a string, or a parsed `null`, makes the source throw inside its loop; the oracle does not produce these.
- The case of an empty model list in the AI parse is left out, because the list is a constant with two entries.
- Error replies carry their status and reason but not their message texts.
- Console logging is left out.
- `updatedAt`, which Mongoose maintains with `timestamps: true`, is not modelled. `createdAt` is.
- The date format of new records and of "today" is a parameter.
- The source of a customer's phone number is a parameter.
- The month filter of the payments page (`collectedThisMonth`) depends on the clock and is not modelled.
- The capitalisation of status labels on screen is not modelled. The status value that selects the label is.
- A local invoice whose total is missing shows as "undefined" in the offline WhatsApp text; the model renders it as `fmt(0)`.
- In the invoice form, an edit of a line-item row that does not exist is ignored, because the form only addresses rows it renders.
- `RecordPaymentModal` is not mounted by any page of the app. It is modelled as a component on its own, with `onSave` as its result.
- A negative `limit` given to `getTopDebtors` is not modelled. The limit is a `nat`.
- Models.CustomerMerge and Models.InvoiceReqValid, absent request fields on the server: a missing `phone` or `address` in a customer upsert is modelled as "", so an update overwrites the stored value with "", and an invoice upsert without `total` is refused. Mongoose since version 6 instead drops undefined keys from an update, keeping the stored phone, address and total, and does not run the `required` validator on a path the update omits. The Mongoose version is not part of this model.
- The default `action = "create"` of `enqueue` and `enqueueSyncItem` is not modelled; `SyncManagerV1.Enqueue` and `SyncManagerV2.SyncManager.EnqueueSyncItem` take the action as a parameter, which every caller in the model passes.
- Sync listeners are modelled as ids; the callbacks themselves are not run, only the notifications they would receive are recorded.
