/**
 * The invoice list page: the invoices held in the page's state, and the paid/pending
 * toggle, which writes the store and the shown list alike.
 */
module InvoiceList {
  import opened LocalDb
  import opened Sorting

  /** "paid" becomes "pending"; every other status becomes "paid". */
  function NextStatus(s: string): (r: string)
    ensures r == "pending" <==> s == "paid"
    ensures r == "paid" <==> s != "paid"
  {
    if s == "paid" then "pending" else "paid"
  }

  /** An invoice with the toggled status, marked unsynced. */
  function Toggled(inv: Invoice, status: string): (r: Invoice)
    ensures r.status == status && r.synced == 0
    ensures r == inv.(status := r.status, synced := r.synced)
  {
    inv.(status := status, synced := 0)
  }

  /** `db.invoices.update(id, ...)`: an update of a key the store lacks writes nothing. */
  function ToggleStore(m: map<string, Invoice>, id: string, status: string): (r: map<string, Invoice>)
    ensures r.Keys == m.Keys
    ensures forall k :: k in m && k != id ==> r[k] == m[k]
    ensures id in m ==> r[id] == Toggled(m[id], status)
    ensures InvoicesKeyed(m) ==> InvoicesKeyed(r)
  {
    if id in m then m[id := Toggled(m[id], status)] else m
  }

  /** The state update: every listed invoice with that id gets the new status and `synced` 0. */
  function ToggleList(list: seq<Invoice>, id: string, status: string): (r: seq<Invoice>)
    ensures |r| == |list|
    ensures forall k :: 0 <= k < |list| ==> r[k] == if list[k].id == id then Toggled(list[k], status) else list[k]
  {
    seq(|list|, k requires 0 <= k < |list| => if list[k].id == id then Toggled(list[k], status) else list[k])
  }

  /** The key the list is ordered by. */
  function CreatedAt(inv: Invoice): string { inv.createdAt }

  /** In a keyed table, a stored invoice is the one stored under its own id. */
  lemma StoredUnderId(m: map<string, Invoice>, x: Invoice)
    requires InvoicesKeyed(m)
    requires x in m.Values
    ensures x.id in m && m[x.id] == x
  {
    var k :| k in m && m[k] == x;
  }

  /** Every invoice on the page is the stored invoice with its id. */
  predicate Mirrors(list: seq<Invoice>, m: map<string, Invoice>) {
    forall k :: 0 <= k < |list| ==> list[k].id in m && m[list[k].id] == list[k]
  }

  class InvoiceListPage {
    var invoices: seq<Invoice>

    /**
     * The page once its invoices were loaded: `all` is the invoice table as read, and the
     * page holds it newest first, by `createdAt`.
     */
    constructor (db: Db, all: seq<Invoice>)
      requires db.Valid()
      requires forall x :: x in all <==> x in db.invoices.Values
      requires |all| == |db.invoices|
      ensures multiset(invoices) == multiset(all)
      ensures SortedDescByStr(invoices, CreatedAt)
      ensures Mirrors(invoices, db.invoices)
    {
      var sorted := SortDescByStr(all, CreatedAt);
      SortDescByStrSorted(all, CreatedAt);
      forall k | 0 <= k < |sorted|
        ensures sorted[k].id in db.invoices && db.invoices[sorted[k].id] == sorted[k]
      {
        assert sorted[k] in multiset(all);
        StoredUnderId(db.invoices, sorted[k]);
      }
      invoices := sorted;
    }

    /** `toggleStatus(invoice)`: the status is computed from the invoice handed in. */
    method ToggleStatus(db: Db, invoice: Invoice)
      requires db.Valid()
      modifies this, db`invoices
      ensures db.Valid()
      ensures db.invoices == ToggleStore(old(db.invoices), invoice.id, NextStatus(invoice.status))
      ensures invoices == ToggleList(old(invoices), invoice.id, NextStatus(invoice.status))
      ensures Mirrors(old(invoices), old(db.invoices)) ==> Mirrors(invoices, db.invoices)
    {
      var status := NextStatus(invoice.status);
      if Mirrors(invoices, db.invoices) {
        ToggleKeepsMirror(invoices, db.invoices, invoice.id, status);
      }
      db.invoices := ToggleStore(db.invoices, invoice.id, status);
      invoices := ToggleList(invoices, invoice.id, status);
    }
  }

  /** A toggle keeps the page's list and the store in agreement. */
  lemma ToggleKeepsMirror(list: seq<Invoice>, m: map<string, Invoice>, id: string, status: string)
    requires Mirrors(list, m)
    ensures Mirrors(ToggleList(list, id, status), ToggleStore(m, id, status))
  {
    var l2 := ToggleList(list, id, status);
    var m2 := ToggleStore(m, id, status);
    forall k | 0 <= k < |l2|
      ensures l2[k].id in m2 && m2[l2[k].id] == l2[k]
    {
      assert l2[k].id == list[k].id;
    }
  }

  /** Toggling twice restores a "paid" or "pending" status. */
  lemma NextStatusTwice(s: string)
    ensures NextStatus(NextStatus(s)) == s <==> s == "paid" || s == "pending"
  {
  }

  /**
   * Toggling an invoice and then toggling the updated invoice brings back its status on
   * every listed copy; they stay unsynced. The other invoices are untouched throughout.
   */
  lemma ToggleTwiceRestores(list: seq<Invoice>, inv: Invoice)
    requires inv.status == "paid" || inv.status == "pending"
    ensures var once := ToggleList(list, inv.id, NextStatus(inv.status));
      var twice := ToggleList(once, inv.id, NextStatus(Toggled(inv, NextStatus(inv.status)).status));
      forall k :: 0 <= k < |list| ==>
        twice[k] == if list[k].id == inv.id then list[k].(status := inv.status, synced := 0) else list[k]
  {
    var once := ToggleList(list, inv.id, NextStatus(inv.status));
    var twice := ToggleList(once, inv.id, NextStatus(Toggled(inv, NextStatus(inv.status)).status));
    forall k | 0 <= k < |list|
      ensures twice[k] == if list[k].id == inv.id then list[k].(status := inv.status, synced := 0) else list[k]
    {
      assert once[k].id == list[k].id;
    }
  }

  /** A status other than "paid" or "pending" (a "draft", say) does not come back: it turns into "pending". */
  lemma DraftToggledTwiceIsPending()
    ensures NextStatus(NextStatus("draft")) == "pending"
  {
  }
}
