/**
 * The dashboard's four figures: the number of customers and of invoices, the invoices
 * still waiting for a sync, and the revenue of the paid invoices.
 */
module Dashboard {
  import opened Wrappers
  import opened LocalDb
  import opened Sorting

  datatype Stats = Stats(customers: nat, invoices: nat, pendingSync: nat, revenue: real)

  /** What a paid invoice contributes to the revenue; a missing total counts as 0. */
  function PaidTotal(inv: Invoice): (r: real)
    ensures inv.status != "paid" ==> r == 0.0
    ensures inv.status == "paid" ==> r == OrZero(inv.total)
  {
    if inv.status == "paid" then OrZero(inv.total) else 0.0
  }

  function Revenue(all: seq<Invoice>): real {
    SumOf(all, PaidTotal)
  }

  /**
   * `load`: the row counts of the two tables, the number of invoices with `synced` 0, and
   * the revenue over `all`, the invoices of the same table as `toArray` returned them.
   */
  function Load(customers: map<string, Customer>, invoices: map<string, Invoice>, all: seq<Invoice>): (s: Stats)
    requires forall x :: x in all <==> x in invoices.Values
    requires |all| == |invoices|
    ensures s.customers == |customers| && s.invoices == |invoices|
    ensures s.pendingSync == |UnsyncedInvoices(invoices)| && s.pendingSync <= s.invoices
    ensures s.revenue == Revenue(all)
  {
    PendingSyncAtMostInvoices(invoices);
    Stats(|customers|, |invoices|, |UnsyncedInvoices(invoices)|, Revenue(all))
  }

  /** Only stored invoices can be waiting for a sync. */
  lemma PendingSyncAtMostInvoices(m: map<string, Invoice>)
    ensures UnsyncedInvoices(m) <= m.Keys
    ensures |UnsyncedInvoices(m)| <= |m|
  {
    assert |m.Keys| == |m|;
    SubsetSize(UnsyncedInvoices(m), m.Keys);
  }

  lemma {:induction false} SubsetSize(a: set<string>, b: set<string>)
    requires a <= b
    ensures |a| <= |b|
    decreases |a|
  {
    if a != {} {
      var x :| x in a;
      SubsetSize(a - {x}, b - {x});
    }
  }

  /** The revenue does not depend on the order the table is read in. */
  lemma RevenueOrderFree(a: seq<Invoice>, b: seq<Invoice>)
    requires multiset(a) == multiset(b)
    ensures Revenue(a) == Revenue(b)
  {
    SumOfPermutation(a, b, PaidTotal);
  }

  /** With no negative total, the revenue is at least 0. */
  lemma RevenueNonNegative(all: seq<Invoice>)
    requires forall i :: 0 <= i < |all| ==> OrZero(all[i].total) >= 0.0
    ensures Revenue(all) >= 0.0
  {
    forall i | 0 <= i < |all|
      ensures PaidTotal(all[i]) >= 0.0
    {
    }
    SumOfNonNegative(all, PaidTotal);
  }

  /** Once every invoice is synced nothing is pending, and the converse. */
  lemma NothingPendingIffAllSynced(m: map<string, Invoice>)
    ensures |UnsyncedInvoices(m)| == 0 <==> forall k :: k in m ==> m[k].synced != 0
  {
    if |UnsyncedInvoices(m)| != 0 {
      var k :| k in UnsyncedInvoices(m);
      assert m[k].synced == 0;
    } else {
      forall k | k in m
        ensures m[k].synced != 0
      {
        assert k !in UnsyncedInvoices(m);
      }
    }
  }
}
