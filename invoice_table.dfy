/**
 * The tabbed invoice table of the invoices screen: which rows a tab lists, which badge a
 * row's payment and sync status get, and when the "mark as paid" action is offered.
 */
module InvoiceTable {
  import opened Text
  import opened Sorting

  /** A row of the table. */
  datatype Row = Row(id: string, customerName: string, phone: string, date: string, amount: real,
                     paymentStatus: string, syncStatus: string)

  const Tabs: seq<string> := ["All", "Paid", "Pending", "Overdue"]

  /** The payment badges; a status without a badge of its own gets the pending one. */
  datatype Badge = PaidBadge | PendingBadge | OverdueBadge

  /** A row belongs to a tab other than "All" when their lowercased names agree. */
  predicate InTab(row: Row, tab: string) {
    ToLower(row.paymentStatus) == ToLower(tab)
  }

  /** The rows the active tab lists: all of them for "All", otherwise those in the tab, in order. */
  function TabFilter(rows: seq<Row>, tab: string): (r: seq<Row>)
    ensures tab == "All" ==> r == rows
    ensures tab != "All" ==> forall x :: x in r <==> x in rows && InTab(x, tab)
    ensures multiset(r) <= multiset(rows)
  {
    if tab == "All" then rows else Filter(rows, (x: Row) => InTab(x, tab))
  }

  /** The badge lookup is by the exact status string. */
  function StatusBadge(status: string): (b: Badge)
    ensures b == PaidBadge <==> status == "paid"
    ensures b == OverdueBadge <==> status == "overdue"
    ensures b == PendingBadge <==> status != "paid" && status != "overdue"
  {
    if status == "paid" then PaidBadge else if status == "overdue" then OverdueBadge else PendingBadge
  }

  /** The sync badge's text. */
  function SyncLabel(syncStatus: string): (s: string)
    ensures s == "Synced" <==> syncStatus == "synced"
    ensures s != "Synced" ==> s == "Pending Sync"
  {
    if syncStatus == "synced" then "Synced" else "Pending Sync"
  }

  /** The "mark as paid" action is offered for every row that is not "paid". */
  predicate OffersMarkPaid(row: Row) {
    row.paymentStatus != "paid"
  }

  /** A word whose first letter alone is a capital lowercases to that letter folded and the rest as it is. */
  lemma LowerCapitalised(s: string)
    requires s != [] && NoUpper(s[1..])
    ensures ToLower(s) == [LowerChar(s[0])] + s[1..]
  {
    LowerUnchanged(s[1..]);
  }

  lemma LowerPaid()
    ensures ToLower("Paid") == "paid"
  {
    LowerCapitalised("Paid");
    assert LowerChar('P') == 'p';
  }

  lemma LowerPending()
    ensures ToLower("Pending") == "pending"
  {
    LowerCapitalised("Pending");
    assert LowerChar('P') == 'p';
  }

  lemma LowerOverdue()
    ensures ToLower("Overdue") == "overdue"
  {
    LowerCapitalised("Overdue");
    assert LowerChar('O') == 'o';
  }

  lemma LowerTabNames()
    ensures ToLower("Paid") == "paid" && ToLower("Pending") == "pending" && ToLower("Overdue") == "overdue"
  {
    LowerPaid();
    LowerPending();
    LowerOverdue();
  }

  /** The last row is listed after the others in the tabs it belongs to. */
  lemma TabFilterLast(rows: seq<Row>, tab: string)
    requires tab != "All" && rows != []
    ensures TabFilter(rows, tab) ==
      TabFilter(rows[..|rows| - 1], tab) + (if InTab(rows[|rows| - 1], tab) then [rows[|rows| - 1]] else [])
  {
  }

  /** A status one of the tabs names, in any letter case. */
  predicate KnownStatus(x: Row) {
    var s := ToLower(x.paymentStatus);
    s == "paid" || s == "pending" || s == "overdue"
  }

  /** Each row of a well-statused list appears under exactly one of the three status tabs. */
  lemma {:induction false} TabsPartition(rows: seq<Row>)
    requires forall i :: 0 <= i < |rows| ==> KnownStatus(rows[i])
    ensures |TabFilter(rows, "Paid")| + |TabFilter(rows, "Pending")| + |TabFilter(rows, "Overdue")| == |rows|
  {
    if rows != [] {
      var init := rows[..|rows| - 1];
      var x := rows[|rows| - 1];
      assert forall i :: 0 <= i < |init| ==> init[i] == rows[i];
      TabsPartition(init);
      TabFilterLast(rows, "Paid");
      TabFilterLast(rows, "Pending");
      TabFilterLast(rows, "Overdue");
      InOneTab(x);
    }
  }

  /** A row whose lowercased status is one of the three is in exactly one status tab. */
  lemma InOneTab(x: Row)
    requires KnownStatus(x)
    ensures (if InTab(x, "Paid") then 1 else 0) + (if InTab(x, "Pending") then 1 else 0)
          + (if InTab(x, "Overdue") then 1 else 0) == 1
  {
    LowerTabNames();
  }

  /**
   * A status written "Paid" is listed under the "Paid" tab, since the tab compares
   * lowercased names, yet gets the pending badge and the "mark as paid" action, since
   * those compare the exact string.
   */
  lemma CapitalisedStatusLooksPending(row: Row)
    requires row.paymentStatus == "Paid"
    ensures row in TabFilter([row], "Paid")
    ensures StatusBadge(row.paymentStatus) == PendingBadge
    ensures OffersMarkPaid(row)
  {
    LowerTabNames();
  }
}
