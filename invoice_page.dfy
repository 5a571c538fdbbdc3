/**
 * The invoices screen: a list of table rows held in the page's state, the "mark as paid"
 * action, the WhatsApp resend link and the four KPI figures recomputed from the list.
 */
module InvoicePage {
  import opened Wrappers
  import opened InvoiceTable

  /** `handleMarkPaid(id)`: the rows with that id become "paid" and wait for a sync. */
  function MarkPaid(rows: seq<Row>, id: string): (r: seq<Row>)
    ensures |r| == |rows|
    ensures forall k :: 0 <= k < |rows| ==>
      r[k] == if rows[k].id == id then rows[k].(paymentStatus := "paid", syncStatus := "pending") else rows[k]
  {
    seq(|rows|, k requires 0 <= k < |rows| =>
      if rows[k].id == id then rows[k].(paymentStatus := "paid", syncStatus := "pending") else rows[k])
  }

  /** Total sales: the sum of all amounts. */
  function Sales(rows: seq<Row>): real {
    if rows == [] then 0.0 else Sales(rows[..|rows| - 1]) + rows[|rows| - 1].amount
  }

  /** Pending: the sum of the amounts of the rows that are not "paid". */
  function Pending(rows: seq<Row>): real {
    if rows == [] then 0.0
    else Pending(rows[..|rows| - 1]) + (if rows[|rows| - 1].paymentStatus != "paid" then rows[|rows| - 1].amount else 0.0)
  }

  /** The distinct phone numbers; the customers figure is their number. */
  function Phones(rows: seq<Row>): (r: set<string>)
    ensures forall p :: p in r <==> exists k :: 0 <= k < |rows| && rows[k].phone == p
  {
    set k | 0 <= k < |rows| :: rows[k].phone
  }

  predicate NonNegativeAmounts(rows: seq<Row>) {
    forall k :: 0 <= k < |rows| ==> rows[k].amount >= 0.0
  }

  /** The first row with the id, as `Array.prototype.find` returns it. */
  function Find(rows: seq<Row>, id: string): (r: Option<Row>)
    ensures r.None? <==> forall k :: 0 <= k < |rows| ==> rows[k].id != id
    ensures r.Some? ==> r.value.id == id && r.value in rows
  {
    if rows == [] then None else if rows[0].id == id then Some(rows[0]) else Find(rows[1..], id)
  }

  /** No row before the one `Find` returns has the id: it is the first. */
  lemma {:induction false} FindFirst(rows: seq<Row>, id: string)
    requires Find(rows, id).Some?
    ensures exists k :: && 0 <= k < |rows| && rows[k] == Find(rows, id).value
                        && forall j :: 0 <= j < k ==> rows[j].id != id
  {
    if rows[0].id != id {
      var tail := rows[1..];
      FindFirst(tail, id);
      var k :| && 0 <= k < |tail| && tail[k] == Find(tail, id).value
               && forall j :: 0 <= j < k ==> tail[j].id != id;
      assert rows[k + 1] == tail[k];
      assert forall j :: 1 <= j < k + 1 ==> rows[j] == tail[j - 1];
    } else {
      assert rows[0] == Find(rows, id).value;
    }
  }

  /** The greeting `handleResendWA` sends; `fmt` renders the amount as a template string does. */
  function ResendMessage(row: Row, fmt: real -> string): string {
    "Hi " + row.customerName + ", your invoice " + row.id + " for ₹" + fmt(row.amount) + " is " + row.paymentStatus + ". Thank you!"
  }

  /**
   * `handleResendWA(id)`: the wa.me link for the first row with the id, with the country
   * code 91 in front of its phone and the greeting as its text; `encode` is `encodeURIComponent`.
   */
  function ResendLink(rows: seq<Row>, id: string, fmt: real -> string, encode: string -> string): (url: Option<string>)
    ensures url.None? <==> forall k :: 0 <= k < |rows| ==> rows[k].id != id
    ensures url.Some? ==>
      exists k :: && 0 <= k < |rows| && rows[k].id == id && (forall j :: 0 <= j < k ==> rows[j].id != id)
                  && url.value == "https://wa.me/91" + rows[k].phone + "?text=" + encode(ResendMessage(rows[k], fmt))
  {
    match Find(rows, id)
    case None => None
    case Some(row) =>
      FindFirst(rows, id);
      Some("https://wa.me/91" + row.phone + "?text=" + encode(ResendMessage(row, fmt)))
  }

  lemma MarkPaidPrefix(rows: seq<Row>, id: string)
    requires rows != []
    ensures MarkPaid(rows, id)[..|rows| - 1] == MarkPaid(rows[..|rows| - 1], id)
  {
  }

  /** Marking paid twice is marking paid once. */
  lemma MarkPaidIdempotent(rows: seq<Row>, id: string)
    ensures MarkPaid(MarkPaid(rows, id), id) == MarkPaid(rows, id)
  {
  }

  /** With no negative amount, the pending figure never exceeds total sales. */
  lemma {:induction false} PendingAtMostSales(rows: seq<Row>)
    requires NonNegativeAmounts(rows)
    ensures 0.0 <= Pending(rows) <= Sales(rows)
  {
    if rows != [] {
      PendingAtMostSales(rows[..|rows| - 1]);
    }
  }

  /** The customers figure never exceeds the invoices figure. */
  lemma {:induction false} CustomersAtMostInvoices(rows: seq<Row>)
    ensures |Phones(rows)| <= |rows|
  {
    if rows != [] {
      var init := rows[..|rows| - 1];
      CustomersAtMostInvoices(init);
      assert Phones(rows) == Phones(init) + {rows[|rows| - 1].phone} by {
        forall p | p in Phones(rows)
          ensures p in Phones(init) + {rows[|rows| - 1].phone}
        {
          var k :| 0 <= k < |rows| && rows[k].phone == p;
          if k < |rows| - 1 {
            assert init[k].phone == p;
          }
        }
      }
    }
  }

  /** Marking an invoice paid leaves total sales as they were. */
  lemma {:induction false} MarkPaidKeepsSales(rows: seq<Row>, id: string)
    ensures Sales(MarkPaid(rows, id)) == Sales(rows)
  {
    if rows != [] {
      MarkPaidPrefix(rows, id);
      MarkPaidKeepsSales(rows[..|rows| - 1], id);
    }
  }

  /** With no negative amount, marking an invoice paid never raises the pending figure. */
  lemma {:induction false} MarkPaidNeverRaisesPending(rows: seq<Row>, id: string)
    requires NonNegativeAmounts(rows)
    ensures Pending(MarkPaid(rows, id)) <= Pending(rows)
  {
    if rows != [] {
      MarkPaidPrefix(rows, id);
      MarkPaidNeverRaisesPending(rows[..|rows| - 1], id);
    }
  }

  /** Once marked paid, an invoice no longer offers the "mark as paid" action. */
  lemma MarkedRowsOfferNoAction(rows: seq<Row>, id: string)
    ensures forall k :: 0 <= k < |rows| && rows[k].id == id ==> !OffersMarkPaid(MarkPaid(rows, id)[k])
  {
  }
}
