/**
 * The payments screen: the stored payments listed newest first, and the KPI figures
 * computed from the payments and invoices it loaded.
 */
module PaymentsPage {
  import opened Wrappers
  import opened LocalDb
  import opened Sorting
  import PaymentModal

  /** The sort key; a payment without `createdAt` is stored with "". */
  function CreatedAtKey(p: Payment): string {
    p.createdAt
  }

  /** The list as shown: the loaded payments, newest `createdAt` first. */
  function ListPayments(all: seq<Payment>): (r: seq<Payment>)
    ensures SortedDescByStr(r, CreatedAtKey)
    ensures multiset(r) == multiset(all)
  {
    SortDescByStrSorted(all, CreatedAtKey);
    SortDescByStr(all, CreatedAtKey)
  }

  function DayAmount(today: string, p: Payment): (r: real)
    ensures r == if p.date == today then p.amount else 0.0
  {
    if p.date == today then p.amount else 0.0
  }

  function TodayTerm(today: string): Payment -> real {
    (p: Payment) => DayAmount(today, p)
  }

  /** Collected today: the sum of the amounts of the payments dated `today`. */
  function CollectedToday(ps: seq<Payment>, today: string): real {
    SumOf(ps, TodayTerm(today))
  }

  predicate IsPartial(inv: Invoice) {
    inv.status == "partial"
  }

  /** Settled: "paid", or with an amount due present and at most 0. */
  predicate IsSettled(inv: Invoice) {
    inv.status == "paid" || (inv.balanceDue.Some? && inv.balanceDue.value <= 0.0)
  }

  function PartialInvoices(invs: seq<Invoice>): (r: seq<Invoice>)
    ensures forall x :: x in r <==> x in invs && IsPartial(x)
    ensures |r| <= |invs|
  {
    Filter(invs, (inv: Invoice) => IsPartial(inv))
  }

  function SettledInvoices(invs: seq<Invoice>): (r: seq<Invoice>)
    ensures forall x :: x in r <==> x in invs && IsSettled(x)
    ensures |r| <= |invs|
  {
    Filter(invs, (inv: Invoice) => IsSettled(inv))
  }

  /**
   * The figures of the screen, computed over the sorted list; the month's collection is
   * not part of this model. What was collected today is the same as over the list in store order.
   */
  datatype Kpis = Kpis(collectedToday: real, partialPayments: nat, fullySettled: nat)

  function ComputeKpis(payments: seq<Payment>, invoices: seq<Invoice>, today: string): (k: Kpis)
    ensures k.partialPayments <= |invoices| && k.fullySettled <= |invoices|
    ensures k.collectedToday == CollectedToday(payments, today)
    ensures k.partialPayments == |PartialInvoices(invoices)| && k.fullySettled == |SettledInvoices(invoices)|
  {
    CollectedTodayOrderFree(ListPayments(payments), payments, today);
    Kpis(CollectedToday(ListPayments(payments), today), |PartialInvoices(invoices)|, |SettledInvoices(invoices)|)
  }

  /** The order the store hands the payments over in does not change what was collected. */
  lemma CollectedTodayOrderFree(a: seq<Payment>, b: seq<Payment>, today: string)
    requires multiset(a) == multiset(b)
    ensures CollectedToday(a, today) == CollectedToday(b, today)
  {
    SumOfPermutation(a, b, TodayTerm(today));
  }

  /** A new payment raises the figure by its amount exactly when it is dated today. */
  lemma CollectedTodayAfterPayment(ps: seq<Payment>, p: Payment, today: string)
    ensures CollectedToday(ps + [p], today) == CollectedToday(ps, today) + (if p.date == today then p.amount else 0.0)
  {
    var all := ps + [p];
    assert all[..|all| - 1] == ps;
  }

  /** With no negative amount, what was collected today is at least 0. */
  lemma CollectedTodayNonNegative(ps: seq<Payment>, today: string)
    requires forall i :: 0 <= i < |ps| ==> ps[i].amount >= 0.0
    ensures CollectedToday(ps, today) >= 0.0
  {
    forall i | 0 <= i < |ps|
      ensures TodayTerm(today)(ps[i]) >= 0.0
    {
    }
    SumOfNonNegative(ps, TodayTerm(today));
  }

  /** No "partial" invoice claims that nothing is due. */
  predicate PartialMeansDue(inv: Invoice) {
    inv.status == "partial" ==> inv.balanceDue.None? || inv.balanceDue.value > 0.0
  }

  lemma PartialInvoicesLast(invs: seq<Invoice>)
    requires invs != []
    ensures PartialInvoices(invs) ==
      PartialInvoices(invs[..|invs| - 1]) + (if IsPartial(invs[|invs| - 1]) then [invs[|invs| - 1]] else [])
  {
  }

  lemma SettledInvoicesLast(invs: seq<Invoice>)
    requires invs != []
    ensures SettledInvoices(invs) ==
      SettledInvoices(invs[..|invs| - 1]) + (if IsSettled(invs[|invs| - 1]) then [invs[|invs| - 1]] else [])
  {
  }

  /** When no "partial" invoice claims that nothing is due, no invoice counts as both partial and settled. */
  lemma {:induction false} PartialAndSettledDisjoint(invs: seq<Invoice>)
    requires forall i :: 0 <= i < |invs| ==> PartialMeansDue(invs[i])
    ensures |PartialInvoices(invs)| + |SettledInvoices(invs)| <= |invs|
  {
    if invs != [] {
      var init := invs[..|invs| - 1];
      assert forall i :: 0 <= i < |init| ==> init[i] == invs[i];
      PartialAndSettledDisjoint(init);
      PartialInvoicesLast(invs);
      SettledInvoicesLast(invs);
      assert PartialMeansDue(invs[|invs| - 1]);
    }
  }

  /** Every invoice a recorded payment writes keeps that shape. */
  lemma PaymentKeepsPartialMeaningful(inv: Invoice, amount: real)
    ensures PartialMeansDue(PaymentModal.PayInvoice(inv, amount))
    ensures IsSettled(PaymentModal.PayInvoice(inv, amount)) <==> !IsPartial(PaymentModal.PayInvoice(inv, amount))
  {
  }
}
