/**
 * The bookkeeping rule behind every balance: a customer's balance is the sum of the
 * amounts of its "credit" entries minus the sum of the amounts of its "debit" entries.
 * Entries of any other type ("selling", "buying", which the invoice screens write)
 * contribute nothing to it.
 */
module Ledger {

  /** What the balance fold reads from a ledger entry: its type and its amount. */
  datatype Posting = Posting(kind: string, amount: real)

  /** The change one entry makes to the balance. */
  function Delta(p: Posting): (d: real)
    ensures p.kind == "credit" ==> d == p.amount
    ensures p.kind == "debit" ==> d == -p.amount
    ensures p.kind != "credit" && p.kind != "debit" ==> d == 0.0
  {
    if p.kind == "credit" then p.amount
    else if p.kind == "debit" then -p.amount
    else 0.0
  }

  /** The balance of a list of entries, folded in list order. */
  function Balance(ps: seq<Posting>): real
  {
    if ps == [] then 0.0 else Balance(ps[..|ps| - 1]) + Delta(ps[|ps| - 1])
  }

  /** One more entry moves the balance by that entry's change. */
  lemma BalanceLast(ps: seq<Posting>, p: Posting)
    ensures Balance(ps + [p]) == Balance(ps) + Delta(p)
  {
    assert (ps + [p])[..|ps|] == ps;
  }

  /** The total amount of the entries of one type. */
  function SumOfKind(ps: seq<Posting>, kind: string): real
  {
    if ps == [] then 0.0
    else SumOfKind(ps[..|ps| - 1], kind) + (if ps[|ps| - 1].kind == kind then ps[|ps| - 1].amount else 0.0)
  }

  /** Balance = SUM(credits) - SUM(debits). */
  lemma {:induction false} BalanceIsCreditsMinusDebits(ps: seq<Posting>)
    ensures Balance(ps) == SumOfKind(ps, "credit") - SumOfKind(ps, "debit")
  {
    if ps != [] {
      BalanceIsCreditsMinusDebits(ps[..|ps| - 1]);
    }
  }

  lemma {:induction false} BalanceAppend(a: seq<Posting>, b: seq<Posting>)
    ensures Balance(a + b) == Balance(a) + Balance(b)
    decreases |b|
  {
    if b == [] {
      assert a + b == a;
    } else {
      assert (a + b)[..|a + b| - 1] == a + b[..|b| - 1];
      BalanceAppend(a, b[..|b| - 1]);
    }
  }

  /** The balance does not depend on the order in which the entries are read. */
  lemma {:induction false} BalancePermutation(a: seq<Posting>, b: seq<Posting>)
    requires multiset(a) == multiset(b)
    ensures Balance(a) == Balance(b)
    decreases |a|
  {
    if a != [] {
      var x := a[|a| - 1];
      var a' := a[..|a| - 1];
      assert a == a' + [x];
      assert x in multiset(b);
      var j :| 0 <= j < |b| && b[j] == x;
      var b' := b[..j] + b[j + 1..];
      assert b == b[..j] + [x] + b[j + 1..];
      assert multiset(b) == multiset(b[..j]) + multiset{x} + multiset(b[j + 1..]);
      assert multiset(a) == multiset(a') + multiset{x};
      assert multiset(b') == multiset(b[..j]) + multiset(b[j + 1..]);
      assert multiset(a') == multiset(a) - multiset{x};
      assert multiset(b') == multiset(b) - multiset{x};
      BalancePermutation(a', b');
      BalanceAppend(b[..j] + [x], b[j + 1..]);
      BalanceAppend(b[..j], [x]);
      BalanceAppend(b[..j], b[j + 1..]);
      assert Balance([x]) == Delta(x) by {
        assert [x][..0] == [];
      }
    }
  }

  /**
   * The running balance the invoice screen shows before a new invoice: "selling" entries
   * add their amount and entries of every other type subtract it.
   */
  function RunningBalance(ps: seq<Posting>): real
  {
    if ps == [] then 0.0
    else
      var p := ps[|ps| - 1];
      RunningBalance(ps[..|ps| - 1]) + (if p.kind == "selling" then p.amount else -p.amount)
  }

  /**
   * The two folds disagree: a single credit of 100 is +100 to `Balance` and -100 to
   * `RunningBalance`, and a single "selling" entry of 100 is 0 to `Balance`.
   */
  lemma VocabularyMismatch()
    ensures Balance([Posting("credit", 100.0)]) == 100.0
    ensures RunningBalance([Posting("credit", 100.0)]) == -100.0
    ensures Balance([Posting("selling", 100.0)]) == 0.0
    ensures RunningBalance([Posting("selling", 100.0)]) == 100.0
  {
    assert [Posting("credit", 100.0)][..0] == [];
    assert [Posting("selling", 100.0)][..0] == [];
  }
}
