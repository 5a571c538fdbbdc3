/**
 * The balance preview of the invoice form: the party's balance before and after the
 * invoice being written (positive when the party owes the user), with a sign label.
 */
module BalancePreview {
  import opened Wrappers
  import opened LocalDb
  import CreateInvoice
  import LedgerService

  /** A "selling" invoice adds its amount to the balance; any other type subtracts it. */
  function AfterBalance(current: real, amount: real, invoiceType: string): (r: real)
    ensures invoiceType == "selling" ==> r - current == amount
    ensures invoiceType != "selling" ==> current - r == amount
  {
    if invoiceType == "selling" then current + amount else current - amount
  }

  /** The sign label of a balance. */
  function Label(v: real): (s: string)
    ensures s == "They owe you" <==> v > 0.0
    ensures s == "You owe them" <==> v < 0.0
    ensures s == "Settled" <==> v == 0.0
  {
    if v > 0.0 then "They owe you" else if v < 0.0 then "You owe them" else "Settled"
  }

  /** What the preview shows: the label and magnitude before, then after. */
  datatype Shown = Shown(beforeLabel: string, beforeAmount: real, afterLabel: string, afterAmount: real)

  /** The rendered preview; nothing is rendered for a zero transaction amount. */
  function Preview(current: real, amount: real, invoiceType: string): (r: Option<Shown>)
    ensures r.None? <==> amount == 0.0
    ensures r.Some? ==> r.value.beforeLabel == Label(current) && r.value.beforeAmount == LedgerService.Abs(current)
    ensures r.Some? ==> var after := AfterBalance(current, amount, invoiceType);
      r.value.afterLabel == Label(after) && r.value.afterAmount == LedgerService.Abs(after)
  {
    if amount == 0.0 then None
    else
      var after := AfterBalance(current, amount, invoiceType);
      Some(Shown(Label(current), LedgerService.Abs(current), Label(after), LedgerService.Abs(after)))
  }

  /** A sale and a purchase of the same amount cancel out. */
  lemma SaleThenPurchaseCancels(current: real, amount: real)
    ensures AfterBalance(AfterBalance(current, amount, "selling"), amount, "buying") == current
  {
  }

  /**
   * The preview is shown with the invoice's grand total, while the ledger entry the save
   * writes carries the amount still due. The balance the form shows after the save
   * therefore equals the preview exactly when nothing was paid up front.
   */
  lemma PreviewMatchesLedgerIffUnpaid(rows: seq<LedgerRow>, row: LedgerRow, grand: real, paid: real)
    requires row.customerId != "" && grand > 0.0 && 0.0 <= paid <= grand
    requires row.amount == CreateInvoice.BalanceDue(grand, paid)
    ensures AfterBalance(CreateInvoice.CurrentBalance(rows, row.customerId), grand, row.kind) ==
            CreateInvoice.CurrentBalance(rows + [row], row.customerId)
            <==> paid == 0.0
  {
    CreateInvoice.AppendMovesCurrentBalance(rows, row, row.customerId);
  }
}
