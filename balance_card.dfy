/** The balance card: what remains after the order being entered, how much
    of the balance it uses, and when the after-order section and its
    warning show. */
module BalanceCard {
  import opened Wrappers
  import opened Orders
  import QuickTradePanel
  import TradePage

  /** `totalWithOrder`: the balance less the value for a buy, plus it for a
      sell. */
  function Remaining(balance: real, value: real, side: Side): (r: real)
    ensures r == Settle(balance, side, value)
    ensures r == TradePage.Preview(balance, side, value)
  {
    balance - (if side == Buy then value else -value)
  }

  /** `percentageUsed`: the value as a percentage of the balance; there is
      no number when the balance is 0. */
  function PercentageUsed(value: real, balance: real): (r: Option<real>)
    ensures r.Some? <==> balance != 0.0
    ensures r.Some? ==> r.value * balance == value * 100.0
  {
    if balance == 0.0 then None else Some(value / balance * 100.0)
  }

  /** The width of the usage bar, capped at 100 percent. */
  function BarWidth(percentage: real): (r: real)
    ensures r <= 100.0 && r <= percentage
    ensures r == percentage || r == 100.0
  {
    if percentage < 100.0 then percentage else 100.0
  }

  /** A buy within a positive balance fills its share of the bar exactly. */
  lemma AffordableBarExact(value: real, balance: real)
    requires 0.0 <= value <= balance && balance > 0.0
    ensures PercentageUsed(value, balance).Some?
    ensures BarWidth(PercentageUsed(value, balance).value) == PercentageUsed(value, balance).value
  {
    assert value / balance <= 1.0;
  }

  /** The after-order section shows only for a positive order value. */
  function AfterSectionVisible(value: real): (r: bool)
    ensures r <==> value > 0.0
  {
    value > 0.0
  }

  /** The warning inside the section: the order would leave a negative
      remainder. */
  function InsufficientShown(balance: real, value: real, side: Side): (r: bool)
    ensures r <==> AfterSectionVisible(value) && Remaining(balance, value, side) < 0.0
  {
    value > 0.0 && Remaining(balance, value, side) < 0.0
  }

  /** The remainder is styled positive exactly when it is not negative. */
  function RemainingPositive(balance: real, value: real, side: Side): (r: bool)
    ensures r <==> Remaining(balance, value, side) >= 0.0
  {
    Remaining(balance, value, side) >= 0.0
  }

  /** For a buy the card warns exactly when the quick-trade panel cannot
      afford it; a sell from a non-negative balance never warns. */
  lemma WarningAgreesWithPanel(balance: real, value: real, side: Side)
    requires value > 0.0
    ensures side == Buy ==>
              (InsufficientShown(balance, value, side) <==> !QuickTradePanel.CanAfford(balance, value, side))
    ensures side == Sell && balance >= 0.0 ==> !InsufficientShown(balance, value, side)
  {
  }

  /** An order the terminal accepts never shows the warning on the card for
      its own total. */
  lemma AcceptedOrderNoWarning(quantity: Option<real>, mode: Mode, limit: Option<real>, side: Side,
                               currentPrice: real, balance: real)
    requires balance >= 0.0
    requires TradePage.CheckOrder(quantity, mode, limit, side, currentPrice, balance).Pass?
    ensures !InsufficientShown(balance, TradePage.CheckOrder(quantity, mode, limit, side, currentPrice, balance).total, side)
  {
  }

  /** Within the after-order section the red styling and the warning
      always go together. */
  lemma StylingAgreesWithWarning(balance: real, value: real, side: Side)
    requires AfterSectionVisible(value)
    ensures InsufficientShown(balance, value, side) <==> !RemainingPositive(balance, value, side)
  {
  }
}
