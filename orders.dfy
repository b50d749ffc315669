/** Terms shared by every order form of the dashboard: the side of an order,
    its pricing mode, and what an order of a given value does to the cash
    balance. */
module Orders {

  /** `orderType`: `'buy'` or `'sell'`. */
  datatype Side = Buy | Sell

  /** `orderMode`: `'market'` or `'limit'`. */
  datatype Mode = Market | Limit

  /** An order's id: a server-assigned string, or a `Date.now()` stamp. */
  datatype OrderId = Named(name: string) | Stamp(ms: int)

  /** The balance after an order of `value`: a buy pays it, a sell receives
      it. Every page computes this (`prev - total` / `prev + total`,
      `balance - (buy ? value : -value)`). */
  function Settle(balance: real, side: Side, value: real): (r: real)
    ensures side == Buy ==> r == balance - value
    ensures side == Sell ==> r == balance + value
  {
    balance - (if side == Buy then value else -value)
  }

  /** A buy and a sell of the same value cancel out, in either order. */
  lemma SettleInverse(balance: real, value: real)
    ensures Settle(Settle(balance, Buy, value), Sell, value) == balance
    ensures Settle(Settle(balance, Sell, value), Buy, value) == balance
  {
  }

  /** A buy that costs no more than the balance leaves it non-negative. */
  lemma SettleAffordableBuy(balance: real, value: real)
    requires value <= balance
    ensures Settle(balance, Buy, value) >= 0.0
  {
  }
}
