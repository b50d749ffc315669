/** The floating quick-trade panel: its price, order value, affordability,
    fee and total, when its button is disabled or warns, and what a press
    hands to the page's trade callback. */
module QuickTradePanel {
  import opened Wrappers
  import opened Orders
  import LivePrices

  /** The live price of the panel's symbol, or 150.5 without one. */
  function QuickPrice(prices: LivePrices.PriceTable, symbol: string): (r: real)
    ensures symbol in prices && prices[symbol].price != 0.0 ==> r == prices[symbol].price
    ensures !(symbol in prices && prices[symbol].price != 0.0) ==> r == 150.5
  {
    LivePrices.PriceOr(prices, symbol, 150.5)
  }

  /** The parsed quantity (0 when blank or 0) times the price. */
  function QuickOrderValue(quantity: Option<real>, price: real): (r: real)
    ensures quantity.None? ==> r == 0.0
    ensures quantity.Some? ==> r == quantity.value * price
  {
    OrElse(quantity, 0.0) * price
  }

  /** `canAfford`: a sell always; a buy when the balance covers the value. */
  function CanAfford(balance: real, value: real, side: Side): (r: bool)
    ensures side == Sell ==> r
    ensures side == Buy ==> (r <==> Settle(balance, Buy, value) >= 0.0)
  {
    balance >= value || side == Sell
  }

  /** The estimated fee, half a percent of the value. */
  function Fee(value: real): (r: real)
    ensures r * 200.0 == value
    ensures value >= 0.0 ==> 0.0 <= r <= value
  {
    value * 0.005
  }

  /** The displayed total, `value * 1.005`. */
  function Total(value: real): (r: real)
    ensures r == value + Fee(value)
  {
    value * 1.005
  }

  /** The insufficient-balance note: an unaffordable buy. */
  function ShowsWarning(balance: real, value: real, side: Side): (r: bool)
    ensures r <==> side == Buy && balance < value
  {
    side == Buy && !CanAfford(balance, value, side)
  }

  /** The button is disabled with a blank quantity, while a trade is under
      way, or for an unaffordable buy. */
  function ButtonDisabled(quantity: Option<real>, loading: bool, balance: real, value: real, side: Side): (r: bool)
    ensures !r <==> quantity.Some? && !loading && (side == Sell || balance >= value)
  {
    quantity.None? || loading || (side == Buy && !CanAfford(balance, value, side))
  }

  /** Whenever the warning shows the button is disabled, and an enabled buy
      never takes more than the balance. */
  lemma WarningDisables(quantity: Option<real>, loading: bool, balance: real, prices: LivePrices.PriceTable,
                        symbol: string, side: Side)
    ensures var v := QuickOrderValue(quantity, QuickPrice(prices, symbol));
            && (ShowsWarning(balance, v, side) ==> ButtonDisabled(quantity, loading, balance, v, side))
            && (!ButtonDisabled(quantity, loading, balance, v, side) && side == Buy ==>
                  Settle(balance, Buy, v) >= 0.0)
  {
  }

  /** What a press hands to `onTrade`. */
  datatype TradeRequest = TradeRequest(symbol: string, quantity: Option<real>, side: Side, price: real,
                                       timestamp: int)

  class Panel {
    var quickSymbol: string
    var quickQuantity: Option<real>
    var side: Side
    var loading: bool
    /** Every call made to `onTrade`, oldest first. */
    var trades: seq<TradeRequest>

    constructor ()
      ensures quickSymbol == "AAPL" && quickQuantity == Some(1.0) && side == Buy && !loading && trades == []
    {
      quickSymbol, quickQuantity, side, loading, trades := "AAPL", Some(1.0), Buy, false, [];
    }

    /** `handleQuickTrade`: after the delay, one call to `onTrade` with the
        panel's symbol, quantity, side and price; the quantity resets to 1
        unless the callback throws; loading ends cleared either way. */
    method HandleQuickTrade(prices: LivePrices.PriceTable, now: int, callbackThrows: bool)
      modifies this`loading, this`trades, this`quickQuantity
      ensures trades == old(trades) + [TradeRequest(quickSymbol, old(quickQuantity), side,
                                                    QuickPrice(prices, quickSymbol), now)]
      ensures quickQuantity == if callbackThrows then old(quickQuantity) else Some(1.0)
      ensures !loading
    {
      loading := true;
      trades := trades + [TradeRequest(quickSymbol, quickQuantity, side, QuickPrice(prices, quickSymbol), now)];
      if !callbackThrows {
        quickQuantity := Some(1.0);
      }
      loading := false;
    }
  }
}
