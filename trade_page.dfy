/** The trading terminal page (`TradePage`): symbol selection from the URL
    and from the search box, the order form with its validation cascade
    (quantity, then limit price, then balance), the quick-trade buttons, and
    the balance preview. The server round trip is an abstract reply. */
module TradePage {
  import opened Wrappers
  import opened Orders
  import Text
  import LivePrices

  /** `STOCK_SYMBOLS`. */
  const KnownSymbols: seq<string> := ["AAPL", "MSFT", "GOOG", "AMZN", "TSLA", "NVDA", "META", "NFLX"]

  /** The selection after reading `?symbol=`: the parameter only when it is
      non-empty and one of the known symbols, otherwise the old selection. */
  function SymbolFromUrl(current: string, param: Option<string>): (r: string)
    ensures param.Some? && param.value in KnownSymbols ==> r == param.value
    ensures r != current ==> param == Some(r) && r in KnownSymbols
  {
    if param.Some? && param.value != "" && param.value in KnownSymbols then param.value else current
  }

  /** The index of the first symbol that includes `query`, if any. */
  function FirstMatch(symbols: seq<string>, query: string): (r: Option<nat>)
    ensures r.Some? ==> r.value < |symbols| && Text.Contains(symbols[r.value], query)
    ensures r.Some? ==> forall j :: 0 <= j < r.value ==> !Text.Contains(symbols[j], query)
    ensures r.None? ==> forall j :: 0 <= j < |symbols| ==> !Text.Contains(symbols[j], query)
  {
    if symbols == [] then None
    else if Text.Contains(symbols[0], query) then Some(0)
    else match FirstMatch(symbols[1..], query)
      case None => None
      case Some(i) => Some(i + 1)
  }

  /** The selection after typing `typed` in the search box: the first known
      symbol that includes the upper-cased text; unchanged when none does. */
  function SearchSelect(current: string, typed: string): (r: string)
    ensures r == current || r in KnownSymbols
  {
    match FirstMatch(KnownSymbols, Text.Upper(typed))
    case Some(i) => KnownSymbols[i]
    case None => current
  }

  /** An empty search selects the first symbol, `AAPL`. */
  lemma EmptySearchSelectsFirst(current: string)
    ensures SearchSelect(current, "") == "AAPL"
  {
    Text.ContainsEmpty(KnownSymbols[0]);
    assert Text.Upper("") == "";
  }

  /** Two strings of the same length include each other only when equal. */
  lemma ContainsSameLength(hay: string, needle: string)
    requires |hay| == |needle| && Text.Contains(hay, needle)
    ensures hay == needle
  {
    var i :| Text.OccursAt(hay, needle, i);
    assert i == 0;
  }

  /** A string never includes a longer one. */
  lemma ContainsShorter(hay: string, needle: string)
    requires Text.Contains(hay, needle)
    ensures |needle| <= |hay|
  {
    var i :| Text.OccursAt(hay, needle, i);
  }

  /** Typing a known symbol, in any case, selects exactly that symbol: no
      known symbol includes another one. */
  lemma SearchKnownSelectsIt(current: string, typed: string, k: nat)
    requires k < |KnownSymbols| && Text.Upper(typed) == KnownSymbols[k]
    ensures SearchSelect(current, typed) == KnownSymbols[k]
  {
    var q := KnownSymbols[k];
    assert Text.StartsWith(q, q);
    var m := FirstMatch(KnownSymbols, q);
    assert m.Some? && m.value <= k;
    if m.value < k {
      ContainsSameLength(KnownSymbols[m.value], q);
    }
  }

  /** The unit price the order form uses: the limit price in limit mode,
      otherwise the live price. */
  function FinalPrice(mode: Mode, limit: Option<real>, currentPrice: real): (r: real)
    requires mode == Limit ==> limit.Some?
    ensures mode == Market ==> r == currentPrice
    ensures mode == Limit ==> r == limit.value
  {
    if mode == Limit then limit.value else currentPrice
  }

  /** The displayed `orderValue`: `(parseFloat(quantity) || 0) *` the limit
      price (`|| 0`) or the live price. */
  function OrderValue(quantity: Option<real>, mode: Mode, limit: Option<real>, currentPrice: real): (r: real)
    ensures quantity.None? || (mode == Limit && limit.None?) ==> r == 0.0
    ensures QuantityOk(quantity) && LimitOk(mode, limit) ==>
              r == quantity.value * FinalPrice(mode, limit, currentPrice)
  {
    OrElse(quantity, 0.0) * (if mode == Limit then OrElse(limit, 0.0) else currentPrice)
  }

  /** Why an order is refused before any request is made. */
  datatype Rejection =
    | BadQuantity                        // 'Please enter valid quantity' / 'Invalid quantity'
    | BadLimitPrice                      // 'Please enter valid limit price'
    | ShortOfFunds(need: real, have: real)  // 'Insufficient balance. Need $.., have $..'

  /** The outcome of the checks: the total to charge, or the refusal. */
  datatype Check = Pass(total: real) | Reject(why: Rejection)

  predicate QuantityOk(quantity: Option<real>) {
    quantity.Some? && quantity.value > 0.0
  }

  predicate LimitOk(mode: Mode, limit: Option<real>) {
    mode == Market || (limit.Some? && limit.value > 0.0)
  }

  /** The order form's checks, in the code's order: quantity first, then the
      limit price, then (for a buy) the balance. */
  function CheckOrder(quantity: Option<real>, mode: Mode, limit: Option<real>, side: Side,
                      currentPrice: real, balance: real): (r: Check)
    ensures !QuantityOk(quantity) ==> r == Reject(BadQuantity)
    ensures QuantityOk(quantity) && !LimitOk(mode, limit) ==> r == Reject(BadLimitPrice)
    ensures QuantityOk(quantity) && LimitOk(mode, limit) ==>
              var total := quantity.value * FinalPrice(mode, limit, currentPrice);
              if side == Buy && total > balance then r == Reject(ShortOfFunds(total, balance))
              else r == Pass(total)
    ensures r.Pass? && side == Buy ==> r.total <= balance
  {
    if !QuantityOk(quantity) then Reject(BadQuantity)
    else if !LimitOk(mode, limit) then Reject(BadLimitPrice)
    else
      var total := quantity.value * FinalPrice(mode, limit, currentPrice);
      if side == Buy && total > balance then Reject(ShortOfFunds(total, balance)) else Pass(total)
  }

  /** What an order that passes the checks charges is what the form showed
      as its order value. */
  lemma ChargedIsDisplayed(quantity: Option<real>, mode: Mode, limit: Option<real>, side: Side,
                           currentPrice: real, balance: real)
    requires CheckOrder(quantity, mode, limit, side, currentPrice, balance).Pass?
    ensures CheckOrder(quantity, mode, limit, side, currentPrice, balance).total
         == OrderValue(quantity, mode, limit, currentPrice)
  {
  }

  /** The server's answer to `POST /api/portfolio/trade`. */
  datatype Reply =
    | Accepted(tradeId: Option<string>)        // ok; `json.trade._id` when present
    | Refused(error: Option<string>, status: int)  // not ok; `err.error` when present
    | Unreachable(message: string)             // the request itself threw

  /** Why the request part fails, or `None` when it succeeds. */
  function RequestFailure(hasToken: bool, reply: Reply): (r: Option<string>)
    ensures !hasToken ==> r == Some("Login required to place orders")
    ensures r.None? <==> hasToken && reply.Accepted?
  {
    if !hasToken then Some("Login required to place orders")
    else match reply
      case Accepted(_) => None
      case Refused(error, status) =>
        Some(if error.Some? && error.value != "" then error.value
             else "Order failed (" + Text.IntToString(status) + ")")
      case Unreachable(message) => Some(message)
  }

  /** The message line under the form. */
  datatype Notice =
    | NoNotice
    | Rejected(why: Rejection)
    | Executed(side: Side, quantity: real, symbol: string, price: real)
    | Failed(text: string)   // 'Error placing order: ' + the reason

  /** An entry of the order list. */
  datatype Order = Order(id: OrderId, symbol: string, side: Side, quantity: real, price: real,
                         mode: Mode, timestamp: int, status: string)

  /** `trade?._id || Date.now()`. */
  function NewOrderId(reply: Reply, now: int): (r: OrderId)
    ensures r.Named? <==> reply.Accepted? && reply.tradeId.Some? && reply.tradeId.value != ""
    ensures r.Named? ==> r.name == reply.tradeId.value
    ensures r.Stamp? ==> r.ms == now
  {
    if reply.Accepted? && reply.tradeId.Some? && reply.tradeId.value != "" then Named(reply.tradeId.value)
    else Stamp(now)
  }

  /** The balance shown "after trade": less the order value for a buy, plus
      it for a sell; the balance an executed order of that value leaves. */
  function Preview(balance: real, side: Side, orderValue: real): (r: real)
    ensures r == Settle(balance, side, orderValue)
  {
    if side == Buy then balance - orderValue else balance + orderValue
  }

  /** The page's state. */
  class TradeTerminal {
    var selected: string
    var searchQuery: string
    var side: Side
    var mode: Mode
    var quantity: Option<real>
    var limitPrice: Option<real>
    var quickSymbol: string
    var quickQuantity: Option<real>
    var orders: seq<Order>
    var balance: real
    var loading: bool
    var notice: Notice

    constructor ()
      ensures selected == "AAPL" && searchQuery == "" && side == Buy && mode == Market
      ensures quantity == Some(1.0) && limitPrice == None
      ensures quickSymbol == "AAPL" && quickQuantity == Some(1.0)
      ensures orders == [] && balance == 50000.0 && !loading && notice == NoNotice
    {
      selected, searchQuery, side, mode := "AAPL", "", Buy, Market;
      quantity, limitPrice := Some(1.0), None;
      quickSymbol, quickQuantity := "AAPL", Some(1.0);
      orders, balance, loading, notice := [], 50000.0, false, NoNotice;
    }

    /** The effect on `location.search`. */
    method ReadUrl(param: Option<string>)
      modifies this`selected
      ensures selected == SymbolFromUrl(old(selected), param)
    {
      if param.Some? && param.value != "" && param.value in KnownSymbols {
        selected := param.value;
      }
    }

    /** The search box's `onChange`: stores the upper-cased text and moves
        the selection to the first matching symbol, if any. */
    method Search(typed: string)
      modifies this`selected, this`searchQuery
      ensures searchQuery == Text.Upper(typed)
      ensures selected == SearchSelect(old(selected), typed)
    {
      searchQuery := Text.Upper(typed);
      var found := FirstMatch(KnownSymbols, Text.Upper(typed));
      if found.Some? {
        selected := KnownSymbols[found.value];
      }
    }

    /** `handlePlaceOrder`. A refusal by the checks changes only the message;
        a failed request also clears `loading`; a success charges or credits
        the total, puts the new order first and resets the inputs. */
    method PlaceOrder(prices: LivePrices.PriceTable, hasToken: bool, reply: Reply, now: int)
      modifies this
      ensures selected == old(selected) && side == old(side) && mode == old(mode)
      ensures quickSymbol == old(quickSymbol) && quickQuantity == old(quickQuantity)
      ensures searchQuery == old(searchQuery)
      ensures var price := LivePrices.PriceOr(prices, old(selected), 0.0);
              var check := CheckOrder(old(quantity), old(mode), old(limitPrice), old(side), price, old(balance));
              match check
              case Reject(why) =>
                && notice == Rejected(why) && loading == old(loading)
                && balance == old(balance) && orders == old(orders)
                && quantity == old(quantity) && limitPrice == old(limitPrice)
              case Pass(total) =>
                var failure := RequestFailure(hasToken, reply);
                && !loading
                && if failure.Some? then
                     && notice == Failed("Error placing order: " + failure.value)
                     && balance == old(balance) && orders == old(orders)
                     && quantity == old(quantity) && limitPrice == old(limitPrice)
                   else
                     var unit := FinalPrice(old(mode), old(limitPrice), price);
                     && balance == Settle(old(balance), old(side), total)
                     && orders == [Order(NewOrderId(reply, now), old(selected), old(side), old(quantity).value,
                                         unit, old(mode), now, "executed")] + old(orders)
                     && notice == Executed(old(side), old(quantity).value, old(selected), unit)
                     && quantity == Some(1.0) && limitPrice == None
    {
      notice := NoNotice;
      var price := LivePrices.PriceOr(prices, selected, 0.0);
      var check := CheckOrder(quantity, mode, limitPrice, side, price, balance);
      if check.Reject? {
        notice := Rejected(check.why);
        return;
      }
      loading := true;
      var failure := RequestFailure(hasToken, reply);
      if failure.Some? {
        notice := Failed("Error placing order: " + failure.value);
      } else {
        var unit := FinalPrice(mode, limitPrice, price);
        var order := Order(NewOrderId(reply, now), selected, side, quantity.value, unit, mode, now, "executed");
        balance := Settle(balance, side, check.total);
        orders := [order] + orders;
        notice := Executed(side, quantity.value, selected, unit);
        quantity, limitPrice := Some(1.0), None;
      }
      loading := false;
    }

    /** `handleQuickTrade`: the quantity check, then the balance check, always
        at the live price of the quick symbol (0 without a quote); on success
        the same charge or credit, the order first, the quick quantity back
        to 1. The order form's inputs are not touched. */
    method QuickTrade(tradeSide: Side, prices: LivePrices.PriceTable, hasToken: bool, reply: Reply, now: int)
      modifies this
      ensures selected == old(selected) && side == old(side) && mode == old(mode)
      ensures quantity == old(quantity) && limitPrice == old(limitPrice)
      ensures quickSymbol == old(quickSymbol) && loading == old(loading) && searchQuery == old(searchQuery)
      ensures var price := LivePrices.PriceOr(prices, old(quickSymbol), 0.0);
              var check := CheckOrder(old(quickQuantity), Market, None, tradeSide, price, old(balance));
              match check
              case Reject(why) =>
                && notice == Rejected(why)
                && balance == old(balance) && orders == old(orders) && quickQuantity == old(quickQuantity)
              case Pass(total) =>
                var failure := RequestFailure(hasToken, reply);
                if failure.Some? then
                  && notice == Failed("Error placing order: " + failure.value)
                  && balance == old(balance) && orders == old(orders) && quickQuantity == old(quickQuantity)
                else
                  && balance == Settle(old(balance), tradeSide, total)
                  && orders == [Order(Stamp(now), old(quickSymbol), tradeSide, old(quickQuantity).value,
                                      price, Market, now, "executed")] + old(orders)
                  && notice == Executed(tradeSide, old(quickQuantity).value, old(quickSymbol), price)
                  && quickQuantity == Some(1.0)
    {
      var price := LivePrices.PriceOr(prices, quickSymbol, 0.0);
      var check := CheckOrder(quickQuantity, Market, None, tradeSide, price, balance);
      if check.Reject? {
        notice := Rejected(check.why);
        return;
      }
      var failure := RequestFailure(hasToken, reply);
      if failure.Some? {
        notice := Failed("Error placing order: " + failure.value);
        return;
      }
      var order := Order(Stamp(now), quickSymbol, tradeSide, quickQuantity.value, price, Market, now, "executed");
      balance := Settle(balance, tradeSide, check.total);
      orders := [order] + orders;
      notice := Executed(tradeSide, quickQuantity.value, quickSymbol, price);
      quickQuantity := Some(1.0);
    }
  }

  /** An accepted buy never overdraws a non-negative balance, and a refused
      one leaves it alone. */
  method NoOverdraftScenario(prices: LivePrices.PriceTable, hasToken: bool, reply: Reply, now: int)
  {
    var t := new TradeTerminal();
    t.quantity := Some(3.0);
    t.PlaceOrder(prices, hasToken, reply, now);
    assert t.balance >= 0.0;
    assert |t.orders| <= 1;
  }
}
