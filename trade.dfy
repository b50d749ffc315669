/** The simpler trading page (`Trade`): display fallbacks for the live
    price, an order form without validation whose orders are appended, quick
    trades with defaults, the merge of server trades with local ones, and the
    holdings table with its unrealised profit and loss. */
module Trade {
  import opened Wrappers
  import opened Orders
  import Seqs
  import Text
  import LivePrices

  /** The displayed price: the live price, or 150.5 when there is none or it
      is 0. */
  function DisplayPrice(prices: LivePrices.PriceTable, symbol: string): (r: real)
    ensures symbol in prices && prices[symbol].price != 0.0 ==> r == prices[symbol].price
    ensures !(symbol in prices && prices[symbol].price != 0.0) ==> r == 150.5
  {
    LivePrices.PriceOr(prices, symbol, 150.5)
  }

  /** The displayed change: the live change, or 2.5 when there is none or it
      is 0. */
  function DisplayChange(prices: LivePrices.PriceTable, symbol: string): (r: real)
    ensures symbol in prices && prices[symbol].change != 0.0 ==> r == prices[symbol].change
    ensures !(symbol in prices && prices[symbol].change != 0.0) ==> r == 2.5
  {
    LivePrices.ChangeOr(prices, symbol, 2.5)
  }

  /** `orderValue`: the parsed quantity (0 when blank or 0) times the
      displayed price, whatever the pricing mode. */
  function OrderValue(prices: LivePrices.PriceTable, symbol: string, quantity: Option<real>): (r: real)
    ensures quantity.None? ==> r == 0.0
    ensures quantity.Some? ==> r == quantity.value * DisplayPrice(prices, symbol)
  {
    OrElse(quantity, 0.0) * DisplayPrice(prices, symbol)
  }

  /** An entry of the order list. Quantities and prices are whatever
      `parseFloat` made of the inputs; server and demo trades carry no mode. */
  datatype Record = Record(id: OrderId, symbol: string, side: Side, quantity: Option<real>,
                           price: Option<real>, mode: Option<Mode>, timestamp: int)

  /** `DUMMY_RECENT_TRADES`, stamped 45, 30 and 20 minutes before `now`. */
  function DemoTrades(now: int): seq<Record>
  {
    [ Record(Named("d1"), "AAPL", Buy, Some(10.0), Some(149.5), None, now - 2700000),
      Record(Named("d2"), "AAPL", Sell, Some(2.0), Some(151.2), None, now - 1800000),
      Record(Named("d3"), "TSLA", Buy, Some(1.0), Some(620.0), None, now - 1200000) ]
  }

  /** The demo trades are local orders placed before `now`: a merge with
      server trades keeps all three, in order. */
  lemma DemoTradesSurvive(mapped: seq<Record>, now: int)
    ensures forall i :: 0 <= i < |DemoTrades(now)| ==>
              Unsynced(DemoTrades(now)[i]) && DemoTrades(now)[i].timestamp < now
    ensures MergeTrades(mapped, DemoTrades(now)) == mapped + DemoTrades(now)
  {
    var d := DemoTrades(now);
    assert forall i :: 0 <= i < |d| ==> d[i].id.Named? && d[i].id.name[0] == 'd';
    Seqs.FilterAllKept(d, Unsynced);
  }

  /** A trade as `GET /api/portfolio/trades` lists it. */
  datatype ServerTrade = ServerTrade(id: Option<string>, symbol: string, kind: string,
                                     quantity: real, price: real, timestamp: int)

  /** The mapping of one server trade: its `_id` (a stamp when missing),
      `BUY` as a buy and any other type as a sell. */
  function FromServer(t: ServerTrade, now: int): (r: Record)
    ensures r.side == Buy <==> t.kind == "BUY"
    ensures r.id == (if t.id.Some? && t.id.value != "" then Named(t.id.value) else Stamp(now))
    ensures r.symbol == t.symbol && r.quantity == Some(t.quantity) && r.price == Some(t.price)
    ensures r.timestamp == t.timestamp && r.mode == None
  {
    Record(if t.id.Some? && t.id.value != "" then Named(t.id.value) else Stamp(now),
           t.symbol, if t.kind == "BUY" then Buy else Sell,
           Some(t.quantity), Some(t.price), None, t.timestamp)
  }

  /** Every server trade, mapped, in server order. */
  function FromServerAll(ts: seq<ServerTrade>, now: int): (r: seq<Record>)
    ensures |r| == |ts|
    ensures forall i :: 0 <= i < |ts| ==> r[i] == FromServer(ts[i], now)
  {
    if ts == [] then [] else [FromServer(ts[0], now)] + FromServerAll(ts[1..], now)
  }

  /** `String(id)`: the name itself, or the decimal digits of a stamp. */
  function IdText(id: OrderId): (r: string)
    ensures id.Named? ==> r == id.name
    ensures id.Stamp? ==> r != [] && ('0' <= r[0] <= '9' || r[0] == '-')
  {
    match id
    case Named(name) => name
    case Stamp(ms) => Text.IntToString(ms)
  }

  /** A local order the merge keeps: its id does not start with `server:`. */
  predicate Unsynced(o: Record)
    ensures Unsynced(o) <==> !(o.id.Named? && Text.StartsWith(o.id.name, "server:"))
  {
    !Text.StartsWith(IdText(o.id), "server:")
  }

  /** The order list after loading server trades: the mapped server trades
      first, then the prior orders that are not server-tagged. */
  function MergeTrades(mapped: seq<Record>, prior: seq<Record>): (r: seq<Record>)
    ensures |mapped| <= |r| <= |mapped| + |prior|
    ensures r[..|mapped|] == mapped
  {
    mapped + Seqs.Filter(prior, Unsynced)
  }

  /** The merge keeps the local part in its order and drops exactly the
      server-tagged orders: each record occurs after the server part as
      often as it occurred before, or not at all when tagged. */
  lemma MergeKeepsUnsynced(mapped: seq<Record>, prior: seq<Record>, o: Record)
    ensures multiset(MergeTrades(mapped, prior)[|mapped|..])[o]
         == if Unsynced(o) then multiset(prior)[o] else 0
    ensures o in MergeTrades(mapped, prior)[|mapped|..] <==> o in prior && Unsynced(o)
  {
    var r := MergeTrades(mapped, prior);
    assert r[|mapped|..] == Seqs.Filter(prior, Unsynced);
    Seqs.FilterCount(prior, Unsynced, o);
    Seqs.FilterMember(prior, Unsynced, o);
  }

  /** A stamp id is never taken for a server id: its text starts with a
      digit or a minus sign. */
  lemma StampAlwaysUnsynced(o: Record)
    requires o.id.Stamp?
    ensures Unsynced(o)
  {
    var s := IdText(o.id);
    if o.id.ms >= 0 {
      assert '0' <= s[0] <= '9';
    } else {
      assert s[0] == '-';
    }
  }

  /** The merge does not de-duplicate: server records without the `server:`
      prefix are kept again by a second load, so they appear twice. */
  lemma MergeTwice(mapped: seq<Record>, prior: seq<Record>)
    requires forall i :: 0 <= i < |mapped| ==> Unsynced(mapped[i])
    ensures MergeTrades(mapped, MergeTrades(mapped, prior))
         == mapped + mapped + Seqs.Filter(prior, Unsynced)
  {
    var kept := Seqs.Filter(prior, Unsynced);
    Seqs.FilterAppend(mapped, kept, Unsynced);
    Seqs.FilterAllKept(mapped, Unsynced);
    Seqs.FilterAllKept(kept, Unsynced);
    assert MergeTrades(mapped, prior) == mapped + kept;
    assert Seqs.Filter(mapped + kept, Unsynced) == mapped + kept;
  }

  /** A row of the holdings table. */
  datatype Holding = Holding(symbol: string, quantity: real, averageCost: real)

  /** The fixed demo holdings. */
  const DemoHoldings: seq<Holding> :=
    [Holding("AAPL", 20.0, 150.0), Holding("TSLA", 5.0, 620.0), Holding("NVDA", 8.0, 420.0)]

  /** The mark: the live price, else the average cost, else 0. */
  function Mark(prices: LivePrices.PriceTable, h: Holding): (r: real)
    ensures h.symbol in prices && prices[h.symbol].price != 0.0 ==> r == prices[h.symbol].price
    ensures !(h.symbol in prices && prices[h.symbol].price != 0.0) ==> r == h.averageCost
  {
    LivePrices.PriceOr(prices, h.symbol, OrElse(Some(h.averageCost), 0.0))
  }

  /** Unrealised profit and loss of a holding. */
  function ProfitLoss(prices: LivePrices.PriceTable, h: Holding): (r: real)
    ensures r == 0.0 <==> h.quantity == 0.0 || Mark(prices, h) == h.averageCost
  {
    (Mark(prices, h) - h.averageCost) * h.quantity
  }

  /** Until a live price arrives the demo holdings show neither gain nor
      loss. */
  lemma DemoHoldingsFlat(prices: LivePrices.PriceTable)
    requires forall i :: 0 <= i < |DemoHoldings| ==> DemoHoldings[i].symbol !in prices
    ensures forall i :: 0 <= i < |DemoHoldings| ==> ProfitLoss(prices, DemoHoldings[i]) == 0.0
  {
  }

  /** Without a live price the mark is the average cost, so the row shows no
      gain and no loss. */
  lemma NoQuoteNoProfitLoss(prices: LivePrices.PriceTable, h: Holding)
    requires !(h.symbol in prices && prices[h.symbol].price != 0.0)
    ensures ProfitLoss(prices, h) == 0.0
  {
  }

  /** A long position gains exactly when the live mark is above its cost. */
  lemma ProfitLossSign(prices: LivePrices.PriceTable, h: Holding)
    requires h.quantity > 0.0
    ensures ProfitLoss(prices, h) > 0.0 <==> Mark(prices, h) > h.averageCost
    ensures ProfitLoss(prices, h) == 0.0 <==> Mark(prices, h) == h.averageCost
  {
    var d := Mark(prices, h) - h.averageCost;
    if d > 0.0 {
      assert d * h.quantity > 0.0;
    } else if d < 0.0 {
      assert (-d) * h.quantity > 0.0;
    }
  }

  /** What `GET /api/portfolio` produced: an error (including a refused
      status), or a body whose `holdings` is an array or not. */
  datatype HoldingsReply = HoldingsFailed | HoldingsBody(holdings: Option<seq<Holding>>)

  /** What `GET /api/portfolio/trades` produced: an error, a refused status,
      or a body whose `trades` is an array or not. */
  datatype TradesReply = TradesFailed | TradesRefused | TradesBody(trades: Option<seq<ServerTrade>>)

  /** The message after an order. */
  datatype Notice = NoNotice | Placed(side: Side)

  /** The page's state. */
  class TradeDesk {
    var selected: string
    var side: Side
    var mode: Mode
    var quantity: Option<real>
    var limitPrice: Option<real>
    var quickSymbol: string
    var quickQuantity: Option<real>
    var balance: real
    var orders: seq<Record>
    var holdings: seq<Holding>
    var loading: bool
    var notice: Notice

    constructor (now: int)
      ensures selected == "AAPL" && side == Buy && mode == Market
      ensures quantity == Some(1.0) && limitPrice == None
      ensures quickSymbol == "AAPL" && quickQuantity == Some(1.0)
      ensures balance == 10000.0 && orders == DemoTrades(now) && holdings == []
      ensures !loading && notice == NoNotice
    {
      selected, side, mode := "AAPL", Buy, Market;
      quantity, limitPrice := Some(1.0), None;
      quickSymbol, quickQuantity := "AAPL", Some(1.0);
      balance, orders, holdings := 10000.0, DemoTrades(now), [];
      loading, notice := false, NoNotice;
    }

    /** `handlePlaceOrder`: no checks at all. The order records the limit
        price in limit mode, yet the balance moves by quantity times the
        displayed market price; the order goes last and the inputs reset. */
    method PlaceOrder(prices: LivePrices.PriceTable, now: int)
      modifies this
      ensures balance == Settle(old(balance), old(side), OrderValue(prices, old(selected), old(quantity)))
      ensures orders == old(orders) + [Record(Stamp(now), old(selected), old(side), old(quantity),
                                              if old(mode) == Limit then old(limitPrice)
                                              else Some(DisplayPrice(prices, old(selected))),
                                              Some(old(mode)), now)]
      ensures notice == Placed(old(side)) && !loading
      ensures quantity == Some(1.0) && limitPrice == None
      ensures selected == old(selected) && side == old(side) && mode == old(mode)
      ensures quickSymbol == old(quickSymbol) && quickQuantity == old(quickQuantity)
      ensures holdings == old(holdings)
    {
      loading := true;
      var price := DisplayPrice(prices, selected);
      var record := Record(Stamp(now), selected, side, quantity,
                           if mode == Limit then limitPrice else Some(price), Some(mode), now);
      balance := Settle(balance, side, OrderValue(prices, selected, quantity));
      orders := orders + [record];
      notice := Placed(side);
      quantity, limitPrice := Some(1.0), None;
      loading := false;
    }

    /** `handleQuickTrade`: quantity 1 and price 100 stand in for a blank or
        zero quantity and a missing or zero live price; the balance moves by
        their product, the order goes last, the quick quantity resets. */
    method QuickTrade(tradeSide: Side, prices: LivePrices.PriceTable, now: int)
      modifies this
      ensures var q := OrElse(old(quickQuantity), 1.0);
              var p := LivePrices.PriceOr(prices, old(quickSymbol), 100.0);
              && balance == Settle(old(balance), tradeSide, q * p)
              && orders == old(orders) + [Record(Stamp(now), old(quickSymbol), tradeSide, Some(q), Some(p),
                                                 Some(Market), now)]
      ensures quickQuantity == Some(1.0)
      ensures selected == old(selected) && side == old(side) && mode == old(mode)
      ensures quantity == old(quantity) && limitPrice == old(limitPrice)
      ensures quickSymbol == old(quickSymbol) && holdings == old(holdings)
      ensures loading == old(loading) && notice == old(notice)
    {
      var q := OrElse(quickQuantity, 1.0);
      var p := LivePrices.PriceOr(prices, quickSymbol, 100.0);
      balance := Settle(balance, tradeSide, q * p);
      orders := orders + [Record(Stamp(now), quickSymbol, tradeSide, Some(q), Some(p), Some(Market), now)];
      quickQuantity := Some(1.0);
    }

    /** `loadHoldings`: the demo list without an API base; the server's
        array when it sends one; after a failure the demo list only when no
        holdings are shown yet. */
    method LoadHoldings(apiBase: string, reply: HoldingsReply)
      modifies this`holdings
      ensures apiBase == "" ==> holdings == DemoHoldings
      ensures apiBase != "" ==>
                match reply
                case HoldingsFailed => holdings == (if old(holdings) == [] then DemoHoldings else old(holdings))
                case HoldingsBody(h) => holdings == (if h.Some? then h.value else old(holdings))
    {
      if apiBase == "" {
        holdings := DemoHoldings;
        return;
      }
      match reply
      case HoldingsFailed =>
        if holdings == [] {
          holdings := DemoHoldings;
        }
      case HoldingsBody(h) =>
        if h.Some? {
          holdings := h.value;
        }
    }

    /** `loadTrades`: nothing happens without an API base, on a failure or
        refusal, or when `trades` is not an array; otherwise the orders
        become the merge of the mapped server trades with the local ones. */
    method LoadTrades(apiBase: string, reply: TradesReply, now: int)
      modifies this`orders
      ensures apiBase != "" && reply.TradesBody? && reply.trades.Some? ==>
                orders == MergeTrades(FromServerAll(reply.trades.value, now), old(orders))
      ensures !(apiBase != "" && reply.TradesBody? && reply.trades.Some?) ==> orders == old(orders)
    {
      if apiBase == "" {
        return;
      }
      if reply.TradesBody? && reply.trades.Some? {
        orders := MergeTrades(FromServerAll(reply.trades.value, now), orders);
      }
    }
  }

  /** A loaded server list comes first, and every order stamped locally
      survives the merge as often as it was listed. */
  lemma LocalOrdersSurvive(ts: seq<ServerTrade>, prior: seq<Record>, o: Record, now: int)
    requires o.id.Stamp?
    ensures var r := MergeTrades(FromServerAll(ts, now), prior);
            && r[..|ts|] == FromServerAll(ts, now)
            && multiset(r[|ts|..])[o] == multiset(prior)[o]
  {
    StampAlwaysUnsynced(o);
    MergeKeepsUnsynced(FromServerAll(ts, now), prior, o);
  }
}
