/** The dashboard page: loading a symbol's history with its error cases, the
    quick buy and sell buttons that append a point to a 24-point window, and
    the trending rows built from the live prices. */
module Dashboard {
  import opened Wrappers
  import Seqs
  import Text
  import LivePrices

  /** `String(symbol || '').trim().toUpperCase()`. */
  function NormalizeSymbol(s: string): (r: string)
    ensures |r| <= |s|
    ensures forall i :: 0 <= i < |r| ==> !('a' <= r[i] <= 'z')
  {
    Text.Upper(Text.Trim(s))
  }

  /** The normalised symbol is the input with its blank ends cut away and
      upper-cased: it neither starts nor ends with a blank and holds no
      lower-case letter. */
  lemma NormalizeSymbolShape(s: string)
    ensures var r := NormalizeSymbol(s);
            && (r != [] ==> !Text.IsSpace(r[0]) && !Text.IsSpace(r[|r| - 1]))
            && (forall i :: 0 <= i < |r| ==> !('a' <= r[i] <= 'z'))
    ensures var r, k := NormalizeSymbol(s), Text.LeadingBlanks(s);
            && k + |r| <= |s| && r == Text.Upper(s[k..k + |r|])
            && (forall i :: 0 <= i < k ==> Text.IsSpace(s[i]))
            && (forall i :: k + |r| <= i < |s| ==> Text.IsSpace(s[i]))
  {
    var t := Text.Trim(s);
    var u := Text.Upper(t);
    assert NormalizeSymbol(s) == u;
    if u != [] {
      UpperKeepsBlanks(t[0]);
      UpperKeepsBlanks(t[|t| - 1]);
    }
  }

  /** Upper-casing never turns a blank into a letter or back. */
  lemma UpperKeepsBlanks(c: char)
    ensures Text.IsSpace(Text.UpperChar(c)) == Text.IsSpace(c)
  {
  }

  /** Normalising a normalised symbol changes nothing. */
  lemma NormalizeIdempotent(s: string)
    ensures NormalizeSymbol(NormalizeSymbol(s)) == NormalizeSymbol(s)
  {
    var t := Text.Trim(s);
    var u := Text.Upper(t);
    if u != [] {
      UpperKeepsBlanks(t[0]);
      UpperKeepsBlanks(t[|t| - 1]);
      assert Text.TrimStart(u) == u;
      assert Text.TrimEnd(u) == u;
    }
    assert Text.Trim(u) == u;
    Text.UpperIdempotent(t);
  }

  /** A point of the history chart. */
  datatype Point = Point(date: string, price: real)

  /** How many points the window keeps. */
  const Window: nat := 24

  /** `[...h, p].slice(-24)`. */
  function AppendPoint(h: seq<Point>, p: Point): (r: seq<Point>)
    ensures |r| == if |h| < Window then |h| + 1 else Window
  {
    Seqs.LastN(h + [p], Window)
  }

  /** The window holds at most 24 points, the last one is the new point, and
      the others are the tail of the previous history, in order. */
  lemma AppendPointWindow(h: seq<Point>, p: Point)
    ensures 1 <= |AppendPoint(h, p)| <= Window
    ensures AppendPoint(h, p)[|AppendPoint(h, p)| - 1] == p
    ensures AppendPoint(h, p)[..|AppendPoint(h, p)| - 1] == Seqs.LastN(h, |AppendPoint(h, p)| - 1)
  {
    var r := AppendPoint(h, p);
    var hp := h + [p];
    assert r[|r| - 1] == hp[|hp| - 1];
    var rest := Seqs.LastN(h, |r| - 1);
    forall i | 0 <= i < |r| - 1
      ensures r[i] == rest[i]
    {
      assert r[i] == hp[|hp| - |r| + i];
    }
  }

  /** A window that is not yet full loses nothing. */
  lemma AppendPointShort(h: seq<Point>, p: Point)
    requires |h| < Window
    ensures AppendPoint(h, p) == h + [p]
  {
  }

  /** What the history request produced. */
  datatype HistoryReply =
    | HistoryUnreachable(message: string)        // the request or the body threw
    | HistoryRefused(error: Option<string>)      // not ok; the body's `error`
    | HistoryBody(data: Option<seq<Point>>)      // ok; `data` when it is an array

  /** The fixed symbols of the trending section. */
  const TrendingSymbols: seq<string> := ["AAPL", "MSFT", "GOOG", "AMZN"]

  /** A trending row: the live price or nothing (a 0 price is nothing too);
      change, high and low default to 0. */
  datatype TrendingRow = TrendingRow(symbol: string, price: Option<real>, change: real, high: real, low: real)

  function TrendingEntry(prices: LivePrices.PriceTable, sym: string): (r: TrendingRow)
    ensures r.symbol == sym
    ensures r.price.Some? <==> sym in prices && prices[sym].price != 0.0
    ensures r.price.Some? ==> r.price.value == prices[sym].price
    ensures sym !in prices ==> r.change == 0.0 && r.high == 0.0 && r.low == 0.0
    ensures sym in prices ==>
              r.change == prices[sym].change && r.high == prices[sym].high && r.low == prices[sym].low
  {
    var q := LivePrices.GetPrice(prices, sym);
    TrendingRow(sym,
                if q.Some? && q.value.price != 0.0 then Some(q.value.price) else None,
                if q.Some? then OrElse(Some(q.value.change), 0.0) else 0.0,
                if q.Some? then OrElse(Some(q.value.high), 0.0) else 0.0,
                if q.Some? then OrElse(Some(q.value.low), 0.0) else 0.0)
  }

  /** One row per symbol, in order. */
  function TrendingRows(prices: LivePrices.PriceTable, symbols: seq<string>): (r: seq<TrendingRow>)
    ensures |r| == |symbols|
    ensures forall i :: 0 <= i < |symbols| ==> r[i] == TrendingEntry(prices, symbols[i])
  {
    if symbols == [] then [] else [TrendingEntry(prices, symbols[0])] + TrendingRows(prices, symbols[1..])
  }

  /** The page's state. */
  class DashboardPage {
    var symbol: string
    var loading: bool
    var error: string
    var history: seq<Point>
    var trending: seq<TrendingRow>
    var trendingLoading: bool

    constructor ()
      ensures symbol == "AAPL" && !loading && error == "" && history == []
      ensures trending == [] && !trendingLoading
    {
      symbol, loading, error, history := "AAPL", false, "", [];
      trending, trendingLoading := [], false;
    }

    /** `fetchHistory`. A blank symbol fails with `Enter a symbol` before any
        request (`requested` is then `None`); a failure sets the error and
        empties the history; a success installs the array, or nothing when
        `data` is not one. Loading always ends cleared. */
    method FetchHistory(reply: HistoryReply) returns (requested: Option<string>)
      modifies this`loading, this`error, this`history
      ensures !loading
      ensures NormalizeSymbol(old(symbol)) == "" ==>
                requested == None && error == "Enter a symbol" && history == []
      ensures NormalizeSymbol(old(symbol)) != "" ==>
                && requested == Some(NormalizeSymbol(old(symbol)))
                && match reply
                   case HistoryUnreachable(m) =>
                     error == (if m != "" then m else "Failed to load history") && history == []
                   case HistoryRefused(e) =>
                     error == (if e.Some? && e.value != "" then e.value else "Failed to load history")
                     && history == []
                   case HistoryBody(d) =>
                     error == "" && history == (if d.Some? then d.value else [])
    {
      error := "";
      loading := true;
      var sym := NormalizeSymbol(symbol);
      if sym == "" {
        requested := None;
        error := "Enter a symbol";
        history := [];
      } else {
        requested := Some(sym);
        match reply
        case HistoryUnreachable(m) =>
          error := if m != "" then m else "Failed to load history";
          history := [];
        case HistoryRefused(e) =>
          error := if e.Some? && e.value != "" then e.value else "Failed to load history";
          history := [];
        case HistoryBody(d) =>
          history := if d.Some? then d.value else [];
      }
      loading := false;
    }

    /** `handleQuickBuy` and `handleQuickSell`, which are the same: when the
        timer fires, `p` is appended to the 24-point window and loading ends. */
    method QuickTrade(p: Point)
      modifies this`history, this`loading
      ensures history == AppendPoint(old(history), p)
      ensures !loading
    {
      loading := true;
      var next := history + [p];
      history := Seqs.LastN(next, Window);
      loading := false;
    }

    /** The trending effect, on every change of the live prices. */
    method RefreshTrending(prices: LivePrices.PriceTable)
      modifies this`trending, this`trendingLoading
      ensures trending == TrendingRows(prices, TrendingSymbols)
      ensures !trendingLoading
    {
      trendingLoading := true;
      trending := TrendingRows(prices, TrendingSymbols);
      trendingLoading := false;
    }
  }

  /** The history after a run of quick trades, one point each. */
  function AppendPoints(h: seq<Point>, ps: seq<Point>): seq<Point>
    decreases |ps|
  {
    if ps == [] then h else AppendPoints(AppendPoint(h, ps[0]), ps[1..])
  }

  /** However many quick trades are made, the history never exceeds the
      window and ends with the latest point. */
  lemma {:induction false} AppendPointsWindow(h: seq<Point>, ps: seq<Point>)
    requires |h| <= Window
    ensures |AppendPoints(h, ps)| <= Window
    ensures ps != [] ==> var r := AppendPoints(h, ps); |r| >= 1 && r[|r| - 1] == ps[|ps| - 1]
    decreases |ps|
  {
    if ps != [] {
      AppendPointWindow(h, ps[0]);
      AppendPointsWindow(AppendPoint(h, ps[0]), ps[1..]);
    }
  }
}
