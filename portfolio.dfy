/** The portfolio page: the summary with its field defaults, the holdings
    and their total, the five most recent orders, the distribution of the
    first four holdings, and the demo data installed after a failure. */
module Portfolio {
  import opened Wrappers
  import Seqs

  /** The four summary figures. */
  datatype Summary = Summary(balance: real, totalValue: real, gainLoss: real, gainLossPercent: real)

  /** The figures as the server sent them; any may be missing. */
  datatype RawSummary = RawSummary(balance: Option<real>, totalValue: Option<real>,
                                   gainLoss: Option<real>, gainLossPercent: Option<real>)

  /** `data.x || 0` for each figure. */
  function SummaryOf(raw: RawSummary): (r: Summary)
    ensures raw.balance.None? ==> r.balance == 0.0
    ensures raw.totalValue.None? ==> r.totalValue == 0.0
    ensures raw.gainLoss.None? ==> r.gainLoss == 0.0
    ensures raw.gainLossPercent.None? ==> r.gainLossPercent == 0.0
    ensures raw.balance.Some? ==> r.balance == raw.balance.value
    ensures raw.totalValue.Some? ==> r.totalValue == raw.totalValue.value
    ensures raw.gainLoss.Some? ==> r.gainLoss == raw.gainLoss.value
    ensures raw.gainLossPercent.Some? ==> r.gainLossPercent == raw.gainLossPercent.value
  {
    Summary(OrElse(raw.balance, 0.0), OrElse(raw.totalValue, 0.0),
            OrElse(raw.gainLoss, 0.0), OrElse(raw.gainLossPercent, 0.0))
  }

  datatype Holding = Holding(symbol: string, shares: real, price: real, value: real, change: real)

  datatype Order = Order(id: int, symbol: string, kind: string, shares: real, price: real,
                         date: string, status: string)

  const DemoSummary: Summary := Summary(50000.0, 62500.0, 12500.0, 25.0)

  const DemoHoldings: seq<Holding> :=
    [ Holding("AAPL", 50.0, 150.0, 7500.0, 5.2), Holding("MSFT", 30.0, 420.0, 12600.0, -2.1),
      Holding("GOOG", 20.0, 140.0, 2800.0, 8.5), Holding("AMZN", 15.0, 180.0, 2700.0, 3.2) ]

  const DemoOrders: seq<Order> :=
    [ Order(1, "AAPL", "BUY", 10.0, 150.0, "2025-12-01", "Completed"),
      Order(2, "MSFT", "SELL", 5.0, 420.0, "2025-11-30", "Completed"),
      Order(3, "GOOG", "BUY", 20.0, 140.0, "2025-11-29", "Completed"),
      Order(4, "AMZN", "BUY", 15.0, 180.0, "2025-11-28", "Completed"),
      Order(5, "TSLA", "SELL", 8.0, 280.0, "2025-11-27", "Completed") ]

  /** `holding.value`, as the summing callback sees it. */
  function ValueOf(h: Holding): real { h.value }

  /** `holdingsTotalValue`: the sum of the holdings' values. */
  function HoldingsTotal(hs: seq<Holding>): (r: real)
    ensures hs == [] ==> r == 0.0
    ensures (forall i :: 0 <= i < |hs| ==> hs[i].value >= 0.0) ==> r >= 0.0
  {
    SumOfValuesNonNegative(hs);
    Seqs.SumOf(hs, ValueOf)
  }

  /** Non-negative values sum to a non-negative total. */
  lemma SumOfValuesNonNegative(hs: seq<Holding>)
    ensures (forall i :: 0 <= i < |hs| ==> hs[i].value >= 0.0) ==> Seqs.SumOf(hs, ValueOf) >= 0.0
  {
    if forall i :: 0 <= i < |hs| ==> hs[i].value >= 0.0 {
      Seqs.SumOfNonNegative(hs, ValueOf);
    }
  }

  /** The total adds up holding by holding: an extra holding adds its value. */
  lemma HoldingsTotalAppend(hs: seq<Holding>, h: Holding)
    ensures HoldingsTotal(hs + [h]) == HoldingsTotal(hs) + h.value
  {
    assert (hs + [h])[..|hs + [h]| - 1] == hs;
  }

  /** The demo holdings are worth 25600 in total. */
  lemma DemoHoldingsTotal()
    ensures HoldingsTotal(DemoHoldings) == 25600.0
  {
    var h := DemoHoldings;
    HoldingsTotalAppend(h[..3], h[3]);
    HoldingsTotalAppend(h[..2], h[2]);
    HoldingsTotalAppend(h[..1], h[1]);
    HoldingsTotalAppend(h[..0], h[0]);
    assert h[..1] == h[..0] + [h[0]];
    assert h[..2] == h[..1] + [h[1]];
    assert h[..3] == h[..2] + [h[2]];
    assert h == h[..3] + [h[3]];
  }

  /** The five most recent orders, in server order. */
  function RecentOrders(os: seq<Order>): (r: seq<Order>)
    ensures |r| <= 5 && |r| == if |os| < 5 then |os| else 5
    ensures r == os[..|r|]
  {
    Seqs.Take(os, 5)
  }

  /** A bar of the distribution chart: the share of the holding in percent,
      or nothing when the total is 0 (the division gives no number). */
  datatype Bar = Bar(symbol: string, percentage: Option<real>)

  function BarOf(h: Holding, total: real): (r: Bar)
    ensures r.symbol == h.symbol
    ensures r.percentage.Some? <==> total != 0.0
    ensures r.percentage.Some? ==> r.percentage.value * total == h.value * 100.0
  {
    Bar(h.symbol, if total == 0.0 then None else Some(h.value / total * 100.0))
  }

  function BarsOf(hs: seq<Holding>, total: real): (r: seq<Bar>)
    ensures |r| == |hs|
    ensures forall i :: 0 <= i < |hs| ==> r[i] == BarOf(hs[i], total)
  {
    if hs == [] then [] else [BarOf(hs[0], total)] + BarsOf(hs[1..], total)
  }

  /** The distribution: a bar for each of the first four holdings, each a
      share of the total over all holdings. */
  function Distribution(hs: seq<Holding>): (r: seq<Bar>)
    ensures |r| <= 4 && |r| <= |hs|
    ensures forall i :: 0 <= i < |r| ==> r[i] == BarOf(hs[i], HoldingsTotal(hs))
  {
    BarsOf(Seqs.Take(hs, 4), HoldingsTotal(hs))
  }

  /** With non-negative values and a positive total every bar lies between
      0 and 100 percent. */
  lemma DistributionBounded(hs: seq<Holding>, i: nat)
    requires forall j :: 0 <= j < |hs| ==> hs[j].value >= 0.0
    requires HoldingsTotal(hs) > 0.0
    requires i < |Distribution(hs)|
    ensures Distribution(hs)[i].percentage.Some?
    ensures 0.0 <= Distribution(hs)[i].percentage.value <= 100.0
  {
    var total := HoldingsTotal(hs);
    Seqs.SumOfBounds(hs, ValueOf, i);
    assert 0.0 <= hs[i].value <= total;
    ShareBound(hs[i].value, total);
  }

  /** A part of a positive whole is between 0 and 100 percent of it. */
  lemma ShareBound(part: real, whole: real)
    requires 0.0 <= part <= whole && whole > 0.0
    ensures 0.0 <= part / whole * 100.0 <= 100.0
  {
    assert part / whole <= 1.0;
  }

  /** `portfolio?.gainLoss >= 0`: false while there is no summary. */
  function IsGainPositive(portfolio: Option<Summary>): (r: bool)
    ensures r <==> portfolio.Some? && portfolio.value.gainLoss >= 0.0
  {
    match portfolio
    case None => false
    case Some(s) => s.gainLoss >= 0.0
  }

  /** A summary whose gain/loss the server left out counts as 0, so the
      page shows it as a gain. */
  lemma MissingGainShowsGain(raw: RawSummary)
    requires raw.gainLoss.None?
    ensures IsGainPositive(Some(SummaryOf(raw)))
  {
  }

  /** The demo portfolio is consistent: its gain is the value above the
      balance and is 25 percent of it, every demo holding is worth its
      shares at its price, and all five demo orders are recent orders. */
  lemma DemoPortfolioConsistent()
    ensures DemoSummary.gainLoss == DemoSummary.totalValue - DemoSummary.balance
    ensures DemoSummary.gainLossPercent * DemoSummary.balance == DemoSummary.gainLoss * 100.0
    ensures forall i :: 0 <= i < |DemoHoldings| ==>
              DemoHoldings[i].value == DemoHoldings[i].shares * DemoHoldings[i].price
    ensures RecentOrders(DemoOrders) == DemoOrders
  {
  }

  /** What `GET /api/portfolio` produced. */
  datatype Reply =
    | Unreachable(message: string)
    | Refused(error: Option<string>)
    | Loaded(summary: RawSummary, holdings: Option<seq<Holding>>, recentOrders: Option<seq<Order>>)

  class PortfolioPage {
    var portfolio: Option<Summary>
    var holdings: seq<Holding>
    var recentOrders: seq<Order>
    var loading: bool
    var error: string

    constructor ()
      ensures portfolio == None && holdings == [] && recentOrders == [] && loading && error == ""
    {
      portfolio, holdings, recentOrders, loading, error := None, [], [], true, "";
    }

    /** `fetchPortfolio`: a success installs the defaulted summary, the
        holdings array (or none) and the first five orders (or none); any
        failure, including a missing token, records its message and
        installs the demo portfolio. */
    method Fetch(hasToken: bool, reply: Reply)
      modifies this
      ensures !loading
      ensures !hasToken || !reply.Loaded? ==>
                && portfolio == Some(DemoSummary) && holdings == DemoHoldings && recentOrders == DemoOrders
                && error == if !hasToken then "Not authenticated"
                            else match reply
                                 case Unreachable(m) => if m != "" then m else "Failed to load portfolio"
                                 case Refused(e) => if e.Some? && e.value != "" then e.value
                                                    else "Failed to load portfolio"
                                 case Loaded(_, _, _) => ""
      ensures hasToken && reply.Loaded? ==>
                && portfolio == Some(SummaryOf(reply.summary))
                && holdings == (if reply.holdings.Some? then reply.holdings.value else [])
                && recentOrders == (if reply.recentOrders.Some? then RecentOrders(reply.recentOrders.value) else [])
                && error == ""
    {
      loading := true;
      error := "";
      var failure: Option<string> := None;
      if !hasToken {
        failure := Some("Not authenticated");
      } else {
        match reply
        case Unreachable(m) =>
          failure := Some(if m != "" then m else "Failed to load portfolio");
        case Refused(e) =>
          failure := Some(if e.Some? && e.value != "" then e.value else "Failed to load portfolio");
        case Loaded(raw, hs, os) =>
          portfolio := Some(SummaryOf(raw));
          holdings := if hs.Some? then hs.value else [];
          recentOrders := if os.Some? then Seqs.Take(os.value, 5) else [];
      }
      if failure.Some? {
        error := failure.value;
        portfolio := Some(DemoSummary);
        holdings := DemoHoldings;
        recentOrders := DemoOrders;
      }
      loading := false;
    }
  }

  /** After a failed load the page shows a gain, and each of the four demo
      bars lies within 0 to 100 percent. */
  method DemoScenario()
  {
    var page := new PortfolioPage();
    page.Fetch(false, Unreachable(""));
    assert IsGainPositive(page.portfolio);
    DemoHoldingsTotal();
    assert page.holdings == DemoHoldings;
    var bars := Distribution(page.holdings);
    assert |bars| == 4;
    DistributionBounded(page.holdings, 0);
    assert bars[0].percentage.value <= 100.0;
  }
}
