# A verified model of the trading dashboard's client rules

This project models the logic inside a React stock-trading dashboard:

- **Live-price hook (`useLiveprices`).** This is the central part of the model:
  - a pending buffer of streamed quotes, where the last write wins per symbol;
  - a single batch timer that publishes the buffer over the price table;
  - a bulk snapshot that only fills in symbols the table lacks;
  - one shared socket, with the `subscribe` messages it emits.
- **Order entry:**
  - the trading terminal's validation cascade, its debit or credit, and the new order put first in the list;
  - the simpler trading page, which has no validation, appends orders, merges server trades and shows unrealised P/L;
  - the quick-trade panel's affordability rules and the balance card's rules.
- **Sequence and window rules:**
  - the dashboard's 24-point history window;
  - the chart's initial series, rolling window, coordinates and nearest-point search;
  - watchlist removal;
  - portfolio aggregation;
  - symbol normalisation and search.
- **The news card's "time ago" label.**

How each kind of source construct is modelled:

- **Stateful parts become classes.** Their fields are what the component updates. Their methods state the whole new state and are proved against pure functions. The lemmas about those functions carry the properties.
- **Numbers are `real`.** Text that `parseFloat` reads is `Option<real>`, where `None` is a blank input.
- **JavaScript's `x || d` on a number is `Wrappers.OrElse`.** A missing value and a zero both fall back.
- **Server replies are data types.** Each kind of reply the code distinguishes (thrown, refused, body with or without the expected array) is its own constructor, passed in as a parameter.
- **Clocks and random draws are parameters.** `Date.now()` is `now`, and `Math.random()` is `draw` or `d`.
- **The 200 ms batch timer is an armed flag.** `PriceBatcher.Fire` is its callback.

Modules follow the source files:

| module | source file |
|---|---|
| `LivePrices` | `client/src/hooks/useLiveprices.js` |
| `TradePage` | `client/src/pages/TradePage.jsx` |
| `Trade` | `client/src/pages/Trade.jsx` |
| `Dashboard` | `client/src/pages/Dashboard.jsx` |
| `Watchlist` | `client/src/pages/WatchlistPage.jsx` |
| `Portfolio` | `client/src/pages/PortfolioPage.jsx` |
| `ChartSection` | `client/src/components/trade/ChartSection.jsx` |
| `QuickTradePanel` | `client/src/components/trade/QuickTradePanel.jsx` |
| `BalanceCard` | `client/src/components/trade/BalanceCard.jsx` |
| `NewsCard` | `client/src/components/trade/NewsCard.jsx` |
| `Orders` | the order side, the pricing mode and the balance rule all pages share |
| `Wrappers` | `Option` and JavaScript's `x \|\| d` |
| `Seqs` | `filter`, `slice` and `reduce` |
| `Text` | `toUpperCase`, `trim`, `includes`, `startsWith` and `${n}` |

## Model

| member | source | states |
|---|---|---|
| Wrappers.OrElse | client/src/components/trade/QuickTradePanel.jsx:12 | `x \|\| d`: a present nonzero number is kept; a missing value or 0 gives `d` |
| Seqs.Filter | client/src/pages/WatchlistPage.jsx:61 | `filter` keeps only elements satisfying the test and is never longer |
| Seqs.FilterAppend | client/src/hooks/useLiveprices.js:70-74 | filtering a concatenation filters each part, so the relative order is kept |
| Seqs.FilterCount | client/src/pages/Trade.jsx:230 | a kept value occurs as often as before; a dropped one not at all |
| Seqs.FilterMember | client/src/pages/Trade.jsx:230 | `x` survives the filter iff it was there and passes the test |
| Seqs.FilterAllKept | client/src/pages/WatchlistPage.jsx:61 | filtering a list whose elements all pass changes nothing |
| Seqs.Take | client/src/pages/PortfolioPage.jsx:37 | `slice(0, n)`: `min(n, len)` elements, the first ones |
| Seqs.LastN | client/src/pages/Dashboard.jsx:81 | `slice(-n)`: `min(n, len)` elements, the last ones, in order |
| Seqs.SumOf | client/src/pages/PortfolioPage.jsx:76 | the `reduce` sum starting at 0: 0 for no terms, the term itself for one, 0 when every term is 0 |
| Seqs.SumOfAppend | client/src/pages/PortfolioPage.jsx:76 | the `reduce` sum over a concatenation is the sum of the sums |
| Seqs.SumOfCons | client/src/pages/PortfolioPage.jsx:76 | summing from the front gives the same total |
| Seqs.SumOfBounds | client/src/pages/PortfolioPage.jsx:76 | with non-negative terms, each term is between 0 and the sum |
| Seqs.SumOfNonNegative | client/src/pages/PortfolioPage.jsx:76 | a sum of non-negative terms is non-negative |
| Text.UpperChar | client/src/pages/Dashboard.jsx:28 | lower-case ASCII letters move to upper case; other characters stay |
| Text.Upper | client/src/pages/TradePage.jsx:380 | same length, character by character, no lower-case letter left |
| Text.UpperIdempotent | client/src/pages/TradePage.jsx:379-380 | upper-casing twice is upper-casing once |
| Text.TrimStart | client/src/pages/Dashboard.jsx:28 | drops exactly the leading blanks |
| Text.TrimEnd | client/src/pages/Dashboard.jsx:28 | drops exactly the trailing blanks |
| Text.LeadingBlanks | client/src/pages/Dashboard.jsx:28 | the number of leading blanks is at most the length |
| Text.Trim | client/src/pages/Dashboard.jsx:28 | the result is a slice of the input with no blank at either end, and everything cut away is blank |
| Text.TrimSlice | client/src/pages/Dashboard.jsx:28 | cutting a blank tail off a suffix leaves a slice of the original followed only by blanks |
| Text.TrimIdempotent | client/src/pages/Dashboard.jsx:28 | trimming twice is trimming once |
| Text.ContainsEmpty | client/src/pages/TradePage.jsx:380 | every string includes the empty string |
| Text.Contains | client/src/pages/TradePage.jsx:380 | `includes`: true exactly when the needle occurs at some position of the string |
| Text.DigitChar | client/src/components/trade/NewsCard.jsx:7 | the digit character has the digit's value |
| Text.NatToString | client/src/components/trade/NewsCard.jsx:7 | `${n}`: at least one digit, all digits, no leading zero |
| Text.IntToString | client/src/pages/TradePage.jsx:176 | `${n}`: non-empty; starts with a minus sign exactly for a negative number; the digits of `n` (of `-n` after the sign) |
| Text.NatToStringRoundTrip | client/src/components/trade/NewsCard.jsx:7 | reading the rendered digits back gives the number |
| Text.NatToStringInjective | client/src/components/trade/NewsCard.jsx:7 | different numbers render differently |
| Text.IntToStringInjective | client/src/components/trade/NewsCard.jsx:7 | different integers, negative ones included, render differently |
| Orders.Settle | client/src/pages/TradePage.jsx:193-197 | a buy pays the value, a sell receives it |
| Orders.SettleInverse | client/src/pages/Trade.jsx:164-165 | a buy and a sell of the same value cancel out |
| Orders.SettleAffordableBuy | client/src/pages/TradePage.jsx:147-151 | a buy of no more than the balance leaves it non-negative |
| LivePrices.QuoteOf | client/src/hooks/useLiveprices.js:85-91 | the buffered quote copies the update's five fields |
| LivePrices.Stamped | client/src/hooks/useLiveprices.js:100-106 | a snapshot quote copies four fields and is stamped with the receipt time |
| LivePrices.Merge | client/src/hooks/useLiveprices.js:18 | `{...prev, ...pending}`: pending entries override, other symbols keep their value, no symbol is lost |
| LivePrices.MergeEmpty | client/src/hooks/useLiveprices.js:134-137 | a flush with an empty buffer leaves the table unchanged |
| LivePrices.MergeIdempotent | client/src/hooks/useLiveprices.js:23-30 | merging the same buffer twice is merging it once |
| LivePrices.Buffer | client/src/hooks/useLiveprices.js:85-91 | the update replaces its symbol's pending entry; other pending symbols are untouched |
| LivePrices.LastWriteWins | client/src/hooks/useLiveprices.js:82-96 | after a series of updates a symbol's pending quote is its last update's |
| LivePrices.UntouchedSurvives | client/src/hooks/useLiveprices.js:82-96 | a symbol no update mentions keeps its pending entry, or its absence |
| LivePrices.BufferAllKeys | client/src/hooks/useLiveprices.js:82-96 | the buffer holds exactly the old symbols plus those updated, one entry each |
| LivePrices.SeedQuotes | client/src/hooks/useLiveprices.js:39-48 | one quote per snapshot symbol, all stamped `now` |
| LivePrices.SeedMerge | client/src/hooks/useLiveprices.js:49 | `{...mapped, ...prev}`: an entry already in the table is never overwritten; only absent symbols are added |
| LivePrices.GetPrice | client/src/hooks/useLiveprices.js:141-143 | the table's entry, or none exactly when the symbol is absent |
| LivePrices.PriceOr | client/src/pages/TradePage.jsx:107 | the live price unless missing or 0, then the fallback |
| LivePrices.ChangeOr | client/src/pages/Trade.jsx:133 | the live change unless missing or 0, then the fallback |
| LivePrices.PriceBatcher.constructor | client/src/hooks/useLiveprices.js:6-14 | empty table, empty buffer, no timer |
| LivePrices.PriceBatcher.ScheduleFlush | client/src/hooks/useLiveprices.js:15-22 | afterwards a timer is armed; a new timer is started only when none was armed; table and buffer unchanged |
| LivePrices.PriceBatcher.Fire | client/src/hooks/useLiveprices.js:17-21 | the table becomes the old table overridden by the buffer; the buffer is empty; the timer is disarmed |
| LivePrices.PriceBatcher.FlushAndClear | client/src/hooks/useLiveprices.js:23-30 | no timer armed afterwards, the same merge, the buffer emptied |
| LivePrices.PriceBatcher.OnPriceUpdate | client/src/hooks/useLiveprices.js:82-96 | buffers the update (nothing for an unreadable payload), always schedules a flush, table unchanged |
| LivePrices.PriceBatcher.OnSubscribed | client/src/hooks/useLiveprices.js:98-111 | an object with a symbol and data buffers that quote and schedules; anything else leaves buffer and timer untouched |
| LivePrices.PriceBatcher.ApplySnapshot | client/src/hooks/useLiveprices.js:33-55 | a readable snapshot is seeded under the table; a failure changes nothing; buffer and timer untouched |
| LivePrices.SubscribeMessages | client/src/hooks/useLiveprices.js:70-74 | never more messages than symbols, and no message is an empty symbol |
| LivePrices.SubscribeCount | client/src/hooks/useLiveprices.js:126-132 | each non-empty symbol is sent as often as it occurs in the list; the empty one never |
| LivePrices.SubscribeAppend | client/src/hooks/useLiveprices.js:70-74 | the messages keep list order |
| LivePrices.EmitTwiceCount | client/src/hooks/useLiveprices.js:126-132 | no de-duplication across re-runs: two emits send each symbol twice as often |
| LivePrices.LiveSocket.constructor | client/src/hooks/useLiveprices.js:4-8 | no socket, not connected, nothing sent |
| LivePrices.LiveSocket.EmitSubscriptions | client/src/hooks/useLiveprices.js:127-131 | the loop appends exactly `SubscribeMessages(symbols)` to what was sent |
| LivePrices.LiveSocket.Attach | client/src/hooks/useLiveprices.js:58-64 | a socket is created only if none exists; with a live transport the symbols are subscribed at once |
| LivePrices.LiveSocket.OnConnect | client/src/hooks/useLiveprices.js:66-75 | connected, and the handler's symbols are subscribed (again, on a reconnect) |
| LivePrices.LiveSocket.OnDrop | client/src/hooks/useLiveprices.js:77-80 | not connected; nothing else changes |
| LivePrices.LiveSocket.Disconnect | client/src/hooks/useLiveprices.js:145-151 | a no-op without a socket; otherwise the instance is cleared and `connected` becomes false |
| TradePage.SymbolFromUrl | client/src/pages/TradePage.jsx:78-82 | a known symbol in the URL selects it; the selection changes only to a known symbol given in the URL |
| TradePage.FirstMatch | client/src/pages/TradePage.jsx:380 | `find`: the first index whose symbol includes the query, or none when no symbol does |
| TradePage.SearchSelect | client/src/pages/TradePage.jsx:378-381 | the selection is unchanged or a known symbol |
| TradePage.EmptySearchSelectsFirst | client/src/pages/TradePage.jsx:380-381 | an empty query selects `AAPL` |
| TradePage.ContainsSameLength | client/src/pages/TradePage.jsx:380 | two strings of equal length include each other only if equal |
| TradePage.ContainsShorter | client/src/pages/TradePage.jsx:380 | a string never includes a longer one |
| TradePage.SearchKnownSelectsIt | client/src/pages/TradePage.jsx:378-381 | typing any known symbol, in any case, selects exactly that symbol |
| TradePage.CheckOrder | client/src/pages/TradePage.jsx:132-151 | quantity error first, then limit error, then insufficient balance for a buy; otherwise the total is quantity times the limit or live price; a passed buy never exceeds the balance |
| TradePage.FinalPrice | client/src/pages/TradePage.jsx:144 | the unit price: the limit price in limit mode, the live price in market mode |
| TradePage.OrderValue | client/src/pages/TradePage.jsx:112-114 | 0 for a blank quantity or a blank limit price; for valid inputs the quantity at the order's unit price |
| TradePage.ChargedIsDisplayed | client/src/pages/TradePage.jsx:112-114 | the total an accepted order is charged equals the displayed order value |
| TradePage.RequestFailure | client/src/pages/TradePage.jsx:155-177 | without a token the reason is `Login required to place orders`; the request succeeds exactly with a token and an ok reply |
| TradePage.NewOrderId | client/src/pages/TradePage.jsx:183 | the server's trade id when it sent a non-empty one, otherwise a stamp of `now` |
| TradePage.Preview | client/src/pages/TradePage.jsx:819 | the after-trade figure is the balance an executed order of that value leaves |
| TradePage.TradeTerminal.constructor | client/src/pages/TradePage.jsx:53-64 | the page's initial state, balance 50000 |
| TradePage.TradeTerminal.ReadUrl | client/src/pages/TradePage.jsx:78-82 | the selection becomes `SymbolFromUrl` of the old one |
| TradePage.TradeTerminal.Search | client/src/pages/TradePage.jsx:378-381 | stores the upper-cased query and selects as `SearchSelect` does |
| TradePage.TradeTerminal.PlaceOrder | client/src/pages/TradePage.jsx:128-214 | a refusal changes only the message; a missing token or failed request leaves balance, orders and inputs unchanged; success settles the total, prepends the executed order and resets the inputs |
| TradePage.TradeTerminal.QuickTrade | client/src/pages/TradePage.jsx:217-283 | quantity check, then balance check, at the live price (0 without one); the same settle and prepend; quick quantity reset |
| Trade.DisplayPrice | client/src/pages/Trade.jsx:132 | the live price, or 150.5 when missing or 0 |
| Trade.DisplayChange | client/src/pages/Trade.jsx:133 | the live change, or 2.5 when missing or 0 |
| Trade.OrderValue | client/src/pages/Trade.jsx:136 | 0 for a blank quantity; otherwise the quantity times the displayed price, whatever the mode |
| Trade.FromServer | client/src/pages/Trade.jsx:220-227 | `BUY` maps to a buy and anything else to a sell; the id is `_id` or a stamp; the other fields are copied |
| Trade.FromServerAll | client/src/pages/Trade.jsx:220 | one record per server trade, in server order |
| Trade.MergeTrades | client/src/pages/Trade.jsx:228-232 | the mapped server trades come first, followed by at most the prior orders |
| Trade.IdText | client/src/pages/Trade.jsx:230 | `String(id)`: a name as itself; a stamp as text starting with a digit or a minus sign |
| Trade.Unsynced | client/src/pages/Trade.jsx:230 | kept by the merge exactly unless the id is a name starting with `server:` |
| Trade.MergeKeepsUnsynced | client/src/pages/Trade.jsx:230-231 | after the server part, each untagged prior order occurs as often as before and each `server:` one not at all |
| Trade.StampAlwaysUnsynced | client/src/pages/Trade.jsx:230 | a numeric id's text never starts with `server:`, so locally stamped orders survive |
| Trade.MergeTwice | client/src/pages/Trade.jsx:228-232 | the merge does not de-duplicate: untagged server records loaded twice appear twice |
| Trade.LocalOrdersSurvive | client/src/pages/Trade.jsx:228-232 | after a load the server trades come first, and every locally stamped order keeps each of its occurrences |
| Trade.DemoTradesSurvive | client/src/pages/Trade.jsx:22-26 | the three demo trades are local, older than `now`, and a merge keeps all of them in order |
| Trade.Mark | client/src/pages/Trade.jsx:755 | the live price when present and nonzero, otherwise the average cost |
| Trade.ProfitLoss | client/src/pages/Trade.jsx:758 | the P/L is 0 exactly when the position is empty or the mark equals the cost |
| Trade.NoQuoteNoProfitLoss | client/src/pages/Trade.jsx:755-758 | with no live price, or a live price of 0, the P/L is 0 |
| Trade.DemoHoldingsFlat | client/src/pages/Trade.jsx:96-100 | until their quotes arrive the demo holdings show no gain and no loss |
| Trade.ProfitLossSign | client/src/pages/Trade.jsx:758-759 | a long position gains exactly when the mark exceeds the cost, and breaks even exactly at it |
| Trade.TradeDesk.constructor | client/src/pages/Trade.jsx:76-85 | balance 10000, the three demo trades, no holdings |
| Trade.TradeDesk.PlaceOrder | client/src/pages/Trade.jsx:146-185 | no validation; the balance moves by quantity times the displayed market price even in limit mode, where the record keeps the limit price; the order is appended; the inputs reset |
| Trade.TradeDesk.QuickTrade | client/src/pages/Trade.jsx:187-204 | quantity 1 and price 100 as defaults; the same balance rule; appended; quick quantity reset |
| Trade.TradeDesk.LoadHoldings | client/src/pages/Trade.jsx:90-124 | the demo list without an API base; the server array when sent, the current list when the body has none; after a failure the demo list only when none are shown |
| Trade.TradeDesk.LoadTrades | client/src/pages/Trade.jsx:207-240 | merges only when there is an API base and an array of trades; otherwise the orders are unchanged |
| Dashboard.NormalizeSymbolShape | client/src/pages/Dashboard.jsx:28 | the symbol is the input with its blank ends cut away, upper-cased: no blank at either end, no lower-case letter |
| Dashboard.UpperKeepsBlanks | client/src/pages/Dashboard.jsx:28 | upper-casing neither makes nor removes a blank |
| Dashboard.NormalizeSymbol | client/src/pages/Dashboard.jsx:28 | never longer than the input and free of lower-case letters |
| Dashboard.NormalizeIdempotent | client/src/pages/Dashboard.jsx:28 | normalising twice is normalising once |
| Dashboard.AppendPoint | client/src/pages/Dashboard.jsx:79-81 | the window grows by one until it holds 24 points |
| Dashboard.AppendPointWindow | client/src/pages/Dashboard.jsx:78-82 | at most 24 points; the last is the new one; the others are the previous tail, in order |
| Dashboard.AppendPointShort | client/src/pages/Dashboard.jsx:78-82 | a window that is not full loses nothing |
| Dashboard.AppendPointsWindow | client/src/pages/Dashboard.jsx:74-97 | after any run of quick trades the history holds at most 24 points and ends with the latest one |
| Dashboard.TrendingEntry | client/src/pages/Dashboard.jsx:52-59 | the price is present iff a nonzero live price exists; change, high and low default to 0 |
| Dashboard.TrendingRows | client/src/pages/Dashboard.jsx:51 | one entry per trending symbol, in order |
| Dashboard.DashboardPage.constructor | client/src/pages/Dashboard.jsx:8-11 | symbol AAPL, no error, empty history |
| Dashboard.DashboardPage.FetchHistory | client/src/pages/Dashboard.jsx:24-43 | a blank symbol errors with `Enter a symbol` and no request; any failure sets its message and clears the history; a non-array `data` gives an empty history; loading always ends |
| Dashboard.DashboardPage.QuickTrade | client/src/pages/Dashboard.jsx:74-97 | quick buy and quick sell both set the history to `AppendPoint` of it and end loading |
| Dashboard.DashboardPage.RefreshTrending | client/src/pages/Dashboard.jsx:46-71 | the trending rows of the current prices, loading cleared |
| Watchlist.Symbols | client/src/pages/WatchlistPage.jsx:13 | one symbol per item, in watchlist order |
| Watchlist.DemoItemsDistinct | client/src/pages/WatchlistPage.jsx:38-44 | the five demo items have distinct ids and the symbols AAPL, MSFT, GOOG, AMZN, TSLA |
| Watchlist.Without | client/src/pages/WatchlistPage.jsx:61 | no item with the removed id remains |
| Watchlist.WithoutKeepsOthers | client/src/pages/WatchlistPage.jsx:61 | every item with another id keeps each occurrence; items with that id are gone |
| Watchlist.WithoutAppend | client/src/pages/WatchlistPage.jsx:61 | removal keeps the survivors in order |
| Watchlist.WithoutIdempotent | client/src/pages/WatchlistPage.jsx:61 | removing the same id twice is removing it once |
| Watchlist.IsPositive | client/src/pages/WatchlistPage.jsx:107-108 | positive iff a quote exists and its change is at least 0 |
| Watchlist.WatchlistPage.constructor | client/src/pages/WatchlistPage.jsx:5-7 | empty list, loading |
| Watchlist.WatchlistPage.Fetch | client/src/pages/WatchlistPage.jsx:17-51 | no token: `Not authenticated` and the demo list; any failure: its message and the 5-item demo list; success: the array or [] |
| Watchlist.WatchlistPage.Remove | client/src/pages/WatchlistPage.jsx:53-65 | a DELETE only with a token; the item is removed either way |
| Portfolio.SummaryOf | client/src/pages/PortfolioPage.jsx:30-35 | each missing figure is 0; present ones are copied |
| Portfolio.MissingGainShowsGain | client/src/pages/PortfolioPage.jsx:30-35 | a summary whose gain/loss is missing defaults to 0 and shows as a gain |
| Portfolio.HoldingsTotal | client/src/pages/PortfolioPage.jsx:76 | 0 for no holdings; non-negative when every value is |
| Portfolio.SumOfValuesNonNegative | client/src/pages/PortfolioPage.jsx:76 | non-negative holding values sum to a non-negative total |
| Portfolio.HoldingsTotalAppend | client/src/pages/PortfolioPage.jsx:76 | each extra holding adds its value to the total |
| Portfolio.DemoHoldingsTotal | client/src/pages/PortfolioPage.jsx:46-51 | the demo holdings total 25600 |
| Portfolio.DemoPortfolioConsistent | client/src/pages/PortfolioPage.jsx:40-58 | the demo summary's gain is its value above the balance and 25 percent of it; each demo holding is worth its shares at its price; all five demo orders are recent |
| Portfolio.RecentOrders | client/src/pages/PortfolioPage.jsx:37 | the first `min(5, n)` orders, in order |
| Portfolio.BarOf | client/src/pages/PortfolioPage.jsx:185 | a share exists iff the total is nonzero, and then `share * total == value * 100` |
| Portfolio.BarsOf | client/src/pages/PortfolioPage.jsx:184 | one bar per holding, in order |
| Portfolio.Distribution | client/src/pages/PortfolioPage.jsx:184-185 | at most the first 4 holdings, each a share of the total over all holdings |
| Portfolio.DistributionBounded | client/src/pages/PortfolioPage.jsx:184-185 | with non-negative values and a positive total, each share lies in [0, 100] |
| Portfolio.ShareBound | client/src/pages/PortfolioPage.jsx:185 | a part of a positive whole is 0 to 100 percent of it |
| Portfolio.IsGainPositive | client/src/pages/PortfolioPage.jsx:77 | true iff a summary exists with gain/loss at least 0 |
| Portfolio.PortfolioPage.constructor | client/src/pages/PortfolioPage.jsx:4-8 | no portfolio, empty lists, loading |
| Portfolio.PortfolioPage.Fetch | client/src/pages/PortfolioPage.jsx:13-65 | success: defaulted summary, holdings or [], first five orders or []; any failure, including no token: the message and the demo portfolio |
| ChartSection.SeriesCount | client/src/components/trade/ChartSection.jsx:11-19 | 1440 points for 1D, 168 for 1W, 30 for 1M |
| ChartSection.SeriesInterval | client/src/components/trade/ChartSection.jsx:11-19 | 1 minute, 1 hour or 1 day apart |
| ChartSection.MaxLen | client/src/components/trade/ChartSection.jsx:59-62 | the length `tick` keeps: positive, and spanning one day, one week or 30 days at the range's interval |
| ChartSection.MaxLenIsCount | client/src/components/trade/ChartSection.jsx:59-62 | the window `tick` keeps equals the initial count, and is positive |
| ChartSection.Walk | client/src/components/trade/ChartSection.jsx:22-27 | the price after `n` steps; a walk from 0 stays at 0 |
| ChartSection.Step | client/src/components/trade/ChartSection.jsx:25 | one step moves a non-negative price by at most 0.3 percent either way |
| ChartSection.Scale | client/src/components/trade/ChartSection.jsx:25 | a non-negative amount scaled by a factor in `[lo, hi]` lies between its scalings by `lo` and `hi` |
| ChartSection.WalkPositive | client/src/components/trade/ChartSection.jsx:25 | with draws in [0, 1) a positive start price stays positive |
| ChartSection.SeriesTimeStep | client/src/components/trade/ChartSection.jsx:23 | consecutive points are one interval apart |
| ChartSection.SeriesTimeIncreasing | client/src/components/trade/ChartSection.jsx:22-23 | later points have strictly later times |
| ChartSection.GenerateInitialSeries | client/src/components/trade/ChartSection.jsx:5-29 | count points for the range at `now - i * interval`, prices along the walk, strictly increasing times, last time `now` |
| ChartSection.Rolled | client/src/components/trade/ChartSection.jsx:57-63 | the new point is last; the head is dropped only when the window is full |
| ChartSection.RolledFits | client/src/components/trade/ChartSection.jsx:63 | a series within the window stays within it, and a full one stays full |
| ChartSection.TickPeriod | client/src/components/trade/ChartSection.jsx:68 | at least 2000 ms and at least a quarter of the interval |
| ChartSection.TickPeriods | client/src/components/trade/ChartSection.jsx:68 | 15 s, 15 min and 6 h for the three ranges |
| ChartSection.Round | client/src/components/trade/ChartSection.jsx:79 | `Math.round`: within half a unit, halves up |
| ChartSection.TickPrice | client/src/components/trade/ChartSection.jsx:56 | a tick moves a non-negative price by at most 0.5 percent either way |
| ChartSection.PlotWidth | client/src/components/trade/ChartSection.jsx:97 | `Math.max(10, w - 40 - 20)`: at least both, and equal to one of them |
| ChartSection.ToX | client/src/components/trade/ChartSection.jsx:100-105 | on a forward series every time between the first and last lies within the plot, from 40 to `40 + plotW` |
| ChartSection.ToXAffine | client/src/components/trade/ChartSection.jsx:100-105 | `toX` is affine: shifting a time by `d` shifts its position by the same amount wherever it starts |
| ChartSection.DivSub | client/src/components/trade/ChartSection.jsx:103 | dividing two amounts by one span divides their difference |
| ChartSection.ToXEdges | client/src/components/trade/ChartSection.jsx:100-105 | the first and last times map to the left and right edges; equal ends map everything to the right edge |
| ChartSection.ToXMonotone | client/src/components/trade/ChartSection.jsx:100-105 | on a forward series later times lie further right |
| ChartSection.LiveChart.constructor | client/src/components/trade/ChartSection.jsx:33-36 | range 1D with its full initial series, size 800 by 240 |
| ChartSection.LiveChart.SetRange | client/src/components/trade/ChartSection.jsx:40-44 | the new range with a regenerated series and interval |
| ChartSection.LiveChart.Tick | client/src/components/trade/ChartSection.jsx:47-66 | no tick while loading; otherwise the series becomes `Rolled` with a point at `now`; the window bound is kept |
| ChartSection.LiveChart.Resize | client/src/components/trade/ChartSection.jsx:79 | the width is the larger of 300 and `w`; the height is the larger of 180 and 35% of `w`, rounded |
| ChartSection.LiveChart.HandleMouse | client/src/components/trade/ChartSection.jsx:115-126 | a point with minimal distance to the mouse, strictly closer than every earlier point (earliest wins ties); nothing for an empty series |
| QuickTradePanel.QuickPrice | client/src/components/trade/QuickTradePanel.jsx:11 | the live price, or 150.5 when missing or 0 |
| QuickTradePanel.QuickOrderValue | client/src/components/trade/QuickTradePanel.jsx:12 | 0 for a blank quantity, otherwise quantity times price |
| QuickTradePanel.CanAfford | client/src/components/trade/QuickTradePanel.jsx:13 | a sell always; a buy iff it leaves a non-negative balance |
| QuickTradePanel.Fee | client/src/components/trade/QuickTradePanel.jsx:110-111 | the fee is a two-hundredth of the value, and between 0 and the value for a non-negative value |
| QuickTradePanel.Total | client/src/components/trade/QuickTradePanel.jsx:110-116 | the total is the value plus the 0.5% fee |
| QuickTradePanel.ShowsWarning | client/src/components/trade/QuickTradePanel.jsx:152 | shown iff a buy whose value exceeds the balance |
| QuickTradePanel.ButtonDisabled | client/src/components/trade/QuickTradePanel.jsx:131 | enabled iff a quantity is entered, no trade is loading, and the order is a sell or affordable |
| QuickTradePanel.WarningDisables | client/src/components/trade/QuickTradePanel.jsx:131-152 | the warning implies a disabled button; an enabled buy never overdraws |
| QuickTradePanel.Panel.constructor | client/src/components/trade/QuickTradePanel.jsx:6-9 | AAPL, quantity 1, buy, not loading |
| QuickTradePanel.Panel.HandleQuickTrade | client/src/components/trade/QuickTradePanel.jsx:15-30 | exactly one `onTrade` call with symbol, quantity, side and price; quantity reset unless the callback throws; loading cleared |
| BalanceCard.Remaining | client/src/components/trade/BalanceCard.jsx:4 | the remainder equals the shared settle rule and the terminal's after-trade preview |
| BalanceCard.PercentageUsed | client/src/components/trade/BalanceCard.jsx:5 | present iff the balance is nonzero, and then `pct * balance == value * 100` |
| BalanceCard.BarWidth | client/src/components/trade/BalanceCard.jsx:55 | capped at 100 and otherwise the percentage |
| BalanceCard.AffordableBarExact | client/src/components/trade/BalanceCard.jsx:5-55 | an affordable buy's bar is exactly its share |
| BalanceCard.AfterSectionVisible | client/src/components/trade/BalanceCard.jsx:36 | shown iff the order value is positive |
| BalanceCard.InsufficientShown | client/src/components/trade/BalanceCard.jsx:58-60 | shown iff the section shows and the remainder is negative |
| BalanceCard.RemainingPositive | client/src/components/trade/BalanceCard.jsx:71-80 | styled positive iff the remainder is at least 0 |
| BalanceCard.StylingAgreesWithWarning | client/src/components/trade/BalanceCard.jsx:58-80 | inside the section the warning shows exactly when the remainder is not styled positive |
| BalanceCard.WarningAgreesWithPanel | client/src/components/trade/BalanceCard.jsx:58-60 | for a buy the card warns iff the quick-trade panel cannot afford it; a sell from a non-negative balance never warns |
| BalanceCard.AcceptedOrderNoWarning | client/src/components/trade/BalanceCard.jsx:58-60 | an order the terminal accepts never raises the card's warning |
| NewsCard.TimeAgo | client/src/components/trade/NewsCard.jsx:4 | elapsed minutes rounded to nearest, halves up |
| NewsCard.TimeAgoMonotone | client/src/components/trade/NewsCard.jsx:4 | an older item never shows a smaller age |
| NewsCard.Hours | client/src/components/trade/NewsCard.jsx:5 | `60h <= t < 60h + 60` |
| NewsCard.Minutes | client/src/components/trade/NewsCard.jsx:6 | JavaScript's `%`: the sign follows `t`, magnitude under 60, `t - m` a multiple of 60 |
| NewsCard.TimeString | client/src/components/trade/NewsCard.jsx:7 | `{hours}h ago` when hours > 0, else `{minutes}m ago` |
| NewsCard.HoursMinutesSplit | client/src/components/trade/NewsCard.jsx:5-6 | for t >= 0, `t == 60 * hours + minutes` with 0 <= minutes < 60 |
| NewsCard.HourLabelDropsMinutes | client/src/components/trade/NewsCard.jsx:7 | from an hour on, the minutes are discarded |
| NewsCard.MinuteLabel | client/src/components/trade/NewsCard.jsx:5-7 | under an hour (and for future stamps above -60) the label is `{t}m ago` |
| NewsCard.HourLabelsDiffer | client/src/components/trade/NewsCard.jsx:7 | ages in different hours get different labels |
| NewsCard.SentimentIcon | client/src/components/trade/NewsCard.jsx:46 | a rising chart for positive, an arrow for neutral, a falling chart otherwise |
| NewsCard.SentimentIconsDiffer | client/src/components/trade/NewsCard.jsx:46 | the three sentiments show three different icons; any other label shows the falling chart |

The same "time ago" formula is at client/src/pages/TradePage.jsx:898-901 and client/src/pages/Trade.jsx:790-793, and the same news icons at client/src/pages/Trade.jsx:833; `NewsCard` models these too.

## Left out

- **Network requests, `localStorage` and the auth token.** Every `fetch` and its JSON body is an abstract reply parameter. The token is a `hasToken` flag. The balance saved in `localStorage` (client/src/pages/TradePage.jsx:116-125) is left out.
- **Clocks and randomness.** `Date.now()` is a parameter. `Math.random()` is a parameter: `draw` for the chart and `d` for a tick. The demo quotes' fabricated statistics and the trending sparklines are not modelled.
- **Fractional server ids.** Trade.FromServer uses `Stamp(now)` for a missing `_id`. The random fraction of `Date.now() + Math.random()` is dropped.
- **The socket transport.** Socket.IO reconnection and backoff are not modelled. The `error` and `stockList` handlers only log.
- **Handler closures.** The socket's handlers close over the first effect run's buffer and timer, and later effect runs make new ones. The model has one buffer and one timer.
- **Other hook consumers.** The model does not claim that several hook consumers see the same prices. Nor does it claim that subscriptions are idempotent.
- **Timer delays.** The 200 ms batch delay is the explicit `Fire` step. The other delays are each folded into the method that follows them:
  - the 800 ms order delay;
  - the 600 ms quick-trade delay;
  - the 800 ms quick buy/sell delay;
  - the 3 s message-clearing timers.
- **Atomic async handlers.** Nothing interleaves with a handler while it awaits. So the `mounted`, `active` and `ignore` flags of unmounted components are not modelled.
- **Trade.TradeDesk.LoadHoldings reads the current holdings, not the effect's closure.** The catch branch reads `holdings` from the closure of the render that started the effect. The model reads the current field.
- **Floating point and formatting.** These are not modelled:
  - `toFixed`;
  - rounding generated prices to cents (ChartSection.GenerateInitialSeries and ChartSection.LiveChart.Tick use exact walks);
  - `NaN` from `parseFloat` on non-numeric text, which slips past the `<= 0` checks;
  - `Infinity` and `NaN` from a zero divisor (these are `None`).
- **Success text.** Success messages are data (`Executed`, `Placed`) rather than formatted text.
- **Unicode text handling.** Upper-casing and `trim` work on ASCII only. Other characters are left unchanged.
- **Mis-encoded icons on the terminal page.** The icon literals at client/src/pages/TradePage.jsx:584, 694, 705 and 944 are UTF-8 emoji re-read as Mac Roman, so that page shows garbled text such as `üìà` instead of the chart icons. NewsCard.SentimentIcon models the correctly encoded literals of client/src/components/trade/NewsCard.jsx:46 and client/src/pages/Trade.jsx:833 only.
- **Malformed payloads.** LivePrices.PriceBatcher.OnPriceUpdate takes `None` for a null payload. A payload object without a `symbol`, which JavaScript stores under the key `"undefined"`, is not modelled. A null `subscribed` payload makes the handler throw before it changes anything; it is covered by `AckOther`.
- **The chart's drawing.** These are not modelled:
  - the y axis (`toY`, padding, min/max);
  - SVG path strings;
  - the tooltip's y position;
  - `formatTime`.
- **TradePage's history chart**, which is a fetch and a display (client/src/pages/TradePage.jsx:85-104).
- **Layout, routing and configuration files**, which hold no logic. Likewise the authentication context and the login and sign-up pages, which are I/O around an HTTP client.
- **Dashboard.DashboardPage.QuickTrade takes the new point as a parameter.** The point's date string (`toLocaleString`) and its random price are not modelled.
