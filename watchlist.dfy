/** The watchlist page: the list it loads (or its demo stand-in), the
    symbols it subscribes to, removal by id, and the sign of a row. */
module Watchlist {
  import opened Wrappers
  import Seqs
  import LivePrices

  /** An item's id, compared strictly: the number 1 and the text "1" differ. */
  datatype ItemId = NumId(n: int) | TextId(t: string)

  datatype Item = Item(id: ItemId, symbol: string, addedAt: string)

  /** The demo list installed after any load failure. */
  const DemoItems: seq<Item> :=
    [ Item(NumId(1), "AAPL", "2025-11-25"), Item(NumId(2), "MSFT", "2025-11-20"),
      Item(NumId(3), "GOOG", "2025-11-18"), Item(NumId(4), "AMZN", "2025-11-15"),
      Item(NumId(5), "TSLA", "2025-11-10") ]

  /** The demo items have distinct ids, so removing one of them leaves the
      other four. */
  lemma DemoItemsDistinct()
    ensures forall i, j :: 0 <= i < j < |DemoItems| ==> DemoItems[i].id != DemoItems[j].id
    ensures Symbols(DemoItems) == ["AAPL", "MSFT", "GOOG", "AMZN", "TSLA"]
  {
  }

  /** The symbols handed to the live-price hook: one per item, in order. */
  function Symbols(w: seq<Item>): (r: seq<string>)
    ensures |r| == |w|
    ensures forall i :: 0 <= i < |w| ==> r[i] == w[i].symbol
  {
    if w == [] then [] else [w[0].symbol] + Symbols(w[1..])
  }

  /** The list without any item whose id is `id`. */
  function Without(w: seq<Item>, id: ItemId): (r: seq<Item>)
    ensures forall i :: 0 <= i < |r| ==> r[i].id != id
  {
    Seqs.Filter(w, (x: Item) => x.id != id)
  }

  /** Removal drops exactly the items with that id: every other item keeps
      each of its occurrences, and the relative order is that of `w`. */
  lemma WithoutKeepsOthers(w: seq<Item>, id: ItemId, x: Item)
    ensures multiset(Without(w, id))[x] == if x.id == id then 0 else multiset(w)[x]
    ensures x in Without(w, id) <==> x in w && x.id != id
  {
    Seqs.FilterCount(w, (y: Item) => y.id != id, x);
    Seqs.FilterMember(w, (y: Item) => y.id != id, x);
  }

  /** Removal distributes over the parts of a list, which is what keeps the
      survivors in order. */
  lemma WithoutAppend(a: seq<Item>, b: seq<Item>, id: ItemId)
    ensures Without(a + b, id) == Without(a, id) + Without(b, id)
  {
    Seqs.FilterAppend(a, b, (y: Item) => y.id != id);
  }

  /** Removing the same id twice is removing it once. */
  lemma WithoutIdempotent(w: seq<Item>, id: ItemId)
    ensures Without(Without(w, id), id) == Without(w, id)
  {
    Seqs.FilterAllKept(Without(w, id), (y: Item) => y.id != id);
  }

  /** A row shows as positive only when a quote exists and its change is not
      negative; without a quote the comparison is false. */
  function IsPositive(prices: LivePrices.PriceTable, symbol: string): (r: bool)
    ensures r <==> LivePrices.GetPrice(prices, symbol).Some?
                   && LivePrices.GetPrice(prices, symbol).value.change >= 0.0
  {
    symbol in prices && prices[symbol].change >= 0.0
  }

  /** What the watchlist request produced. */
  datatype Reply =
    | Unreachable(message: string)          // the request or the body threw
    | Refused(error: Option<string>)        // not ok; the body's `error`
    | Loaded(watchlist: Option<seq<Item>>)  // ok; `watchlist` when an array

  class WatchlistPage {
    var watchlist: seq<Item>
    var loading: bool
    var error: string

    constructor ()
      ensures watchlist == [] && loading && error == ""
    {
      watchlist, loading, error := [], true, "";
    }

    /** `fetchWatchlist`: without a token it fails with `Not authenticated`;
        any failure records its message and installs the demo list; a
        success installs the array, or the empty list when there is none. */
    method Fetch(hasToken: bool, reply: Reply)
      modifies this
      ensures !loading
      ensures !hasToken ==> error == "Not authenticated" && watchlist == DemoItems
      ensures hasToken ==>
                match reply
                case Unreachable(m) => error == m && watchlist == DemoItems
                case Refused(e) =>
                  error == (if e.Some? && e.value != "" then e.value else "Failed to load watchlist")
                  && watchlist == DemoItems
                case Loaded(w) => error == "" && watchlist == (if w.Some? then w.value else [])
    {
      loading := true;
      error := "";
      var failure: Option<string>;
      if !hasToken {
        failure := Some("Not authenticated");
      } else {
        match reply
        case Unreachable(m) =>
          failure := Some(m);
        case Refused(e) =>
          failure := Some(if e.Some? && e.value != "" then e.value else "Failed to load watchlist");
        case Loaded(w) =>
          failure := None;
          watchlist := if w.Some? then w.value else [];
      }
      if failure.Some? {
        error := failure.value;
        watchlist := DemoItems;
      }
      loading := false;
    }

    /** `handleRemove`: a `DELETE` is sent only with a token (`deleteSent`),
        and its outcome is ignored; the item goes from the list either way. */
    method Remove(id: ItemId, hasToken: bool) returns (deleteSent: bool)
      modifies this`watchlist
      ensures deleteSent == hasToken
      ensures watchlist == Without(old(watchlist), id)
    {
      deleteSent := hasToken;
      watchlist := Seqs.Filter(watchlist, (x: Item) => x.id != id);
    }
  }

  /** Removing an item from the demo list leaves the other four, so the page
      subscribes to their symbols. */
  method RemoveScenario()
  {
    var page := new WatchlistPage();
    page.Fetch(false, Loaded(None));
    var sent := page.Remove(NumId(3), false);
    assert !sent;
    assert page.watchlist == [DemoItems[0], DemoItems[1], DemoItems[3], DemoItems[4]];
    assert Symbols(page.watchlist) == ["AAPL", "MSFT", "AMZN", "TSLA"];
  }
}
