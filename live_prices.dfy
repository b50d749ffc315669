/** The live-price hook (`useLiveprices`): a pending buffer of streamed
    quotes, a single batch timer that publishes the buffer into the price
    table, a one-time bulk snapshot that seeds the table, and one socket
    shared by the whole page, with the subscribe messages it sends.

    The 200 ms timer is an armed flag plus an explicit `Fire` step; the
    socket is a nullable singleton whose events are methods. There is one
    buffer and one table, as in the first run of the hook's effect. */
module LivePrices {
  import opened Wrappers
  import Seqs

  /** A quote as the hook stores it: `{price, change, high, low, timestamp}`. */
  datatype Quote = Quote(price: real, change: real, high: real, low: real, timestamp: int)

  /** A symbol -> quote table: the published `prices` and the pending buffer. */
  type PriceTable = map<string, Quote>

  /** The payload of a `priceUpdate` event. */
  datatype PriceUpdate = PriceUpdate(symbol: string, price: real, change: real, high: real, low: real, timestamp: int)

  /** The quote fields of a bulk-snapshot entry or of a `subscribed` payload. */
  datatype Snapshot = Snapshot(price: real, change: real, high: real, low: real)

  /** The payload of a `subscribed` event. */
  datatype SubscribedPayload =
    | AckObject(symbol: string, data: Option<Snapshot>)  // an object `{symbol, data}`
    | AckName(name: string)                              // a bare string
    | AckOther                                           // null, a number, ...

  /** The quote a `priceUpdate` payload stands for. */
  function QuoteOf(u: PriceUpdate): (q: Quote)
    ensures q.price == u.price && q.change == u.change && q.high == u.high
    ensures q.low == u.low && q.timestamp == u.timestamp
  {
    Quote(u.price, u.change, u.high, u.low, u.timestamp)
  }

  /** A snapshot stamped with the time it was received (`Date.now()`). */
  function Stamped(d: Snapshot, now: int): (q: Quote)
    ensures q.price == d.price && q.change == d.change && q.high == d.high
    ensures q.low == d.low && q.timestamp == now
  {
    Quote(d.price, d.change, d.high, d.low, now)
  }

  // ---------------------------------------------------------------------
  // The pure updaters

  /** `{...table, ...pending}`: the pending entries override the table, every
      other symbol keeps its value, and no symbol is lost. */
  function Merge(table: PriceTable, pending: PriceTable): (r: PriceTable)
    ensures r.Keys == table.Keys + pending.Keys
    ensures forall s :: s in pending ==> r[s] == pending[s]
    ensures forall s :: s in table && s !in pending ==> r[s] == table[s]
  {
    table + pending
  }

  /** Merging an empty buffer leaves the table as it was. */
  lemma MergeEmpty(table: PriceTable)
    ensures Merge(table, map[]) == table
  {
  }

  /** Merging the same buffer twice is merging it once. */
  lemma MergeIdempotent(table: PriceTable, pending: PriceTable)
    ensures Merge(Merge(table, pending), pending) == Merge(table, pending)
  {
  }

  /** `pricesRef.current[u.symbol] = {...}`: the update replaces the pending
      entry for its symbol and leaves every other pending symbol alone. */
  function Buffer(pending: PriceTable, u: PriceUpdate): (r: PriceTable)
    ensures r.Keys == pending.Keys + {u.symbol}
    ensures r[u.symbol] == QuoteOf(u)
    ensures forall s :: s in pending && s != u.symbol ==> r[s] == pending[s]
  {
    pending[u.symbol := QuoteOf(u)]
  }

  /** The buffer after a series of updates, oldest first. */
  function BufferAll(pending: PriceTable, us: seq<PriceUpdate>): PriceTable
  {
    if us == [] then pending else Buffer(BufferAll(pending, us[..|us| - 1]), us[|us| - 1])
  }

  /** Last write wins: after a series of updates, a symbol's pending quote is
      the one of the last update for that symbol. */
  lemma {:induction false} LastWriteWins(pending: PriceTable, us: seq<PriceUpdate>, i: nat)
    requires i < |us|
    requires forall j :: i < j < |us| ==> us[j].symbol != us[i].symbol
    ensures us[i].symbol in BufferAll(pending, us)
    ensures BufferAll(pending, us)[us[i].symbol] == QuoteOf(us[i])
  {
    if i < |us| - 1 {
      LastWriteWins(pending, us[..|us| - 1], i);
    }
  }

  /** A symbol no update mentions keeps its pending entry, or its absence. */
  lemma {:induction false} UntouchedSurvives(pending: PriceTable, us: seq<PriceUpdate>, s: string)
    requires forall j :: 0 <= j < |us| ==> us[j].symbol != s
    ensures s in BufferAll(pending, us) <==> s in pending
    ensures s in pending ==> BufferAll(pending, us)[s] == pending[s]
  {
    if us != [] {
      UntouchedSurvives(pending, us[..|us| - 1], s);
    }
  }

  /** The buffer holds one entry per distinct symbol seen, however many
      updates arrive: its symbols are the old ones plus those updated. */
  lemma {:induction false} BufferAllKeys(pending: PriceTable, us: seq<PriceUpdate>)
    ensures BufferAll(pending, us).Keys == pending.Keys + set j | 0 <= j < |us| :: us[j].symbol
  {
    if us != [] {
      var init := us[..|us| - 1];
      BufferAllKeys(pending, init);
      var before := set j | 0 <= j < |init| :: init[j].symbol;
      var after := set j | 0 <= j < |us| :: us[j].symbol;
      assert after == before + {us[|us| - 1].symbol} by {
        forall s | s in after ensures s in before + {us[|us| - 1].symbol} {
          var j :| 0 <= j < |us| && us[j].symbol == s;
          if j < |init| { assert init[j].symbol == s; }
        }
        forall s | s in before ensures s in after {
          var j :| 0 <= j < |init| && init[j].symbol == s;
          assert us[j].symbol == s;
        }
      }
    }
  }

  /** The bulk snapshot turned into quotes, all stamped `now` (the `reduce`). */
  function SeedQuotes(snapshot: map<string, Snapshot>, now: int): (r: PriceTable)
    ensures r.Keys == snapshot.Keys
    ensures forall s :: s in snapshot ==> r[s] == Stamped(snapshot[s], now)
  {
    map s | s in snapshot :: Stamped(snapshot[s], now)
  }

  /** `{...seed, ...prev}`, the same spread as a flush with the table
      second: the snapshot only fills in symbols the table does
      not have yet; an entry already in the table is never overwritten. */
  function SeedMerge(seed: PriceTable, prev: PriceTable): (r: PriceTable)
    ensures r.Keys == seed.Keys + prev.Keys
    ensures forall s :: s in prev ==> r[s] == prev[s]
    ensures forall s :: s in seed && s !in prev ==> r[s] == seed[s]
  {
    Merge(seed, prev)
  }

  /** `getPrice(symbol)`: the table's entry, or null when there is none. */
  function GetPrice(prices: PriceTable, symbol: string): (r: Option<Quote>)
    ensures r.Some? <==> symbol in prices
    ensures r.Some? ==> r.value == prices[symbol]
  {
    if symbol in prices then Some(prices[symbol]) else None
  }

  /** `prices[symbol]?.price || fallback`, the way every page reads a live
      price: a missing quote and a zero price both give the fallback. */
  function PriceOr(prices: PriceTable, symbol: string, fallback: real): (r: real)
    ensures symbol in prices && prices[symbol].price != 0.0 ==> r == prices[symbol].price
    ensures symbol !in prices || prices[symbol].price == 0.0 ==> r == fallback
  {
    OrElse(if symbol in prices then Some(prices[symbol].price) else None, fallback)
  }

  /** `prices[symbol]?.change || fallback`. */
  function ChangeOr(prices: PriceTable, symbol: string, fallback: real): (r: real)
    ensures symbol in prices && prices[symbol].change != 0.0 ==> r == prices[symbol].change
    ensures symbol !in prices || prices[symbol].change == 0.0 ==> r == fallback
  {
    OrElse(if symbol in prices then Some(prices[symbol].change) else None, fallback)
  }

  // ---------------------------------------------------------------------
  // The batcher

  /** The state of the batcher created by the hook's effect. */
  class PriceBatcher {
    /** The published table (`prices`). */
    var prices: PriceTable
    /** The pending buffer (`pricesRef.current`). */
    var pending: PriceTable
    /** Whether a flush timer is armed (`batchTimer !== null`). */
    var timerArmed: bool
    /** How many timers have been started so far. */
    ghost var timersStarted: nat

    /** Nothing is ever left pending without an armed timer to deliver it. */
    ghost predicate Valid()
      reads this
    {
      pending != map[] ==> timerArmed
    }

    constructor ()
      ensures Valid()
      ensures prices == map[] && pending == map[] && !timerArmed && timersStarted == 0
    {
      prices, pending, timerArmed := map[], map[], false;
      timersStarted := 0;
    }

    /** `scheduleFlush`: arms the timer unless one is armed already; calling
        it while armed changes nothing. */
    method ScheduleFlush()
      modifies this
      ensures Valid() && timerArmed
      ensures prices == old(prices) && pending == old(pending)
      ensures timersStarted == if old(timerArmed) then old(timersStarted) else old(timersStarted) + 1
    {
      if timerArmed {
        return;
      }
      timerArmed := true;
      timersStarted := timersStarted + 1;
    }

    /** The timer's callback: publishes the buffer over the table, empties the
        buffer and disarms the timer. */
    method Fire()
      requires Valid() && timerArmed
      modifies this
      ensures Valid()
      ensures prices == Merge(old(prices), old(pending))
      ensures pending == map[] && !timerArmed && timersStarted == old(timersStarted)
    {
      prices := Merge(prices, pending);
      pending := map[];
      timerArmed := false;
    }

    /** `flushAndClear` (the effect's cleanup): cancels any armed timer, then
        publishes and empties the buffer. */
    method FlushAndClear()
      requires Valid()
      modifies this
      ensures Valid()
      ensures prices == Merge(old(prices), old(pending))
      ensures pending == map[] && !timerArmed && timersStarted == old(timersStarted)
    {
      if timerArmed {
        timerArmed := false;
      }
      prices := Merge(prices, pending);
      pending := map[];
    }

    /** The `priceUpdate` handler. A payload that cannot be read (null)
        buffers nothing, but the handler schedules a flush all the same. */
    method OnPriceUpdate(data: Option<PriceUpdate>)
      requires Valid()
      modifies this
      ensures Valid() && timerArmed
      ensures pending == if data.Some? then Buffer(old(pending), data.value) else old(pending)
      ensures prices == old(prices)
      ensures timersStarted == if old(timerArmed) then old(timersStarted) else old(timersStarted) + 1
    {
      if data.Some? {
        pending := Buffer(pending, data.value);
      }
      ScheduleFlush();
    }

    /** The `subscribed` handler. Only an object with a non-empty symbol and a
        quote buffers that quote (stamped `now`) and schedules a flush; a
        string acknowledgement, or anything else, leaves the batcher alone. */
    method OnSubscribed(payload: SubscribedPayload, now: int)
      requires Valid()
      modifies this
      ensures Valid() && prices == old(prices)
      ensures if payload.AckObject? && payload.symbol != "" && payload.data.Some? then
                && pending == old(pending)[payload.symbol := Stamped(payload.data.value, now)]
                && timerArmed
                && timersStarted == (if old(timerArmed) then old(timersStarted) else old(timersStarted) + 1)
              else
                && pending == old(pending)
                && timerArmed == old(timerArmed)
                && timersStarted == old(timersStarted)
    {
      if payload.AckObject? && payload.symbol != "" && payload.data.Some? {
        pending := pending[payload.symbol := Stamped(payload.data.value, now)];
        ScheduleFlush();
      }
    }

    /** The bulk snapshot's arrival. `None` stands for a failed request, a
        non-ok status or a body that is not an object: nothing changes. */
    method ApplySnapshot(response: Option<map<string, Snapshot>>, now: int)
      requires Valid()
      modifies this
      ensures Valid()
      ensures prices == if response.Some? then SeedMerge(SeedQuotes(response.value, now), old(prices)) else old(prices)
      ensures pending == old(pending) && timerArmed == old(timerArmed)
      ensures timersStarted == old(timersStarted)
    {
      if response.Some? {
        prices := SeedMerge(SeedQuotes(response.value, now), prices);
      }
    }
  }

  /** Three updates for one symbol before a flush publish only the third;
      the snapshot, whether it arrives before or after the flush, does not
      override the streamed quote. */
  method BatchScenario(v1: real, v2: real, v3: real, seedPrice: real)
  {
    var b := new PriceBatcher();
    b.ApplySnapshot(Some(map["AAPL" := Snapshot(seedPrice, 0.0, 0.0, 0.0)]), 0);
    var u1 := PriceUpdate("AAPL", v1, 0.0, 0.0, 0.0, 10);
    var u2 := PriceUpdate("AAPL", v2, 0.0, 0.0, 0.0, 20);
    var u3 := PriceUpdate("AAPL", v3, 0.0, 0.0, 0.0, 50);
    b.OnPriceUpdate(Some(u1));
    b.OnPriceUpdate(Some(u2));
    b.OnPriceUpdate(Some(u3));
    assert b.timersStarted == 1;
    b.Fire();
    assert b.prices["AAPL"].price == v3;
    b.ApplySnapshot(Some(map["AAPL" := Snapshot(seedPrice, 0.0, 0.0, 0.0)]), 60);
    assert b.prices["AAPL"].price == v3;
    b.FlushAndClear();
    assert b.prices["AAPL"].price == v3 && !b.timerArmed;
  }

  // ---------------------------------------------------------------------
  // The shared socket and the subscribe messages

  /** A symbol JavaScript treats as truthy: a non-empty string. */
  predicate Truthy(symbol: string) {
    symbol != ""
  }

  /** The `subscribe` messages `symbols.forEach(...)` emits: one per truthy
      symbol, in list order, duplicates included. */
  function SubscribeMessages(symbols: seq<string>): (r: seq<string>)
    ensures |r| <= |symbols|
    ensures forall i :: 0 <= i < |r| ==> r[i] != ""
  {
    Seqs.Filter(symbols, Truthy)
  }

  /** Each symbol is sent as many times as it occurs in the list, and an empty
      one never. */
  lemma SubscribeCount(symbols: seq<string>, s: string)
    ensures multiset(SubscribeMessages(symbols))[s] == if s == "" then 0 else multiset(symbols)[s]
  {
    Seqs.FilterCount(symbols, Truthy, s);
  }

  /** The messages of a concatenated list are those of its parts, in order. */
  lemma SubscribeAppend(a: seq<string>, b: seq<string>)
    ensures SubscribeMessages(a + b) == SubscribeMessages(a) + SubscribeMessages(b)
  {
    Seqs.FilterAppend(a, b, Truthy);
  }

  /** No de-duplication across re-runs: emitting a list twice sends each
      truthy symbol twice as often as it occurs in the list. */
  lemma EmitTwiceCount(sent: seq<string>, symbols: seq<string>, s: string)
    requires s != ""
    ensures multiset(sent + SubscribeMessages(symbols) + SubscribeMessages(symbols))[s]
         == multiset(sent)[s] + 2 * multiset(symbols)[s]
  {
    SubscribeCount(symbols, s);
  }

  /** The module-level socket singleton and the `connected` state. */
  class LiveSocket {
    /** `socketInstance !== null`. */
    var instance: bool
    /** `socketInstance.connected`: the transport is up. */
    var transportConnected: bool
    /** The hook's `connected` state. */
    var connected: bool
    /** The `symbols` the connect handler closed over when the socket was made. */
    var handlerSymbols: seq<string>
    /** The `subscribe` messages emitted so far, oldest first. */
    var sent: seq<string>
    /** How many sockets have been created (`io(...)` calls). */
    ghost var created: nat

    /** Without a socket there is no live transport. */
    ghost predicate Valid()
      reads this
    {
      !instance ==> !transportConnected
    }

    constructor ()
      ensures Valid()
      ensures !instance && !transportConnected && !connected
      ensures handlerSymbols == [] && sent == [] && created == 0
    {
      instance, transportConnected, connected := false, false, false;
      handlerSymbols, sent := [], [];
      created := 0;
    }

    /** One `forEach` emit loop: sends `subscribe` for each truthy symbol. */
    method EmitSubscriptions(symbols: seq<string>)
      modifies this`sent
      ensures sent == old(sent) + SubscribeMessages(symbols)
    {
      for i := 0 to |symbols|
        invariant sent == old(sent) + SubscribeMessages(symbols[..i])
      {
        SubscribeAppend(symbols[..i], [symbols[i]]);
        assert symbols[..i + 1] == symbols[..i] + [symbols[i]];
        if symbols[i] != "" {
          sent := sent + [symbols[i]];
        }
      }
      assert symbols[..|symbols|] == symbols;
    }

    /** The socket part of the hook's effect for `symbols`: creates the socket
        only when none exists (its handlers then close over `symbols`), and,
        when the transport is already up, subscribes to `symbols` right away. */
    method Attach(symbols: seq<string>)
      requires Valid()
      modifies this
      ensures Valid() && instance && connected == old(connected)
      ensures created == if old(instance) then old(created) else old(created) + 1
      ensures handlerSymbols == if old(instance) then old(handlerSymbols) else symbols
      ensures transportConnected == old(transportConnected)
      ensures sent == old(sent) + if old(transportConnected) then SubscribeMessages(symbols) else []
    {
      if !instance {
        instance := true;
        handlerSymbols := symbols;
        created := created + 1;
      }
      if instance && transportConnected {
        EmitSubscriptions(symbols);
      }
    }

    /** The `connect` event of the live socket: marks the hook connected and
        subscribes to the symbols its handler closed over; on a reconnect this
        re-sends them. */
    method OnConnect()
      requires Valid() && instance
      modifies this
      ensures Valid() && instance && connected && transportConnected
      ensures handlerSymbols == old(handlerSymbols) && created == old(created)
      ensures sent == old(sent) + SubscribeMessages(handlerSymbols)
    {
      connected := true;
      transportConnected := true;
      EmitSubscriptions(handlerSymbols);
    }

    /** The `disconnect` event of the live socket (a dropped transport). */
    method OnDrop()
      requires Valid() && instance
      modifies this
      ensures Valid() && instance && !connected && !transportConnected
      ensures handlerSymbols == old(handlerSymbols) && sent == old(sent) && created == old(created)
    {
      connected := false;
      transportConnected := false;
    }

    /** `disconnect()`: a no-op without a socket; otherwise closes it, forgets
        the instance and marks the hook disconnected. */
    method Disconnect()
      requires Valid()
      modifies this
      ensures Valid() && !instance && !transportConnected
      ensures connected == if old(instance) then false else old(connected)
      ensures handlerSymbols == old(handlerSymbols) && sent == old(sent) && created == old(created)
    {
      if instance {
        instance := false;
        transportConnected := false;
        connected := false;
      }
    }
  }

  /** A socket is made once however often the effect runs; after a transport
      drop the reconnect re-sends the first run's symbols, and an empty
      symbol is never sent. */
  method SocketScenario()
  {
    var s := new LiveSocket();
    s.Attach(["AAPL", "", "MSFT"]);
    s.Attach(["TSLA"]);
    assert s.created == 1 && s.sent == [];
    s.OnConnect();
    assert s.sent == ["AAPL", "MSFT"];
    s.Attach(["TSLA"]);
    assert s.sent == ["AAPL", "MSFT", "TSLA"];
    s.OnDrop();
    s.OnConnect();
    assert s.sent == ["AAPL", "MSFT", "TSLA", "AAPL", "MSFT"];
    s.Disconnect();
    s.Disconnect();
    assert !s.instance && !s.connected;
  }
}
