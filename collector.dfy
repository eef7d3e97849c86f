/**
 * The collection round, the retention purge and one iteration of the
 * collector loop of data_collector.py. The price source (yfinance) and
 * the reachability of the database are oracles passed in; the clock is a
 * timestamp parameter read once per call.
 */
module Collector {
  import opened Wrappers
  import opened Schema
  import opened Store

  /** The tracked universe: five stocks, then five crypto pairs, in visiting order. */
  const STOCKS: seq<string> := ["AAPL", "MSFT", "GOOGL", "AMZN", "NVDA"]
  const CRYPTO: seq<string> := ["BTC-USD", "ETH-USD", "BNB-USD", "SOL-USD", "XRP-USD"]

  const HOUR: int := 60 * 60 * 1000
  /** `timedelta(hours=24)` in milliseconds. */
  const RETENTION: int := 24 * HOUR

  /**
   * One attribute of a ticker's `fast_info`: absent (`hasattr` is false),
   * a number, or present but something `float()` raises on (such as None).
   */
  datatype Attr = Missing | Number(value: real) | NotNumber

  /** What `yf.Ticker(symbol).fast_info` yields: it raises, or an info object. */
  datatype FastInfo = Unavailable | Info(lastPrice: Attr, volume: Attr)

  /** `float(info.x if hasattr(info, 'x') else 0)`, None when `float` raises. */
  function AsFloat(a: Attr): (r: Option<real>)
    ensures r.None? <==> a.NotNumber?
    ensures a.Number? ==> r == Some(a.value)
    ensures a.Missing? ==> r == Some(0.0)
  {
    match a
    case Missing => Some(0.0)
    case Number(v) => Some(v)
    case NotNumber => None
  }

  /**
   * The record the loop body builds for `symbol`, or None when fetching or
   * converting raised. A missing price or volume becomes 0 and the record
   * is still built: there is no positivity check.
   */
  function BuildRecord(symbol: string, kind: AssetType, timestamp: int, info: FastInfo): (r: Option<PriceRecord>)
    ensures r.Some? <==> Converts(info)
    ensures r.Some? ==> r.value.symbol == symbol && r.value.kind == kind && r.value.timestamp == timestamp
    ensures r.Some? && info.lastPrice.Missing? ==> r.value.price == 0.0
    ensures r.Some? && info.volume.Missing? ==> r.value.volume == 0.0
    ensures r.Some? && info.lastPrice.Number? ==> r.value.price == info.lastPrice.value
    ensures r.Some? && info.volume.Number? ==> r.value.volume == info.volume.value
  {
    match info
    case Unavailable => None
    case Info(lastPrice, volume) =>
      match (AsFloat(lastPrice), AsFloat(volume))
      case (Some(p), Some(v)) => Some(PriceRecord(symbol, p, v, timestamp, kind))
      case _ => None
  }

  /** Whether the info was obtained and both of its attributes pass through `float()`. */
  predicate Converts(info: FastInfo)
  {
    info.Info? && !info.lastPrice.NotNumber? && !info.volume.NotNumber?
  }

  /** Whether the round stores a record for `symbol`: fetching succeeded and so did `insert_one`. */
  predicate Stored(symbol: string, quote: string -> FastInfo, storeUp: string -> bool)
  {
    Converts(quote(symbol)) && storeUp(symbol)
  }

  /** The symbols of `symbols` that get a record, in list order. */
  function Succeeding(symbols: seq<string>, quote: string -> FastInfo, storeUp: string -> bool): (ok: seq<string>)
    ensures |ok| <= |symbols|
  {
    if symbols == [] then []
    else
      var s := symbols[|symbols| - 1];
      Succeeding(symbols[..|symbols| - 1], quote, storeUp) + (if Stored(s, quote, storeUp) then [s] else [])
  }

  /** The records one `for symbol in symbols` loop appends, in order. */
  function LoopRecords(symbols: seq<string>, kind: AssetType, timestamp: int,
                       quote: string -> FastInfo, storeUp: string -> bool): (rs: seq<PriceRecord>)
    ensures |rs| <= |symbols|
    ensures forall i :: 0 <= i < |rs| ==> rs[i].timestamp == timestamp && rs[i].kind == kind
  {
    if symbols == [] then []
    else
      var s := symbols[|symbols| - 1];
      var init := LoopRecords(symbols[..|symbols| - 1], kind, timestamp, quote, storeUp);
      match BuildRecord(s, kind, timestamp, quote(s))
      case None => init
      case Some(r) => if storeUp(s) then init + [r] else init
  }

  /** The records one `fetch_and_store_prices` call appends: the stock loop's, then the crypto loop's. */
  function RoundRecords(timestamp: int, quote: string -> FastInfo, storeUp: string -> bool): (rs: seq<PriceRecord>)
    ensures |rs| <= |STOCKS| + |CRYPTO|
    ensures forall i :: 0 <= i < |rs| ==> rs[i].timestamp == timestamp
  {
    LoopRecords(STOCKS, Stock, timestamp, quote, storeUp) + LoopRecords(CRYPTO, Crypto, timestamp, quote, storeUp)
  }

  function Symbols(rs: seq<PriceRecord>): (ss: seq<string>)
    ensures |ss| == |rs| && forall i :: 0 <= i < |rs| ==> ss[i] == rs[i].symbol
  {
    seq(|rs|, i requires 0 <= i < |rs| => rs[i].symbol)
  }

  predicate Distinct(s: seq<string>)
  {
    forall i, j :: 0 <= i < j < |s| ==> s[i] != s[j]
  }

  /**
   * A loop's records are, in order, exactly the records built for the
   * symbols that succeed: each one is what the loop body builds for its
   * symbol from that symbol's quote.
   */
  lemma {:induction false} LoopRecordsFollowList(symbols: seq<string>, kind: AssetType, timestamp: int,
                                                 quote: string -> FastInfo, storeUp: string -> bool)
    ensures var rs := LoopRecords(symbols, kind, timestamp, quote, storeUp);
      && Symbols(rs) == Succeeding(symbols, quote, storeUp)
      && forall i :: 0 <= i < |rs| ==> BuildRecord(rs[i].symbol, kind, timestamp, quote(rs[i].symbol)) == Some(rs[i])
  {
    if symbols != [] {
      LoopRecordsFollowList(symbols[..|symbols| - 1], kind, timestamp, quote, storeUp);
    }
  }

  /** In a duplicate-free list, a symbol occurs among the succeeding ones once if it succeeds, else never. */
  lemma {:induction false} SucceedingOnce(symbols: seq<string>, quote: string -> FastInfo, storeUp: string -> bool, s: string)
    requires Distinct(symbols)
    ensures multiset(Succeeding(symbols, quote, storeUp))[s] == if s in symbols && Stored(s, quote, storeUp) then 1 else 0
  {
    if symbols != [] {
      var init := symbols[..|symbols| - 1];
      var last := symbols[|symbols| - 1];
      SucceedingOnce(init, quote, storeUp, s);
      assert symbols == init + [last];
      assert last !in init;
    }
  }

  /** No symbol is tracked twice, as a stock or as a crypto pair. */
  lemma UniverseDistinct()
    ensures Distinct(STOCKS) && Distinct(CRYPTO)
    ensures forall s :: s in STOCKS ==> s !in CRYPTO
  {
  }

  /** Over two duplicate-free, disjoint lists, a succeeding symbol occurs once and any other never. */
  lemma SucceedingOnceInBoth(a: seq<string>, b: seq<string>, quote: string -> FastInfo,
                             storeUp: string -> bool, s: string)
    requires Distinct(a) && Distinct(b) && forall x :: x in a ==> x !in b
    ensures multiset(Succeeding(a, quote, storeUp) + Succeeding(b, quote, storeUp))[s]
         == if s in a + b && Stored(s, quote, storeUp) then 1 else 0
  {
    SucceedingOnce(a, quote, storeUp, s);
    SucceedingOnce(b, quote, storeUp, s);
  }

  /**
   * Every tracked symbol whose fetch and insert succeed gets exactly one
   * record in a round; every other symbol gets none.
   */
  lemma RoundOncePerSymbol(timestamp: int, quote: string -> FastInfo, storeUp: string -> bool, s: string)
    ensures multiset(Symbols(RoundRecords(timestamp, quote, storeUp)))[s]
         == if s in STOCKS + CRYPTO && Stored(s, quote, storeUp) then 1 else 0
  {
    RoundOrder(timestamp, quote, storeUp);
    UniverseDistinct();
    SucceedingOnceInBoth(STOCKS, CRYPTO, quote, storeUp, s);
  }

  /**
   * A round writes the stock records first and the crypto records after,
   * each group in list order and tagged with its kind.
   */
  lemma RoundOrder(timestamp: int, quote: string -> FastInfo, storeUp: string -> bool)
    ensures var rs := RoundRecords(timestamp, quote, storeUp);
      var n := |Succeeding(STOCKS, quote, storeUp)|;
      && Symbols(rs) == Succeeding(STOCKS, quote, storeUp) + Succeeding(CRYPTO, quote, storeUp)
      && (forall i :: 0 <= i < n ==> rs[i].kind == Stock)
      && (forall i :: n <= i < |rs| ==> rs[i].kind == Crypto)
  {
    var stocks := LoopRecords(STOCKS, Stock, timestamp, quote, storeUp);
    var crypto := LoopRecords(CRYPTO, Crypto, timestamp, quote, storeUp);
    LoopRecordsFollowList(STOCKS, Stock, timestamp, quote, storeUp);
    LoopRecordsFollowList(CRYPTO, Crypto, timestamp, quote, storeUp);
    assert Symbols(stocks + crypto) == Symbols(stocks) + Symbols(crypto);
  }

  /** A succeeding symbol's record is in its loop's output. */
  lemma {:induction false} LoopRecordsContain(symbols: seq<string>, kind: AssetType, timestamp: int,
                                              quote: string -> FastInfo, storeUp: string -> bool, s: string)
    requires s in symbols && Stored(s, quote, storeUp)
    ensures BuildRecord(s, kind, timestamp, quote(s)).Some?
    ensures BuildRecord(s, kind, timestamp, quote(s)).value in LoopRecords(symbols, kind, timestamp, quote, storeUp)
  {
    var init := symbols[..|symbols| - 1];
    if s != symbols[|symbols| - 1] {
      assert symbols == init + [symbols[|symbols| - 1]];
      LoopRecordsContain(init, kind, timestamp, quote, storeUp, s);
    }
  }

  /**
   * A stock whose info lacks `last_price` and `volume` is still stored,
   * with price and volume 0, when the insert goes through.
   */
  lemma MissingQuoteStoredAsZero(timestamp: int, quote: string -> FastInfo, storeUp: string -> bool, s: string)
    requires s in STOCKS && quote(s) == Info(Missing, Missing) && storeUp(s)
    ensures PriceRecord(s, 0.0, 0.0, timestamp, Stock) in RoundRecords(timestamp, quote, storeUp)
  {
    LoopRecordsContain(STOCKS, Stock, timestamp, quote, storeUp, s);
  }

  /** Every record a round writes passes the collection's schema validator. */
  lemma RoundRecordsValid(timestamp: int, quote: string -> FastInfo, storeUp: string -> bool)
    ensures forall r :: r in RoundRecords(timestamp, quote, storeUp) ==> IsPriceDocument(ToDocument(r))
  {
    forall r | r in RoundRecords(timestamp, quote, storeUp) ensures IsPriceDocument(ToDocument(r)) {
      PriceSchemaMeaning(ToDocument(r));
    }
  }

  /**
   * A purge whose cutoff is not later than the round's timestamp keeps the
   * whole round: here the purge runs less than 24 hours after the round began.
   */
  lemma PurgeKeepsRecentRound(before: seq<PriceRecord>, roundStart: int, purgeNow: int,
                              quote: string -> FastInfo, storeUp: string -> bool)
    requires purgeNow - RETENTION <= roundStart
    ensures var round := RoundRecords(roundStart, quote, storeUp);
      Kept(before + round, purgeNow - RETENTION) == Kept(before, purgeNow - RETENTION) + round
  {
    var round := RoundRecords(roundStart, quote, storeUp);
    KeptAppend(before, round, purgeNow - RETENTION);
    KeptAllFresh(round, purgeNow - RETENTION);
  }

  /** One `for symbol in symbols` loop of `fetch_and_store_prices`. */
  method CollectLoop(store: PriceCollection, symbols: seq<string>, kind: AssetType, timestamp: int,
                     quote: string -> FastInfo, storeUp: string -> bool)
    modifies store
    ensures store.records == old(store.records) + LoopRecords(symbols, kind, timestamp, quote, storeUp)
  {
    var i := 0;
    while i < |symbols|
      invariant 0 <= i <= |symbols|
      invariant store.records == old(store.records) + LoopRecords(symbols[..i], kind, timestamp, quote, storeUp)
    {
      var symbol := symbols[i];
      assert symbols[..i + 1][..i] == symbols[..i];
      var info := quote(symbol);
      if info.Info? {
        var price := AsFloat(info.lastPrice);
        var volume := AsFloat(info.volume);
        if price.Some? && volume.Some? {
          var priceData := PriceRecord(symbol, price.value, volume.value, timestamp, kind);
          var inserted := store.InsertOne(priceData, storeUp(symbol));
        }
      }
      i := i + 1;
    }
    assert symbols[..i] == symbols;
  }

  /**
   * `fetch_and_store_prices`: the clock is read once, as `timestamp`, and
   * the round only appends; what was stored before is unchanged.
   */
  method FetchAndStorePrices(store: PriceCollection, timestamp: int,
                             quote: string -> FastInfo, storeUp: string -> bool)
    modifies store
    ensures store.records == old(store.records) + RoundRecords(timestamp, quote, storeUp)
    ensures |store.records| <= |old(store.records)| + 10
  {
    CollectLoop(store, STOCKS, Stock, timestamp, quote, storeUp);
    CollectLoop(store, CRYPTO, Crypto, timestamp, quote, storeUp);
  }

  /**
   * `clear_old_data`: deletes the records older than `now` minus 24 hours;
   * a database failure is absorbed and leaves the records as they were.
   */
  method ClearOldData(store: PriceCollection, now: int, reachable: bool)
    modifies store
    ensures store.records == if reachable then Kept(old(store.records), now - RETENTION) else old(store.records)
    ensures reachable ==> forall r :: r in store.records ==> r.timestamp >= now - RETENTION
  {
    var cutoffTime := now - RETENTION;
    var ok, deletedCount := store.DeleteOlderThan(cutoffTime, reachable);
  }

  /**
   * One pass of the `while True` loop of `run_collector`: a round at
   * `roundStart`, then (after the hour's sleep) a purge at `purgeNow`.
   */
  method RunCollectorIteration(store: PriceCollection, roundStart: int, purgeNow: int,
                               quote: string -> FastInfo, storeUp: string -> bool, purgeReachable: bool)
    modifies store
    ensures var grown := old(store.records) + RoundRecords(roundStart, quote, storeUp);
      store.records == if purgeReachable then Kept(grown, purgeNow - RETENTION) else grown
  {
    FetchAndStorePrices(store, roundStart, quote, storeUp);
    ClearOldData(store, purgeNow, purgeReachable);
  }
}
