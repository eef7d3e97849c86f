/**
 * The request-side helpers of app.py: the price lookups behind
 * `/get_prices` and the two search endpoints. Every network call
 * (CoinGecko, yahoo_fin) is an oracle passed in; Flask's `request.args`
 * is a map and `jsonify` is left to the caller.
 */
module App {
  import opened Wrappers
  import opened Schema
  import opened PyStrings

  /** A `{'price': p, 'type': t}` entry of a prices reply. */
  datatype Quote = Quote(price: real, kind: AssetType)

  /** `request.args.get(key, '')`. */
  function Arg(args: map<string, string>, key: string): (v: string)
    ensures key in args ==> v == args[key]
    ensures key !in args ==> v == ""
  {
    if key in args then args[key] else ""
  }

  function Min(a: int, b: int): int
  {
    if a <= b then a else b
  }

  // ---------------------------------------------------------------- crypto

  /**
   * The outcome of the CoinGecko `simple/price` request: it raised (network
   * error, `raise_for_status`, JSON decoding) or it gave a JSON object
   * mapping each coin id to its prices by currency.
   */
  datatype PriceReply = PriceFailed | PriceBody(data: map<string, map<string, real>>)

  /** The dict comprehension over a reply; `{}` when a coin lacks `usd` (a `KeyError`). */
  function FromPriceReply(reply: PriceReply): (r: map<string, Quote>)
    ensures reply.PriceFailed? ==> r == map[]
    ensures reply.PriceBody? && (forall id :: id in reply.data ==> "usd" in reply.data[id]) ==>
      && r.Keys == reply.data.Keys
      && forall id :: id in r ==> r[id] == Quote(reply.data[id]["usd"], Crypto)
    ensures reply.PriceBody? && (exists id :: id in reply.data && "usd" !in reply.data[id]) ==> r == map[]
  {
    match reply
    case PriceFailed => map[]
    case PriceBody(data) =>
      if forall id :: id in data ==> "usd" in data[id] then
        map id | id in data :: Quote(data[id]["usd"], Crypto)
      else
        map[]
  }

  /**
   * `get_crypto_prices(symbols)`: no request for an empty list; otherwise
   * one request for the comma-joined ids, whose reply is mapped id by id
   * to crypto quotes of its `usd` price. Every failure gives `{}`.
   */
  function GetCryptoPrices(symbols: seq<string>, coingecko: string -> PriceReply): (r: map<string, Quote>)
    ensures symbols == [] ==> r == map[]
    ensures symbols != [] ==> r == FromPriceReply(coingecko(Join(symbols, ',')))
    ensures symbols != [] && coingecko(Join(symbols, ',')).PriceFailed? ==> r == map[]
    ensures forall id :: id in r ==> r[id].kind == Crypto
    ensures r != map[] ==>
      var reply := coingecko(Join(symbols, ','));
      && reply.PriceBody?
      && r.Keys == reply.data.Keys
      && forall id :: id in r ==> "usd" in reply.data[id] && r[id].price == reply.data[id]["usd"]
  {
    if symbols == [] then map[]
    else
      var symbolsStr := Join(symbols, ',');
      FromPriceReply(coingecko(symbolsStr))
  }

  /**
   * The request string names the list exactly: splitting it on commas
   * again and asking for those ids gives the same prices.
   */
  lemma CryptoPricesRequestRoundTrip(ids: seq<string>, coingecko: string -> PriceReply)
    requires ids != [] && forall id :: id in ids ==> ',' !in id
    ensures GetCryptoPrices(Split(Join(ids, ','), ','), coingecko) == GetCryptoPrices(ids, coingecko)
  {
    SplitJoin(ids, ',');
  }

  // ---------------------------------------------------------------- stocks

  /** What `stock_info.get_live_price` gives: it raises, returns None, or returns a number. */
  datatype LiveQuote = LiveRaised | LiveNone | LiveNumber(value: real)

  /** Python truthiness of the returned price: a non-zero number. */
  predicate Truthy(q: LiveQuote)
    ensures Truthy(q) ==> q.LiveNumber?
    ensures q.LiveNumber? ==> (Truthy(q) <==> q.value != 0.0)
  {
    q.LiveNumber? && q.value != 0.0
  }

  /**
   * The dict `get_stock_prices(symbols)` returns, where `live(i)` is the
   * answer to the call for `symbols[i]`: each truthy answer (re)sets the
   * symbol's entry, anything else leaves the dict alone.
   */
  function StockPrices(symbols: seq<string>, live: nat -> LiveQuote): (data: map<string, Quote>)
    ensures forall k :: k in data ==> k in symbols && data[k].kind == Stock
  {
    if symbols == [] then map[]
    else
      var n := |symbols| - 1;
      var data := StockPrices(symbols[..n], live);
      if Truthy(live(n)) then data[symbols[n] := Quote(live(n).value, Stock)] else data
  }

  /**
   * A symbol has an entry exactly when some call for it returned a truthy
   * price: a failed or falsy call for one symbol does not affect the others.
   */
  lemma {:induction false} StockPricesKeys(symbols: seq<string>, live: nat -> LiveQuote, k: string)
    ensures k in StockPrices(symbols, live) <==> exists i :: 0 <= i < |symbols| && symbols[i] == k && Truthy(live(i))
  {
    if symbols != [] {
      var n := |symbols| - 1;
      StockPricesKeys(symbols[..n], live, k);
      if k in StockPrices(symbols[..n], live) {
        var i :| 0 <= i < n && symbols[..n][i] == k && Truthy(live(i));
        assert symbols[i] == k;
      }
      if exists i :: 0 <= i < |symbols| && symbols[i] == k && Truthy(live(i)) {
        var i :| 0 <= i < |symbols| && symbols[i] == k && Truthy(live(i));
        if i < n {
          assert symbols[..n][i] == k;
        }
      }
    }
  }

  /** A symbol's entry holds the price of the last truthy call for it. */
  lemma {:induction false} StockPricesLastWins(symbols: seq<string>, live: nat -> LiveQuote, i: nat)
    requires i < |symbols| && Truthy(live(i))
    requires forall j :: i < j < |symbols| && symbols[j] == symbols[i] ==> !Truthy(live(j))
    ensures symbols[i] in StockPrices(symbols, live)
    ensures StockPrices(symbols, live)[symbols[i]] == Quote(live(i).value, Stock)
  {
    var n := |symbols| - 1;
    if i < n {
      StockPricesLastWins(symbols[..n], live, i);
    }
  }

  /** `get_stock_prices(symbols)`: one live-price call per list entry, in order. */
  method GetStockPrices(symbols: seq<string>, live: nat -> LiveQuote) returns (data: map<string, Quote>)
    ensures data == StockPrices(symbols, live)
  {
    data := map[];
    var i := 0;
    while i < |symbols|
      invariant 0 <= i <= |symbols|
      invariant data == StockPrices(symbols[..i], live)
    {
      var symbol := symbols[i];
      assert symbols[..i + 1][..i] == symbols[..i];
      var currentPrice := live(i);
      if Truthy(currentPrice) {
        data := data[symbol := Quote(currentPrice.value, Stock)];
      }
      i := i + 1;
    }
    assert symbols[..i] == symbols;
  }

  // ---------------------------------------------------------------- /get_prices

  /** The crypto half of `/get_prices`: skipped when the stripped `crypto` parameter is empty. */
  function CryptoPart(args: map<string, string>, coingecko: string -> PriceReply): map<string, Quote>
  {
    var cryptoSymbols := Strip(Arg(args, "crypto"));
    if cryptoSymbols == "" then map[] else GetCryptoPrices(Split(cryptoSymbols, ','), coingecko)
  }

  /** The stock half of `/get_prices`: skipped when the stripped `stocks` parameter is empty. */
  function StockPart(args: map<string, string>, live: nat -> LiveQuote): map<string, Quote>
  {
    var stockSymbols := Strip(Arg(args, "stocks"));
    if stockSymbols == "" then map[] else StockPrices(Split(stockSymbols, ','), live)
  }

  /**
   * Splitting the stripped `crypto` parameter on commas and joining the
   * pieces again inside `get_crypto_prices` asks CoinGecko for exactly the
   * stripped parameter.
   */
  lemma CryptoPartRequestsParam(args: map<string, string>, coingecko: string -> PriceReply)
    ensures var c := Strip(Arg(args, "crypto"));
      CryptoPart(args, coingecko) == if c == "" then map[] else FromPriceReply(coingecko(c))
  {
    var c := Strip(Arg(args, "crypto"));
    JoinSplit(c, ',');
  }

  /** A missing or all-whitespace `crypto` parameter makes no CoinGecko request. */
  lemma BlankCryptoParamNoFetch(args: map<string, string>, coingecko: string -> PriceReply)
    requires forall k :: 0 <= k < |Arg(args, "crypto")| ==> IsSpace(Arg(args, "crypto")[k])
    ensures CryptoPart(args, coingecko) == map[]
  {
    StripEmptyIffAllSpace(Arg(args, "crypto"));
  }

  /** The `if crypto_symbols:` block of `/get_prices`: what it hands to `prices.update`. */
  method FetchCryptoPart(args: map<string, string>, coingecko: string -> PriceReply) returns (crypto: map<string, Quote>)
    ensures crypto == CryptoPart(args, coingecko)
  {
    var cryptoSymbols := Strip(Arg(args, "crypto"));
    crypto := map[];
    if cryptoSymbols != "" {
      var cryptoList := Split(cryptoSymbols, ',');
      crypto := GetCryptoPrices(cryptoList, coingecko);
    }
  }

  /** The `if stock_symbols:` block of `/get_prices`: what it hands to `prices.update`. */
  method FetchStockPart(args: map<string, string>, live: nat -> LiveQuote) returns (stocks: map<string, Quote>)
    ensures stocks == StockPart(args, live)
  {
    var stockSymbols := Strip(Arg(args, "stocks"));
    stocks := map[];
    if stockSymbols != "" {
      var stockList := Split(stockSymbols, ',');
      stocks := GetStockPrices(stockList, live);
    }
  }

  /**
   * `/get_prices`: the crypto results are merged into `prices` first and
   * the stock results second, so a key in both ends with its stock entry.
   */
  method GetPrices(args: map<string, string>, coingecko: string -> PriceReply, live: nat -> LiveQuote)
    returns (prices: map<string, Quote>)
    ensures UpdatedWith(prices, CryptoPart(args, coingecko), StockPart(args, live))
  {
    prices := map[];
    var crypto := FetchCryptoPart(args, coingecko);
    UpdateEmpty(crypto);
    prices := prices + crypto;
    var stocks := FetchStockPart(args, live);
    MergeKeepsLater(crypto, stocks);
    prices := prices + stocks;
  }

  /**
   * `merged` is `earlier` updated with `later`: it has the keys of both,
   * and the later dict's value where both have a key.
   */
  predicate UpdatedWith(merged: map<string, Quote>, earlier: map<string, Quote>, later: map<string, Quote>)
  {
    && merged.Keys == earlier.Keys + later.Keys
    && (forall k :: k in later ==> merged[k] == later[k])
    && (forall k :: k in earlier && k !in later ==> merged[k] == earlier[k])
  }

  /** Dafny's map union is Python's `dict.update`. */
  lemma MergeKeepsLater(earlier: map<string, Quote>, later: map<string, Quote>)
    ensures UpdatedWith(earlier + later, earlier, later)
  {
  }

  /** Updating an empty dict gives a copy of the update. */
  lemma UpdateEmpty(m: map<string, Quote>)
    ensures map[] + m == m
  {
  }

  // ---------------------------------------------------------------- searches

  /** `{'id': ..., 'name': ...}` of one coin found. */
  datatype CoinHit = CoinHit(id: string, name: string)

  /**
   * The outcome of the CoinGecko `search` request: it raised, or it gave a
   * JSON object whose `coins` member (None when absent) lists coin objects.
   */
  datatype SearchReply = SearchFailed | SearchBody(coins: Option<seq<map<string, string>>>)

  /** `data.get('coins', [])`. */
  function CoinsOf(reply: SearchReply): (coins: seq<map<string, string>>)
    ensures reply.SearchBody? && reply.coins.Some? ==> coins == reply.coins.value
    ensures reply.SearchFailed? || reply.coins.None? ==> coins == []
  {
    if reply.SearchBody? && reply.coins.Some? then reply.coins.value else []
  }

  /** How many coins `search_coins` reports at most. */
  const MAX_COINS: nat := 5

  /**
   * `/search_coins`: `[]` for an empty query; otherwise the first five
   * coins of the reply, in order, each cut down to its id and name. A
   * failed request, or a coin among those five lacking `id` or `name`,
   * gives `[]`.
   */
  function SearchCoins(args: map<string, string>, search: string -> SearchReply): (r: seq<CoinHit>)
    ensures Arg(args, "q") == "" ==> r == []
    ensures search(Arg(args, "q")).SearchFailed? ==> r == []
    ensures |r| <= MAX_COINS
    ensures var coins := CoinsOf(search(Arg(args, "q")));
      && Arg(args, "q") != ""
      && search(Arg(args, "q")).SearchBody?
      && (forall i :: 0 <= i < Min(MAX_COINS, |coins|) ==> "id" in coins[i] && "name" in coins[i])
      ==>
      && |r| == Min(MAX_COINS, |coins|)
      && forall i :: 0 <= i < |r| ==> r[i] == CoinHit(coins[i]["id"], coins[i]["name"])
    ensures r != [] ==>
      var coins := CoinsOf(search(Arg(args, "q")));
      && |r| == Min(MAX_COINS, |coins|)
      && forall i :: 0 <= i < |r| ==> "id" in coins[i] && "name" in coins[i] && r[i] == CoinHit(coins[i]["id"], coins[i]["name"])
  {
    var query := Arg(args, "q");
    if query == "" then []
    else
      var reply := search(query);
      if reply.SearchFailed? then []
      else
        var coins := CoinsOf(reply);
        var top := coins[..Min(MAX_COINS, |coins|)];
        if forall c :: c in top ==> "id" in c && "name" in c then
          seq(|top|, i requires 0 <= i < |top| => CoinHit(top[i]["id"], top[i]["name"]))
        else
          []
  }

  /** Coins past the fifth never influence the search result. */
  lemma SearchCoinsIgnoresTail(args: map<string, string>, search1: string -> SearchReply, search2: string -> SearchReply)
    requires var q := Arg(args, "q");
      && search1(q).SearchFailed? == search2(q).SearchFailed?
      && var c1 := CoinsOf(search1(q)); var c2 := CoinsOf(search2(q));
         c1[..Min(MAX_COINS, |c1|)] == c2[..Min(MAX_COINS, |c2|)]
    ensures SearchCoins(args, search1) == SearchCoins(args, search2)
  {
  }

  /** The coin object a hit is cut down from: exactly its `id` and `name`. */
  function CoinObject(h: CoinHit): (c: map<string, string>)
    ensures c.Keys == {"id", "name"} && c["id"] == h.id && c["name"] == h.name
  {
    map["id" := h.id, "name" := h.name]
  }

  /** A reply listing at most five coins is reported back as it stands. */
  lemma SearchCoinsRoundTrip(args: map<string, string>, search: string -> SearchReply, hits: seq<CoinHit>)
    requires Arg(args, "q") != "" && |hits| <= MAX_COINS
    requires search(Arg(args, "q")) == SearchBody(Some(seq(|hits|, i requires 0 <= i < |hits| => CoinObject(hits[i]))))
    ensures SearchCoins(args, search) == hits
  {
  }

  /** `{'symbol': ..., 'name': ...}` of the stock found. */
  datatype StockHit = StockHit(symbol: string, name: string)

  /**
   * `/search_stocks`: `[]` for an empty query; otherwise exactly one hit
   * whose symbol and name are both the upper-cased query.
   */
  function SearchStocks(args: map<string, string>): (r: seq<StockHit>)
    ensures Arg(args, "q") == "" <==> r == []
    ensures r != [] ==> |r| == 1 && r[0].symbol == r[0].name
    ensures r != [] ==> r[0] == StockHit(Upper(Arg(args, "q")), Upper(Arg(args, "q")))
    ensures r != [] ==> |r[0].symbol| == |Arg(args, "q")|
    ensures r != [] ==> forall i :: 0 <= i < |r[0].symbol| ==> !IsAsciiLower(r[0].symbol[i])
  {
    var query := Arg(args, "q");
    if query == "" then [] else [StockHit(Upper(query), Upper(query))]
  }

  /** Searching for a symbol and for its upper-cased form gives the same hit. */
  lemma SearchStocksCaseInsensitive(args: map<string, string>)
    ensures SearchStocks(args["q" := Upper(Arg(args, "q"))]) == SearchStocks(args)
  {
    UpperIdempotent(Arg(args, "q"));
  }
}
