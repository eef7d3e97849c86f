# stockstream price pipeline in Dafny

This project models the core of stockstream, a small service that tracks a fixed universe of five stocks and five crypto pairs. The model covers three parts:

- **The collector** (`data_collector.py`). One collection round reads the clock once. It then visits `STOCKS` and after them `CRYPTO`, in list order. For each symbol it asks yfinance for `fast_info` and inserts one `{symbol, price, volume, timestamp, type}` record into the `stock_crypto_prices` collection. A failure on one symbol skips only that symbol. The retention purge deletes the records older than 24 hours. One iteration of `run_collector` runs a round and then a purge.
- **The record schema** (`database.py`). `price_schema` is kept as data (`Schema.PRICE_SCHEMA`). A generic `$jsonSchema` validator (`Schema.Validates`) gives it its meaning.
- **The request-side helpers** (`app.py`). These are `get_crypto_prices`, `get_stock_prices`, the parsing and merging of `/get_prices`, and the result shaping of `/search_coins` and `/search_stocks`.

Files and modules:

- `wrappers.dfy` (`Wrappers`): `Option`.
- `py_strings.dfy` (`PyStrings`): Python's `str.strip()`, `split(',')`, `','.join` and `upper()`.
- `schema.dfy` (`Schema`): BSON values, the `type` enum, `price_schema` and its validator.
- `store.dfy` (`Store`): the price record, its BSON document, the collection as a class (`PriceCollection`) with `insert_one` and `delete_many`, and the retention filter `Kept`.
- `collector.dfy` (`Collector`): the symbol universe, the collection round, `clear_old_data` and one collector iteration.
- `app.dfy` (`App`): the request-side helpers.

Modelling choices:

- Nothing outside the process is modelled directly. Each outside party becomes a parameter:
  - yfinance: `quote: string -> FastInfo`. The attribute `last_price` or `volume` is absent, a number, or something `float()` raises on.
  - whether each `insert_one` reaches the server: `storeUp: string -> bool`.
  - whether `delete_many` reaches the server: a `bool`.
  - yahoo_fin's live price for the i-th call of a `get_stock_prices` run: `live: nat -> LiveQuote`. It is indexed by call, because a request may name a symbol twice.
  - the two CoinGecko requests: functions from the requested string to the decoded reply or a failure.
  - the clock: an integer timestamp in milliseconds, which is the precision of a BSON date.
- Prices and volumes are `real`. The code does no arithmetic on them.
- The collection is a class whose `records: seq<PriceRecord>` field the methods reassign. The round appends to it. The purge filters it in place.
- Three behaviours of the code are worth stating outright, and the model keeps them:
  - There is no positivity filter. `fetch_and_store_prices` stores a missing `last_price` or `volume` as 0 and inserts the record anyway (`Collector.MissingQuoteStoredAsZero`).
  - `run_collector` (data_collector.py:95-101) purges after every round. scheduler.py, which is not part of this model, purges once a day instead.
  - No lookup raises when every symbol fails. `get_stock_prices` and `get_crypto_prices` return `{}` instead.

## Model

| member | source | states |
|---|---|---|
| `PyStrings.StripMeaning` | app.py:77-78 | `strip()` returns the middle of the parameter between a run of leading and a run of trailing whitespace, and neither end of the result is whitespace |
| `PyStrings.StripIdempotent` | app.py:77-78 | stripping an already stripped parameter changes nothing |
| `PyStrings.StripEmptyIffAllSpace` | app.py:77-78 | the stripped parameter is empty exactly when the raw parameter is all whitespace (or missing, which defaults to `''`) |
| `PyStrings.Split` | app.py:85 | `split(',')` always yields at least one piece, and no piece contains a comma |
| `PyStrings.JoinSplit` | app.py:30 | joining the comma-split pieces with `','` gives back the split string exactly |
| `PyStrings.SplitJoin` | app.py:85 | splitting the `','`-join of a non-empty list of comma-free ids gives back the list |
| `PyStrings.Upper` | app.py:132-133 | `upper()` keeps the length, leaves no lower-case ASCII letter, maps each lower-case ASCII letter to the letter 32 code points below it, and leaves every other character unchanged |
| `PyStrings.UpperFixedIffNoLower` | app.py:132-133 | a string is its own upper case exactly when it has no lower-case ASCII letter |
| `PyStrings.UpperIdempotent` | app.py:132-133 | upper-casing twice is the same as upper-casing once |
| `Schema.TypeTag` | database.py:38-41 | the tag stored for either asset kind is one of the enum's two strings, and it is `'stock'` exactly for stocks |
| `Schema.PriceSchemaMeaning` | database.py:21-52 | a document passes `price_schema` exactly when it has string `symbol`, double `price`, date `timestamp`, `type` in `{'stock','crypto'}`, and `volume`/`change_24h` are doubles when present |
| `Schema.TypeOutsideEnumRejected` | database.py:38-41 | a document whose `type` is neither `'stock'` nor `'crypto'` fails the validator |
| `Store.ToDocument` | data_collector.py:50-56 | the dict the collector builds has exactly the five fields and passes the collection's validator |
| `Store.Kept` | data_collector.py:90 | the records left by `delete_many` are no more than before, and none is timestamped before the cutoff |
| `Store.KeptMembership` | data_collector.py:90 | after the purge a record is present exactly when it was present before and its timestamp is at or after the cutoff |
| `Store.KeptAllFresh` | data_collector.py:90 | a purge deletes nothing from records that are all at or after the cutoff |
| `Store.PurgeIdempotent` | data_collector.py:89-90 | purging twice with the same cutoff deletes nothing the second time |
| `Store.KeptAppend` | data_collector.py:90 | the purge filters each part of the collection independently, preserving order |
| `Store.KeptLaterCutoff` | data_collector.py:89-90 | a purge with an earlier cutoff followed by one with a later cutoff leaves what the later purge alone would |
| `Store.PriceCollection.InsertOne` | data_collector.py:58 | `insert_one` appends the record when the server is reachable, and otherwise raises and changes nothing |
| `Store.PriceCollection.DeleteOlderThan` | data_collector.py:90-91 | `delete_many({'timestamp': {'$lt': cutoff}})` leaves exactly `Kept(old, cutoff)` and reports the number of records removed; an unreachable server changes nothing |
| `Collector.AsFloat` | data_collector.py:47-48 | `float(... if hasattr(...) else 0)` fails exactly on a value `float()` rejects; a number passes unchanged and an absent attribute becomes 0 |
| `Collector.BuildRecord` | data_collector.py:44-56 | a record is built exactly when the ticker info was obtained and both attributes convert with `float()`; it carries the symbol, the kind and the round's timestamp; its price and volume are the quoted numbers, or 0 when an attribute is missing |
| `Collector.LoopRecords` | data_collector.py:43-62 | one loop appends at most one record per symbol, all with the round's timestamp and the loop's kind |
| `Collector.RoundRecords` | data_collector.py:37-84 | a round appends at most `len(STOCKS) + len(CRYPTO)` = 10 records, all with the one timestamp read at line 39 |
| `Collector.LoopRecordsFollowList` | data_collector.py:43-62 | a loop's records are, in list order, those of the symbols whose fetch and insert succeed, each one being the record built from its own symbol's quote |
| `Collector.SucceedingOnce` | data_collector.py:43-62 | in a duplicate-free list, a symbol appears among the stored symbols once if its fetch and insert succeed, and never otherwise |
| `Collector.UniverseDistinct` | data_collector.py:34-35 | `STOCKS` and `CRYPTO` each have no duplicates and share no symbol |
| `Collector.SucceedingOnceInBoth` | data_collector.py:43-84 | over the two loops together, a symbol is stored once if it is tracked and succeeds, and never otherwise |
| `Collector.RoundOncePerSymbol` | data_collector.py:43-84 | in one round every tracked symbol whose fetch and insert succeed gets exactly one record; failures skip only their own symbol, and untracked symbols get none |
| `Collector.RoundOrder` | data_collector.py:43-84 | a round writes the stock records first and the crypto records after, each group in list order, tagged `'stock'` and `'crypto'` respectively |
| `Collector.LoopRecordsContain` | data_collector.py:43-62 | the record built for a succeeding symbol is among the records its loop appends |
| `Collector.MissingQuoteStoredAsZero` | data_collector.py:47-48 | a stock whose info lacks `last_price` and `volume` is still stored, with price 0 and volume 0, when the insert succeeds (there is no positivity filter) |
| `Collector.RoundRecordsValid` | data_collector.py:50-58 | every record a round inserts satisfies the collection's schema |
| `Collector.PurgeKeepsRecentRound` | data_collector.py:98-101 | when the purge runs less than 24 hours after the round began, the purge keeps every record of that round and filters only older data |
| `Collector.CollectLoop` | data_collector.py:43-62 | one `for symbol in ...` loop only appends, and appends exactly `LoopRecords` |
| `Collector.FetchAndStorePrices` | data_collector.py:37-84 | a round only appends: the records already stored are unchanged, then the round's records follow, at most 10 of them |
| `Collector.ClearOldData` | data_collector.py:86-93 | the purge computes the cutoff `now - 24h` and keeps exactly `Kept(old, cutoff)`; afterwards no record is older than the cutoff; a database failure is absorbed and leaves the records unchanged |
| `Collector.RunCollectorIteration` | data_collector.py:95-101 | one loop iteration appends a round's records and then purges the grown collection at the later clock reading |
| `App.Arg` | app.py:77-78 | `request.args.get(key, '')` gives the parameter when present and `''` otherwise |
| `App.FromPriceReply` | app.py:36-39 | a reply whose coins all have a `usd` price becomes a dict with exactly the reply's ids, each mapped to `{'price': usd, 'type': 'crypto'}`; a coin without `usd` (a `KeyError`) or a failed request gives `{}` |
| `App.GetCryptoPrices` | app.py:22-39 | an empty list gives `{}` without a request; otherwise the result is the reply to one request for the comma-joined ids, read by `FromPriceReply`; a failed request gives `{}`; every entry is a crypto entry |
| `App.CryptoPricesRequestRoundTrip` | app.py:30 | the comma-joined request string names the list exactly: re-splitting it and asking again gives the same prices |
| `App.Truthy` | app.py:49 | `if current_price:` holds only for a returned number, and for a number exactly when it is non-zero |
| `App.StockPrices` | app.py:41-59 | `get_stock_prices`'s dict has entries only for requested symbols, each tagged `'stock'` |
| `App.StockPricesKeys` | app.py:46-56 | a symbol has an entry exactly when some call for it returned a truthy price; an error or a falsy price for one symbol does not stop the others |
| `App.StockPricesLastWins` | app.py:48-51 | a symbol's entry is `{'price': p, 'type': 'stock'}` where `p` is the last truthy price fetched for it |
| `App.GetStockPrices` | app.py:41-59 | the loop builds exactly the dict `StockPrices` describes |
| `App.CryptoPartRequestsParam` | app.py:77-86 | the stripped `crypto` parameter is split on commas and joined again, so CoinGecko is asked for exactly the stripped parameter; an empty parameter gives `{}` |
| `App.BlankCryptoParamNoFetch` | app.py:77-83 | a missing or all-whitespace `crypto` parameter makes no CoinGecko request and contributes nothing |
| `App.FetchCryptoPart` | app.py:83-86 | the crypto block of `get_prices` yields the parsed crypto lookup, or nothing when the parameter is empty |
| `App.FetchStockPart` | app.py:91-94 | the stock block of `get_prices` yields the parsed stock lookup, or nothing when the parameter is empty |
| `App.MergeKeepsLater` | app.py:86-94 | `dict.update` keeps the keys of both dicts, and takes the later dict's value for a shared key |
| `App.GetPrices` | app.py:72-98 | the reply has the keys of both lookups; crypto results are merged first and stock results second, so a key present in both ends with the stock entry |
| `App.CoinsOf` | app.py:113 | `data.get('coins', [])` is the reply's coin list when present and `[]` otherwise |
| `App.SearchCoins` | app.py:100-117 | an empty query or a failed request gives `[]`; otherwise at most 5 hits; when the first five coins all have `id` and `name`, the hits are exactly those coins, in order, each cut down to `{id, name}` |
| `App.SearchCoinsRoundTrip` | app.py:113-114 | a reply listing at most five coins, each with exactly `id` and `name`, is reported back as it stands |
| `App.SearchCoinsIgnoresTail` | app.py:113-114 | coins past the fifth in the reply never affect the result |
| `App.SearchStocks` | app.py:119-137 | an empty query gives `[]`; otherwise exactly one hit whose symbol and name are both `upper()` of the query, so it has the query's length and no lower-case ASCII letter |
| `App.SearchStocksCaseInsensitive` | app.py:131-134 | searching for a symbol and for its upper-cased form gives the same hit |

## Left out

- PyStrings.Upper: maps only ASCII `a`-`z`. Python's `str.upper()` also maps non-ASCII letters, and may change the length (for example `'ß'` becomes `'SS'`).
- Store.PriceCollection.InsertOne: modelled as all-or-nothing. A client-side error after the server applied the write (a lost acknowledgement, say) leaves the record stored while the loop logs a failure.
- Store.PriceCollection.DeleteOlderThan: modelled as all-or-nothing. A `delete_many` that fails part-way may already have removed some records.
- App.StockPrices: prices are reals, so a NaN price (truthy in Python, so it would get an entry) is not modelled.
- `datetime.utcnow()` has microsecond precision, but BSON dates keep milliseconds. The model uses millisecond timestamps throughout.
- `run_collector` loops forever. The model covers one iteration, with `sleep(3600)` standing for the gap between the round's clock reading and the purge's. `KeyboardInterrupt` handling and logging are left out.
- The connection setup is I/O and is left out. This covers the environment variables, `certifi`, the MongoDB client and its `ping`, `setup_indexes` and `setup_database`. The validator that `setup_database` installs is modelled as a predicate (`Schema.Validates`).
- Flask routing, `render_template`, the `index` route with its `DEFAULT_CRYPTO`/`DEFAULT_STOCKS`, and `jsonify` are left out. The model returns the Python values that would be serialised.
- The `except` branches of `get_prices` and `search_stocks` are not modelled. Nothing in their `try` blocks can raise once the lookups absorb their own errors.
- Several JSON-typing failures are not modelled:
  - a CoinGecko reply that is not a JSON object, or whose entries are not objects. In the source these raise and give `{}` or `[]`.
  - coin `id`/`name` values other than strings.
  - URL encoding of the query and of the ids.
- `_id`, which `insert_one` adds to the inserted dict, is not modelled. The schema allows it.
- scheduler.py is not part of this model. Its cadence comes from the `schedule` library, and its tasks only call and log. graph_generator.py (pandas and matplotlib), static/js/main.js (browser UI) and test_lottery.py (live network calls to functions not defined in app.py) are not part of this model either.
