# ATR scanner — a Dafny model

This project models the decision logic of a small Binance USDT-M futures
scanner (`app.py`). The scanner lists the perpetual contracts that are trading
and computes each one's Average True Range (ATR) as a percentage of its last
close. It publishes the contracts above a threshold, sorted highest first, and
exports them as a `BINANCE:<SYMBOL>.P` list. The exchange client, pandas,
Flask and the threads are left out. What remains is written as pure functions
over sequences, reals and strings, with the process-wide `scan_data`
dictionary as an immutable state record.

Modules, leaf first:

- `Wrappers` (`wrappers.dfy`): `Option`, standing in for the source's `None` returns.
- `Sequences` (`sequences.dfy`): order-preserving subsequences.
- `Strings` (`strings.dfy`): `endswith`, `','.join` and `split`, with both round trips proved.
- `Instruments` (`instruments.dfy`): the filter of `get_active_symbols`.
- `Indicator` (`indicator.dfy`): `calculate_atr` and `calculate_atr_percentage`.
- `Scanner` (`scanner.dfy`): the loop body and loop of `scan_symbols`.
- `Ranking` (`ranking.dfy`): the stable descending sort `list.sort(key=..., reverse=True)`.
- `Store` (`store.dfy`): `perform_scan`, `force_scan`, `update_settings`, `get_scan_data`, and the state they share.
- `Export` (`export.dfy`): `export_symbols` and a parser for what it produces.

Modelling choices:

- Prices are exact `real`s, so there is no floating-point rounding and no NaN.
- Each scan run sees the exchange as a `Market` value. It holds the
  exchange-information listing (`None` when that call fails) and a map from
  symbol to the candles fetched for it. A symbol missing from the map is one
  whose `get_kline_data` returned `None`.
- `perform_scan` is split into `BeginScan` (the flag goes up) and `FinishScan`.
  `FinishScan` takes the settings snapshot the run started with, the market,
  a `crashed` flag for an exception reaching the outer `except`, and the clock
  reading that becomes `last_update`. In the source, the four settings are
  evaluated as call arguments right after the flag is set, so one run uses
  one snapshot.
- `force_scan` is modelled sequentially: when it starts a scan, that scan runs
  to completion before the next event. The periodic loop and the endpoints
  become a sequence of `Event`s applied by `Store.Run`.

Behaviour of `app.py` that is easy to misread:

- The instrument list keeps the listing's order and any repeats; it is not a set. `ActiveSymbolsAppend` and `ScanSymbolsAppend` prove this entry by entry.
- The source's flag check is not a lock. The check in `force_scan`
  (app.py:247) is separate from the flag being set inside the spawned scan
  (app.py:193), and the hourly loop never checks the flag. The model therefore
  does not claim mutual exclusion. It shows only that a request seen while
  the flag is up is turned away.
- Results and timestamp are two separate assignments (app.py:206-207). They
  appear atomic here only because transitions are sequential.
- The export sorts the results again (app.py:282). Since the sort is stable
  and published results are already sorted, this is proved to be a no-op.

## Model

| member | source | states |
|---|---|---|
| Instruments.ActiveSymbols | app.py:32-39 | The symbols kept are in listing order, all end in `USDT`, and every entry that ends in `USDT`, is `PERPETUAL` and is `TRADING` has its symbol kept |
| Instruments.ActiveSymbolsSound | app.py:34-37 | Every kept symbol belongs to an entry that passes all three tests |
| Instruments.ActiveSymbolsExtremes | app.py:32-39 | An all-active listing is kept whole; a listing with no active entry gives the empty list |
| Instruments.ActiveSymbolsSingle | app.py:34-37 | A one-entry listing keeps its symbol exactly when the entry passes all three tests |
| Instruments.ActiveSymbolsAppend | app.py:32-37 | Filtering a concatenated listing concatenates the filtered parts, so order and repeats are kept as listed |
| Instruments.GetActiveSymbols | app.py:26-42 | A failed exchange-information call gives the empty list. Otherwise the result is the filter of the listing: an ordered selection of listed symbols, all ending in `USDT`, holding the symbol of every active entry |
| Indicator.TrueRange | app.py:89-94 | The true range is non-negative and at least each of high − low, abs(high − prevClose) and abs(low − prevClose) |
| Indicator.TrueRangeAttained | app.py:94 | The true range equals one of those three spans, so it is their maximum |
| Indicator.Window | app.py:87-97 | The averaging window holds exactly `period` true ranges, and each is computed against the previous candle's close |
| Indicator.Atr | app.py:81-99 | Fewer than period + 1 candles give 0.0; the ATR is never negative |
| Indicator.AtrBounds | app.py:96-97 | With enough candles, the ATR lies between any lower and upper bound that holds for every true range in the window |
| Indicator.AtrAtLeastMeanSpan | app.py:90-97 | The ATR is at least the mean high − low span of the last `period` candles |
| Indicator.AtrUsesLastCandlesOnly | app.py:87-97 | Only the last period + 1 candles affect the ATR, so the period + 50 candles requested are enough |
| Indicator.AtrFlatSeries | app.py:89-99 | A series whose high, low and close are all one constant price has ATR 0.0 |
| Indicator.AtrShiftInvariant | app.py:89-97 | Adding the same amount to every price leaves the ATR unchanged |
| Indicator.AtrPercentage | app.py:110-116 | A price ≤ 0 gives 0.0; otherwise the result times the price equals atr × multiplier × 100; it is non-negative when ATR and multiplier are |
| Indicator.AtrPercentageMonotone | app.py:113-114 | For a non-negative multiplier, a larger ATR never gives a smaller percentage |
| Indicator.AtrPercentageScaleInvariant | app.py:110-116 | Scaling ATR and price by the same positive factor leaves the percentage unchanged |
| Scanner.Evaluate | app.py:140-161 | A result exists only with at least period + 1 candles, and then exactly when the percentage reaches the threshold (inclusive `>=`); it carries the symbol, last close, ATR, percentage, period and multiplier used |
| Scanner.Outcome | app.py:140-142 | A symbol whose candles are missing or fewer than period + 1 yields no result |
| Scanner.ScanSymbols | app.py:135-171 | Every result meets the threshold and carries the period and multiplier passed in. Each result is the outcome of its own symbol. Result symbols are a subsequence of the input symbols. An input symbol is emitted exactly when its outcome is a result |
| Scanner.ScanSymbolsSingle | app.py:137-161 | Scanning one symbol gives its outcome as a one-element list, or nothing |
| Scanner.ScanSymbolsAppend | app.py:135-168 | Scanning a concatenation concatenates the scans, so results follow input order and a repeated symbol is emitted each time it qualifies |
| Scanner.FlatSeriesNeverSelected | app.py:145-152 | A constant-price series is never selected under a positive threshold |
| Ranking.SortDesc | app.py:203-204 | The sorted list is in descending percentage order and is a permutation of its input |
| Ranking.SortDescStable | app.py:204 | Results with equal percentages keep their relative order |
| Ranking.SortDescOfSorted | app.py:282 | Sorting an already descending list returns it unchanged |
| Ranking.SortDescIdempotent | app.py:282 | Sorting twice gives the same list as sorting once |
| Store.RunEngine | app.py:196-201 | A run under a settings snapshot returns only results that meet the snapshot's threshold and carry its period and multiplier. Each result is its symbol's outcome. The result symbols are a subsequence of the active symbols, an active symbol appears exactly when its outcome is a result, and there are no more results than active symbols |
| Store.FinishScan | app.py:203-214 | The flag ends false and settings are untouched. On success the results are the engine output sorted descending (a permutation) and the timestamp is the given clock reading. On failure results and timestamp are unchanged |
| Store.PerformScan | app.py:188-214 | The same as FinishScan, with the run using the settings held at its start, so every published result meets those settings |
| Store.PerformScanStable | app.py:203-206 | Published results with equal percentages keep the order the engine produced |
| Store.ForceScan | app.py:245-252 | The answer is `scan_already_running` exactly when the flag is up, and then nothing changes; otherwise a scan is performed |
| Store.ForceScanDuringScan | app.py:247-252 | A force-scan request that arrives after a scan has raised the flag is turned away and leaves the state alone |
| Store.MergeSettings | app.py:261-268 | Each key present in the request overwrites its setting; every absent key keeps its prior value |
| Store.MergeSettingsCompose | app.py:261-268 | Two updates in a row equal one update in which the later request's keys win |
| Store.MergeSettingsIdempotent | app.py:261-268 | Repeating an update changes nothing more; an empty request changes nothing |
| Store.UpdateSettings | app.py:255-270 | The response echoes the merged settings, which become the state's settings; results, timestamp and flag are untouched |
| Store.UpdatePeriodExample | app.py:263-264 | Changing `atr_period` from 50 to 30 leaves threshold, multiplier and interval at their defaults |
| Store.UpdateDuringScan | app.py:196-201 | A settings update that arrives mid-scan survives publication; the running scan still selects with its snapshot |
| Store.GetScanData | app.py:233-242 | `total_symbols` equals the number of results; every other field is the state's |
| Store.ApplyConsistent | app.py:203-208 | Every event keeps the results sorted descending, with no results before the first completed scan |
| Store.RunConsistent | app.py:216-221 | Any sequence of timer scans, forced scans and settings updates keeps that invariant, and the flag is never left up |
| Store.InitialConsistent | app.py:174-184 | The initial state has no results, no timestamp and the flag down; its settings are threshold 0.5, period 50, multiplier 0.5 and interval `1m`; it satisfies the published-results invariant |
| Store.TwoSymbolScanExample | app.py:152-161 | Two symbols at 0.8 % and 0.3 % against a 0.5 % threshold publish only the first, and `total_symbols` is 1 |
| Strings.SplitJoin | app.py:292 | Splitting a comma-join of comma-free parts gives back the parts |
| Strings.JoinSplit | app.py:292 | Joining the pieces of a split gives back the string |
| Export.ExportSymbols | app.py:276-294 | Empty results give `("", 0)`; otherwise the count is the number of results and the string is non-empty |
| Export.ParseEntryRoundTrip | app.py:287-289 | The symbol can be read back from its `BINANCE:<symbol>.P` entry |
| Export.ExportRoundTrip | app.py:282-292 | When no symbol contains a comma, parsing the export string gives exactly the result symbols in descending-percentage order |
| Export.ExportOfConsistent | app.py:282 | For published (already sorted) results, the export lists the symbols in the published order |
| Export.ExportCountIsTotal | app.py:239 | The export count equals `total_symbols` of the scan-data response |

## Left out

- Binance client calls (`exchange_info`, `klines`): foreign I/O. Their answers are the `Market` input, and a failed call is `None` or a missing map entry.
- pandas DataFrame construction and `to_numeric(errors='coerce')`: candles are assumed well-formed numbers.
- The NaN guard of `calculate_atr` (`pd.isna`): there is no NaN among reals.
- Malformed listing entries: a missing key raises inside `get_active_symbols` and empties the whole result. This is folded into the `None` listing.
- The per-symbol `except` in `scan_symbols`: with well-formed typed inputs no statement of the loop body can raise, so it is not modelled.
- The candle `limit` (period + 50): the model uses whatever series was fetched. `AtrUsesLastCandlesOnly` shows that only the last period + 1 candles matter.
- The `interval` setting: it is stored and merged, but it only parameterises the fetch, which is an input here.
- Atr: requires period ≥ 1. pandas' behaviour for `rolling(window=0)` or a negative window is not modelled.
- ScanSymbols, RunEngine, FinishScan, PerformScan: require period ≥ 1 for the same reason. `ForceScan` needs it only when it starts a scan, and `Run` needs every settings request to keep it.
- Threads, the hourly `schedule_scans` loop and the initial scan at start-up: these are concurrency and timing. The non-atomic flag check is not modelled, and transitions are sequential `Event`s.
- `time.sleep`, `print`, and `datetime.now`/`isoformat`: `last_update` is an abstract `Timestamp` supplied by the caller.
- Flask routing, `jsonify`, `request.json`, and the `float()`/`int()` conversions with their error response: the request arrives as typed optional fields. In the source, a conversion failure leaves the keys before it already written. That partial update is not modelled.
- The HTML/CSS/JS template, the template file write and `app.run`: presentation.
