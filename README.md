# Investment_Daily: the data store and the indicator selection, in Dafny

This project models the two parts of the daily portfolio-report bot that carry
its logic:

- **The cache-and-store facade** `DataStore` (investment_bot/utils/data_store.py)
  over the SQLite schema of `DBManager` (investment_bot/utils/db_manager.py).
  The four tables are sequences of rows inside a `DbManager` object. SQLite's
  constraints are the object invariant: one signal per `(symbol, date)`, one
  sentiment per date, one cache row per key, and non-null symbol and asset type
  in snapshots. `DELETE ... WHERE`, `SELECT ... .first()` and `INSERT` are
  functions in module `Table`. The per-symbol Parquet files are a map from path
  to file. The `DataStore` methods perform the source's delete-then-insert
  sequences on that state. Every method's `ensures` gives the new state, says
  what the getters return afterwards and says what stays unchanged. The clock
  (`datetime.now()`) is an explicit `now` argument in microseconds.
- **The indicator selection** of `TechnicalAnalysisService.analyze`
  (investment_bot/services/tech_analysis.py) as pure functions. The numeric
  kernels of the `ta` library and Python's `round(x, 2)` are fields of a
  `Kernels` value. Each kernel returns `None` when it raises. The model fixes
  which kernel is called with which window, and what is done with each result:
  - the 20-bar guard;
  - the RSI period;
  - the EMA windows and their fallbacks;
  - the strict comparisons for trend and flags;
  - the zero-width guard of %B;
  - rounding only at emission.

Modules: `Wrappers` (Option, Outcome), `Table` (SQL table semantics), `Db`
(db_manager.py), `Frame` (price bars), `TechAnalysis` (tech_analysis.py), and
`Store` (data_store.py).

Some consequences the proofs make explicit:

- The trend reference does not depend on the asset class. It is the 60-bar EMA
  once 60 bars exist and the 20-bar EMA before that (`PlanEma`).
- `get_cache` returns Python `None` both when no live row exists and when the
  live row holds JSON `null`. Freshness therefore means "a live marker row whose
  value is not null" (`IsMarketDataFresh`). Markers are always written as
  `"updated"`, so after a save the two readings agree.
- `BTC/USDT` and `BTC_USDT` share one Parquet file but have two distinct
  freshness markers (`PairSymbolsShareFile`, `MarkerKeyInjective`).
- `load_market_data` reads the marker but returns the same frame either way.
  `LoadMarketData` therefore reads only the files.
- The asset type is any string. Only the exact string `"Crypto"` selects the
  crypto windows.
- `tech_signals` declares symbol, asset type and date NOT NULL, so a `None` in
  any of them makes `save_signal` fail and roll back its delete (`SaveSignal`).

## Model

| member | source | states |
|---|---|---|
| `Table.Filter` | investment_bot/utils/data_store.py:99-104 | `DELETE ... WHERE`: every row left is an old row that does not match, every old row that does not match is left, and no row is left more often than it occurred |
| `Table.FilterCount` | investment_bot/utils/data_store.py:99-104 | a delete keeps each surviving row exactly as often as it occurred and removes every occurrence of a matching row |
| `Table.First` | investment_bot/utils/data_store.py:113-117 | `.first()` finds a row exactly when some row matches, and the row it returns matches and is in the table |
| `Table.Insert` | investment_bot/utils/db_manager.py:62 | an insert into a table with a UNIQUE key succeeds exactly when no row has the new key, and it appends the row |
| `Table.DeleteMakesRoom` | investment_bot/utils/data_store.py:99-106 | after deleting every row with a key, inserting a row with that key never violates the constraint, and the key stays unique |
| `Table.FilterKeepsUnique` | investment_bot/utils/db_manager.py:62 | a delete keeps a table's UNIQUE key unique |
| `Table.FirstOfConcat` | investment_bot/utils/data_store.py:113-117 | `.first()` over old rows followed by new ones looks at the new rows only when no old row matches |
| `Table.FirstOfFilterIrrelevant` | investment_bot/utils/data_store.py:99-104 | a delete that spares every row a query selects does not change the query's answer |
| `Table.FirstOfFilterDisjoint` | investment_bot/utils/data_store.py:99-104 | after deleting every row a query could select, the query finds nothing |
| `Table.FilterOfConcat` | investment_bot/utils/data_store.py:157 | a delete by date distributes over the old rows and the appended batch |
| `Table.FilterOfFilter` | investment_bot/utils/data_store.py:157 | selecting one date after deleting another date gives that date's rows as before |
| `Table.FilterOfFilterDisjoint` | investment_bot/utils/data_store.py:157 | after deleting a date, selecting that date finds no rows |
| `Table.FilterAll` | investment_bot/utils/data_store.py:175 | selecting a batch by the date stamped on all its rows returns the whole batch in order |
| `Table.FilterNone` | investment_bot/utils/data_store.py:175 | selecting by a date no row of a batch has returns nothing |
| `Db.InsertSnapshots` | investment_bot/utils/db_manager.py:66-82 | a batch insert into `portfolio_snapshots` succeeds exactly when every row has a symbol and an asset type, and it appends the whole batch (no uniqueness check) |
| `Db.CreateAll` | investment_bot/utils/db_manager.py:24-25 | `create_all` yields all four tables: present tables keep every row and missing ones start empty |
| `Db.CreateAllIdempotent` | investment_bot/utils/db_manager.py:24-25 | opening an already created database creates nothing more |
| `Db.CreateAllValid` | investment_bot/utils/db_manager.py:24-25 | table creation preserves every constraint of the existing tables |
| `Db.SnapshotsAllowDuplicates` | investment_bot/utils/db_manager.py:66-82 | the snapshot table accepts two identical rows for one date and symbol: it has no uniqueness constraint |
| `Db.DbManager.constructor` | investment_bot/utils/db_manager.py:13-25 | opening a database file gives the constraint-satisfying tables of `create_all` |
| `TechAnalysis.RsiPeriod` | investment_bot/services/tech_analysis.py:28 | the RSI window is 6 exactly when the asset type is the string "Crypto", and 14 otherwise |
| `TechAnalysis.PlanEma` | investment_bot/services/tech_analysis.py:36-59 | from 20 bars on, the EMA windows satisfy fast <= mid <= slow <= bar count; the trend window is 60 from 60 bars on and 20 before, for both asset classes; for non-crypto it is the mid window |
| `TechAnalysis.PercentB` | investment_bot/services/tech_analysis.py:95 | %B is 0 for a zero-width band, and otherwise the rounded position of the price within the band |
| `TechAnalysis.Analyze` | investment_bot/services/tech_analysis.py:12-102 | fewer than 20 bars give None; a signal never has both flags set; its trend is "Bullish" or "Bearish" |
| `TechAnalysis.PlanUsesInvokedWindows` | investment_bot/services/tech_analysis.py:36-59 | the windows the model uses are exactly the EMAs the source computes: 5, 10, 20 and 60 from 60 bars for crypto; 20, 60 from 60 bars and 120 from 120 bars otherwise |
| `TechAnalysis.AnalyzeSucceedsIff` | investment_bot/services/tech_analysis.py:20-102 | a signal is produced exactly when there are at least 20 bars and none of the kernels called raises |
| `TechAnalysis.AnalyzeRsi` | investment_bot/services/tech_analysis.py:28-80 | RSI uses window 6 for "Crypto" and 14 otherwise; overbought means the unrounded RSI is above 75, oversold means below 30; the emitted RSI is the rounded value |
| `TechAnalysis.AnalyzeEma` | investment_bot/services/tech_analysis.py:36-86 | crypto emits EMA 5/10/20; otherwise fast is EMA 20, mid is EMA 60 from 60 bars (else fast), slow is EMA 120 from 120 bars (else mid); the trend is "Bullish" exactly when the last close is strictly above the unrounded EMA 60 (EMA 20 below 60 bars) |
| `TechAnalysis.AnalyzeMacdAndBands` | investment_bot/services/tech_analysis.py:62-97 | MACD is 12/26/9 with `macd_diff` as histogram; Bollinger uses 20 bars at 2 deviations; price and bands are rounded at emission; %B is 0 for a zero-width band |
| `TechAnalysis.FlatSeriesIsBearish` | investment_bot/services/tech_analysis.py:81-95 | 20 bars at one price, with a zero-width band and an EMA equal to that price, give %B 0 and "Bearish", because equality is not strictly above |
| `Store.SafeSymbol` | investment_bot/utils/data_store.py:26 | the file name has the symbol's length and no '/'; each '/' becomes '_' and every other character is kept |
| `Store.SafeSymbolIdempotent` | investment_bot/utils/data_store.py:23-27 | sanitising twice is sanitising once |
| `Store.SafeSymbolFixedPoints` | investment_bot/utils/data_store.py:26 | a symbol is its own file name exactly when it contains no '/' |
| `Store.MarketDataPathSharedIff` | investment_bot/utils/data_store.py:23-27 | two symbols share a Parquet path exactly when they sanitise to the same name |
| `Store.PairSymbolsShareFile` | investment_bot/utils/data_store.py:23-27 | "BTC/USDT" and "BTC_USDT" are different symbols with one file |
| `Store.MarketDataPath` | investment_bot/utils/data_store.py:23-27 | the path is the directory, '/', the sanitised symbol and ".parquet", and contains no '/' after the directory, so every symbol's file lies directly in the market-data directory |
| `Store.MarkerKey` | investment_bot/utils/data_store.py:40 | the freshness key is "market_data_" followed by the raw, unsanitised symbol, which can be read back from it |
| `Store.MarkerKeyInjective` | investment_bot/utils/data_store.py:40 | distinct symbols have distinct `market_data_<symbol>` markers |
| `Store.SignalRowOf` | investment_bot/utils/data_store.py:70-91 | the row written for a signal carries its `(symbol, date)` key and its asset type |
| `Store.SignalOf` | investment_bot/utils/data_store.py:121-143 | `get_signal`'s dictionary loses nothing but symbol, type and date: writing it back under the row's own keys gives the row again |
| `Store.SignalRoundTrip` | investment_bot/utils/data_store.py:70-143 | `get_signal`'s rebuild of the row `save_signal` writes is exactly the saved signal |
| `Store.SnapshotRowOf` | investment_bot/utils/data_store.py:162-172 | one holding's row is stamped with the run date, passes NOT NULL exactly when the holding has symbol and type, and is valued at price times quantity |
| `Store.SnapshotBatch` | investment_bot/utils/data_store.py:160-172 | one row per holding, in order, stamped with the run date, with the holding's symbol, type, quantity, cost, price, P/L and return, and `market_value = MarketPrice * Qty` |
| `Store.BuildSnapshotRows` | investment_bot/utils/data_store.py:160-172 | the `values_list` loop builds exactly the batch `SnapshotBatch` describes |
| `Store.ReplaceDateBatch` | investment_bot/utils/data_store.py:148-176 | deleting a date and appending a batch of that date leaves exactly the batch under the date and the other dates' rows unchanged; the NOT NULL check passes exactly for holdings with symbol and type |
| `Store.ReplaceDateBatchSame` | investment_bot/utils/data_store.py:157-175 | deleting a date and appending a batch stamped with it leaves exactly that batch under the date |
| `Store.ReplaceDateBatchOther` | investment_bot/utils/data_store.py:157-175 | the same replacement leaves every other date's rows as they were, in order |
| `Store.FirstAfterReplace` | investment_bot/utils/data_store.py:99-117 | after a delete-then-insert of a row, a lookup under the row's key finds that row alone, or nothing when the row does not qualify |
| `Store.FirstAfterReplaceOther` | investment_bot/utils/data_store.py:99-117 | after a delete-then-insert of a row, lookups under every other key answer as before |
| `Store.DataStore.constructor` | investment_bot/utils/data_store.py:16-19 | the store opens the database with its tables created and the existing files in place |
| `Store.DataStore.GetCache` | investment_bot/utils/data_store.py:224-238 | the value of the key's row if it expires strictly after `now`, and `None` if the row has expired or the key is absent |
| `Store.DataStore.SetCache` | investment_bot/utils/data_store.py:208-222 | the key's row is replaced by one expiring at `now + ttl`; afterwards the key has exactly one row, a read at time t gives the value exactly when t < now + ttl (otherwise None), and every other key and table is unchanged |
| `Store.DataStore.IsMarketDataFresh` | investment_bot/utils/data_store.py:64-66 | fresh exactly when the symbol's marker row exists, expires after `now`, and does not hold JSON null |
| `Store.DataStore.LoadMarketData` | investment_bot/utils/data_store.py:42-62 | the stored frame whenever the file exists and reads, whatever the marker says; an empty frame when the file is missing or unreadable |
| `Store.DataStore.SaveMarketData` | investment_bot/utils/data_store.py:29-40 | an empty frame changes nothing; otherwise the file is overwritten and loads back as the frame, and the raw-symbol marker is "updated" with a 720-minute TTL, so the symbol is fresh exactly before now + 12 h; other symbols' freshness and the other tables are unchanged |
| `Store.DataStore.GetSignal` | investment_bot/utils/data_store.py:109-144 | None exactly when no row has the `(symbol, date)` pair, otherwise that row's signal without the asset type |
| `Store.DataStore.SaveSignal` | investment_bot/utils/data_store.py:70-107 | a `None` symbol, asset type or date fails with an integrity error on `tech_signals` and leaves the table unchanged (NOT NULL, db_manager.py:33-35); otherwise the pair's row is replaced and the key stays unique; `get_signal` then returns exactly the last payload, and every other pair and table is unchanged |
| `Store.DataStore.SavePortfolioSnapshot` | investment_bot/utils/data_store.py:148-176 | an empty frame changes nothing; a holding without symbol or type fails the whole batch and leaves the table unchanged; otherwise the date's rows are exactly the new batch, and other dates' rows are unchanged |
| `Store.DataStore.GetSentiment` | investment_bot/utils/data_store.py:193-204 | None exactly when no row has the date, otherwise `{value, classification}` of that row |
| `Store.DataStore.SaveSentiment` | investment_bot/utils/data_store.py:180-191 | the date's row is replaced and dates stay unique; `get_sentiment` then returns the last reading, and other dates and tables are unchanged |
| `Store.FreshnessScenario` | investment_bot/utils/data_store.py:29-66 | for a caller: a symbol saved at t is fresh at t + 11 h and stale at t + 12 h, and a 60-minute entry reads back at +59 min and is gone at +61 min |
| `Store.SignalScenario` | investment_bot/utils/data_store.py:70-144 | a signal computed by `Analyze` and saved under the date of the last bar reads back unchanged |
| `Store.SnapshotScenario` | investment_bot/utils/data_store.py:148-176 | a batch of 3 saved after a batch of 5 for the same date leaves exactly 3 rows for that date |

## Left out

- The numeric kernels of `ta` (Wilder RSI, EMA, MACD, Bollinger Bands) and
  Python's binary-float `round(x, 2)`: foreign floating-point numerics, taken
  as parameters. All arithmetic is on exact reals.
- NaN results: pandas returns NaN rather than raising, for example the MACD
  signal line with fewer than 34 bars. The kernels here return a real or
  `None`, so NaN comparisons (always false) are not represented.
- A frame without a `Close` column, or holdings without a `Qty` or `Cost`
  column: the resulting `KeyError` is not represented. Frames and holdings are
  records that always carry their columns. An empty DataFrame is a frame with
  no rows.
- SQLAlchemy engines, connections, commits and rollback: each store method is
  one atomic step. A failed snapshot insert leaves the table as before, which
  is what the rollback produces.
- The `id`, `created_at` and `updated_at` columns: server-filled and never
  read back.
- `SELECT ... .first()` without `ORDER BY` returns rows in insertion order
  here. Under the UNIQUE keys at most one row can match, so the order does not
  matter.
- JSON text: cache values are held as the decoded `Json` value. A value that
  `json.dumps` cannot serialise, which raises before commit, is not
  represented.
- Parquet encoding, `os.makedirs` and the database path: a file stores and
  returns its frame as written. An unreadable file is its own case.
- `datetime.now()`: replaced by the `now` argument. TTLs are whole minutes, and
  `set_cache`'s default TTL of 60 minutes is passed explicitly.
- Null cells in the signal dictionary (`.get` returning `None`): a `Signal`
  always carries all of its fields.
- investment_bot/services/market_data.py, google_sheet.py, llm_analyzer.py,
  telegram_bot.py, main.py, formatters.py and config.py: network clients, I/O
  and orchestration. The configuration constants are inlined in
  `TechAnalysis`. In this code no fetcher calls the store.
- The `print` logging in the error paths.
- Concurrent runs: the source assumes a single writer.
