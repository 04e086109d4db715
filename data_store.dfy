/**
 * The cache-and-store facade `DataStore` (investment_bot/utils/data_store.py):
 * per-symbol market-data files with a freshness marker in the TTL cache, and
 * delete-then-insert writes to the four SQLite tables of `DBManager`. The
 * clock is the explicit `now` argument of the operations that read it.
 */
module Store {
  import opened Wrappers
  import opened Table
  import opened Db
  import opened Frame
  import opened TechAnalysis

  const MarketDataDir: string := "investment_bot/data/market_data"
  const MarkerPrefix: string := "market_data_"
  /** The marker's TTL: 12 hours. */
  const MarketDataTtlMinutes: int := 60 * 12
  const MicrosPerMinute: int := 60_000_000
  const Updated: Json := Str("updated")

  /** `symbol.replace('/', '_')`. */
  function SafeSymbol(symbol: string): (r: string)
    ensures |r| == |symbol|
    ensures forall i :: 0 <= i < |r| ==> r[i] != '/'
    ensures forall i :: 0 <= i < |symbol| && symbol[i] != '/' ==> r[i] == symbol[i]
    ensures forall i :: 0 <= i < |symbol| && symbol[i] == '/' ==> r[i] == '_'
  {
    if symbol == [] then []
    else [if symbol[0] == '/' then '_' else symbol[0]] + SafeSymbol(symbol[1..])
  }

  /** Sanitising a sanitised symbol changes nothing. */
  lemma SafeSymbolIdempotent(symbol: string)
    ensures SafeSymbol(SafeSymbol(symbol)) == SafeSymbol(symbol)
  {
  }

  /** A symbol is its own file name exactly when it has no '/'. */
  lemma SafeSymbolFixedPoints(symbol: string)
    ensures SafeSymbol(symbol) == symbol <==> forall i :: 0 <= i < |symbol| ==> symbol[i] != '/'
  {
    if SafeSymbol(symbol) == symbol {
      forall i | 0 <= i < |symbol| ensures symbol[i] != '/' {
        assert SafeSymbol(symbol)[i] != '/';
      }
    }
  }

  /** `get_market_data_path`: `os.path.join(dir, safe_symbol + ".parquet")`. */
  function MarketDataPath(dir: string, symbol: string): (path: string)
    ensures |path| == |dir| + 1 + |symbol| + |".parquet"|
    ensures path[..|dir| + 1] == dir + "/" && path[|path| - |".parquet"|..] == ".parquet"
    ensures path[|dir| + 1..|dir| + 1 + |symbol|] == SafeSymbol(symbol)
    ensures forall i :: |dir| < i < |path| ==> path[i] != '/'
  {
    dir + "/" + SafeSymbol(symbol) + ".parquet"
  }

  /** Two symbols share a file exactly when they sanitise to the same name. */
  lemma MarketDataPathSharedIff(dir: string, a: string, b: string)
    ensures MarketDataPath(dir, a) == MarketDataPath(dir, b) <==> SafeSymbol(a) == SafeSymbol(b)
  {
    var pa, pb := MarketDataPath(dir, a), MarketDataPath(dir, b);
    if pa == pb {
      var start := |dir| + 1;
      assert SafeSymbol(a) == pa[start..start + |a|];
      assert SafeSymbol(b) == pb[start..start + |b|];
    }
  }

  /** The pair separator and an underscore lead to the same file. */
  lemma PairSymbolsShareFile(dir: string)
    ensures MarketDataPath(dir, "BTC/USDT") == MarketDataPath(dir, "BTC_USDT")
    ensures "BTC/USDT" != "BTC_USDT"
  {
    assert SafeSymbol("BTC/USDT") == "BTC_USDT";
    assert SafeSymbol("BTC_USDT") == "BTC_USDT";
  }

  /** The TTL-cache key of a symbol's freshness marker (the raw symbol, not sanitised). */
  function MarkerKey(symbol: string): (key: string)
    ensures |key| == |MarkerPrefix| + |symbol|
    ensures key[..|MarkerPrefix|] == MarkerPrefix && key[|MarkerPrefix|..] == symbol
  {
    MarkerPrefix + symbol
  }

  /** Distinct symbols have distinct markers, even when they share a file. */
  lemma MarkerKeyInjective(a: string, b: string)
    ensures MarkerKey(a) == MarkerKey(b) <==> a == b
  {
    if MarkerKey(a) == MarkerKey(b) {
      assert a == MarkerKey(a)[|MarkerPrefix|..];
      assert b == MarkerKey(b)[|MarkerPrefix|..];
    }
  }

  /** A file in the market-data directory: a Parquet frame, or one `read_parquet` rejects. */
  datatype StoredFile = Parquet(frame: seq<Bar>) | Unreadable

  /** A Fear & Greed reading: `{value, classification}`. */
  datatype Sentiment = Sentiment(value: int, classification: string)

  /** A row of the holdings DataFrame; `None` is a missing `Symbol` or `Type` cell. */
  datatype Holding = Holding(
    symbol: Option<string>, assetType: Option<string>,
    qty: real, cost: real, marketPrice: real, unrealizedPl: real, returnRate: real)

  predicate HoldingNotNull(h: Holding) {
    h.symbol.Some? && h.assetType.Some?
  }

  /** The column values `save_signal` writes for a signal dictionary. */
  function SignalRowOf(symbol: string, assetType: string, date: string, s: Signal): (row: SignalRow)
    ensures SignalKey(row) == (symbol, date) && row.assetType == assetType
  {
    SignalRow(symbol, assetType, date,
      s.currentPrice, s.rsi, s.isOverbought, s.isOversold,
      s.trend, s.emaValues.fast, s.emaValues.mid, s.emaValues.slow,
      s.macd.line, s.macd.signal, s.macd.hist,
      s.bb.upper, s.bb.lower, s.bb.pctB)
  }

  /** The dictionary `get_signal` rebuilds from a row (no symbol, type or date). */
  function SignalOf(row: SignalRow): (s: Signal)
    ensures SignalRowOf(row.symbol, row.assetType, row.date, s) == row
  {
    Signal(row.currentPrice, row.rsi, row.isOverbought, row.isOversold, row.trend,
      EmaValues(row.emaFast, row.emaMid, row.emaSlow),
      MacdValues(row.macdLine, row.macdSignal, row.macdHist),
      BbValues(row.bbUpper, row.bbLower, row.bbPctB))
  }

  /** `get_signal`'s rebuild of the row `save_signal` writes is the signal that was saved. */
  lemma SignalRoundTrip(symbol: string, assetType: string, date: string, s: Signal)
    ensures SignalOf(SignalRowOf(symbol, assetType, date, s)) == s
  {
  }

  /** The values dictionary `save_portfolio_snapshot` builds for one holding. */
  function SnapshotRowOf(h: Holding, date: string): (row: SnapshotRow)
    ensures row.date == date
    ensures SnapshotNotNull(row) <==> HoldingNotNull(h)
    ensures row.marketValue == row.marketPrice * row.qty
  {
    SnapshotRow(date, h.symbol, h.assetType, h.qty, h.cost, h.marketPrice,
      h.marketPrice * h.qty, h.unrealizedPl, h.returnRate)
  }

  function SnapshotBatch(df: seq<Holding>, date: string): (batch: seq<SnapshotRow>)
    ensures |batch| == |df|
    ensures forall i :: 0 <= i < |df| ==>
      && batch[i].date == date
      && batch[i].symbol == df[i].symbol && batch[i].assetType == df[i].assetType
      && batch[i].qty == df[i].qty && batch[i].costBasis == df[i].cost
      && batch[i].marketPrice == df[i].marketPrice
      && batch[i].marketValue == df[i].marketPrice * df[i].qty
      && batch[i].unrealizedPl == df[i].unrealizedPl && batch[i].returnRate == df[i].returnRate
  {
    seq(|df|, i requires 0 <= i < |df| => SnapshotRowOf(df[i], date))
  }

  /** The `values_list` loop: one row per holding, stamped with `date`, valued at price times quantity. */
  method BuildSnapshotRows(df: seq<Holding>, date: string) returns (values: seq<SnapshotRow>)
    ensures values == SnapshotBatch(df, date)
  {
    values := [];
    var i := 0;
    while i < |df|
      invariant 0 <= i <= |df|
      invariant values == SnapshotBatch(df[..i], date)
    {
      values := values + [SnapshotRowOf(df[i], date)];
      i := i + 1;
    }
    assert df[..i] == df;
  }

  /** `SELECT ... WHERE date == d`: the snapshot rows of one date, in order. */
  function RowsOn(rows: seq<SnapshotRow>, date: string): seq<SnapshotRow> {
    Filter(rows, KeyIs(SnapshotDate, date))
  }

  /** The cache rows `get_cache` may return at `now`: `key == k AND expires_at > now`. */
  function LiveUnder(key: string, now: Instant): CacheRow -> bool {
    (r: CacheRow) => r.key == key && r.expiresAt > now
  }

  /** A cache row that makes `symbol` fresh at `now`: its marker, unexpired, not JSON null. */
  predicate LiveMarker(row: CacheRow, symbol: string, now: Instant) {
    row.key == MarkerKey(symbol) && row.expiresAt > now && row.value != Null
  }

  /**
   * After the delete-then-insert of `row`, `.first()` under a condition that
   * selects only rows with `row`'s key sees `row` alone; under one that selects
   * only other keys it sees the old table.
   */
  lemma FirstAfterReplace<R, K>(rows: seq<R>, row: R, key: R -> K, p: R -> bool)
    requires forall x :: p(x) ==> key(x) == key(row)
    ensures First(Filter(rows, KeyIsNot(key, key(row))) + [row], p) ==
      if p(row) then Some(row) else None
  {
    var kept := Filter(rows, KeyIsNot(key, key(row)));
    FirstOfConcat(kept, [row], p);
    FirstOfFilterDisjoint(rows, KeyIsNot(key, key(row)), p);
  }

  lemma FirstAfterReplaceOther<R, K>(rows: seq<R>, row: R, key: R -> K, p: R -> bool)
    requires forall x :: p(x) ==> key(x) != key(row)
    ensures First(Filter(rows, KeyIsNot(key, key(row))) + [row], p) == First(rows, p)
  {
    var kept := Filter(rows, KeyIsNot(key, key(row)));
    FirstOfConcat(kept, [row], p);
    FirstOfFilterIrrelevant(rows, KeyIsNot(key, key(row)), p);
    assert !p(row);
  }

  /**
   * Deleting the rows of `date` and appending a batch stamped with `date`
   * leaves exactly the batch under `date`.
   */
  lemma ReplaceDateBatchSame(rows: seq<SnapshotRow>, batch: seq<SnapshotRow>, date: string)
    requires forall i :: 0 <= i < |batch| ==> batch[i].date == date
    ensures RowsOn(Filter(rows, KeyIsNot(SnapshotDate, date)) + batch, date) == batch
  {
    var kept := Filter(rows, KeyIsNot(SnapshotDate, date));
    FilterOfConcat(kept, batch, KeyIs(SnapshotDate, date));
    FilterOfFilterDisjoint(rows, KeyIsNot(SnapshotDate, date), KeyIs(SnapshotDate, date));
    forall i | 0 <= i < |batch| ensures KeyIs(SnapshotDate, date)(batch[i]) {
      assert SnapshotDate(batch[i]) == date;
    }
    FilterAll(batch, KeyIs(SnapshotDate, date));
  }

  /** The same replacement leaves the rows of every other date as they were. */
  lemma ReplaceDateBatchOther(rows: seq<SnapshotRow>, batch: seq<SnapshotRow>, date: string, other: string)
    requires forall i :: 0 <= i < |batch| ==> batch[i].date == date
    requires other != date
    ensures RowsOn(Filter(rows, KeyIsNot(SnapshotDate, date)) + batch, other) == RowsOn(rows, other)
  {
    var kept := Filter(rows, KeyIsNot(SnapshotDate, date));
    FilterOfConcat(kept, batch, KeyIs(SnapshotDate, other));
    FilterOfFilter(rows, KeyIsNot(SnapshotDate, date), KeyIs(SnapshotDate, other));
    FilterNone(batch, KeyIs(SnapshotDate, other));
  }

  /**
   * Replacing the rows of `date` by the batch built from `df` leaves exactly
   * that batch under `date` and every other date's rows as they were; the NOT
   * NULL check passes exactly for holdings with symbol and type.
   */
  lemma ReplaceDateBatch(rows: seq<SnapshotRow>, df: seq<Holding>, date: string)
    ensures var batch := SnapshotBatch(df, date);
      var after := Filter(rows, KeyIsNot(SnapshotDate, date)) + batch;
      && ((forall i :: 0 <= i < |batch| ==> SnapshotNotNull(batch[i])) <==>
          (forall i :: 0 <= i < |df| ==> HoldingNotNull(df[i])))
      && RowsOn(after, date) == batch
      && forall d :: d != date ==> RowsOn(after, d) == RowsOn(rows, d)
  {
    var batch := SnapshotBatch(df, date);
    assert forall i :: 0 <= i < |batch| ==> batch[i] == SnapshotRowOf(df[i], date);
    ReplaceDateBatchSame(rows, batch, date);
    forall d | d != date
      ensures RowsOn(Filter(rows, KeyIsNot(SnapshotDate, date)) + batch, d) == RowsOn(rows, d)
    {
      ReplaceDateBatchOther(rows, batch, date, d);
    }
  }

  class DataStore {
    const marketDataDir: string
    const db: DbManager
    /** The file system under the market-data directory, by path. */
    var files: map<string, StoredFile>

    ghost predicate Valid()
      reads this, db
    {
      db.Valid()
    }

    /** `DataStore()`: open the database file `img` and find `disk` on the file system. */
    constructor (img: DbImage, disk: map<string, StoredFile>)
      requires ImageValid(img)
      ensures Valid() && fresh(db)
      ensures marketDataDir == MarketDataDir && files == disk
      ensures db.techSignals == OrEmpty(img.techSignals)
      ensures db.portfolioSnapshots == OrEmpty(img.portfolioSnapshots)
      ensures db.marketSentiment == OrEmpty(img.marketSentiment)
      ensures db.systemCache == OrEmpty(img.systemCache)
    {
      marketDataDir := MarketDataDir;
      db := new DbManager(img);
      files := disk;
    }

    // --- TTL cache ---

    /** `get_cache(key)` at `now`; Python's `None` is `Null`. */
    function GetCache(key: string, now: Instant): (r: Json)
      requires Valid()
      reads this, db
      ensures forall i :: 0 <= i < |db.systemCache| && db.systemCache[i].key == key ==>
        r == if db.systemCache[i].expiresAt > now then db.systemCache[i].value else Null
      ensures (forall i :: 0 <= i < |db.systemCache| ==> db.systemCache[i].key != key) ==> r == Null
    {
      match First(db.systemCache, LiveUnder(key, now))
      case Some(row) => row.value
      case None => Null
    }

    /** `set_cache(key, value, ttl_minutes)` at `now`: delete the key's row, insert the new one. */
    method SetCache(key: string, value: Json, ttlMinutes: int, now: Instant)
      requires Valid()
      modifies db
      ensures Valid()
      ensures db.systemCache == Filter(old(db.systemCache), KeyIsNot(CacheKey, key)) +
        [CacheRow(key, value, now + ttlMinutes * MicrosPerMinute)]
      ensures db.techSignals == old(db.techSignals) && db.marketSentiment == old(db.marketSentiment)
      ensures db.portfolioSnapshots == old(db.portfolioSnapshots)
      ensures exists i :: 0 <= i < |db.systemCache| && db.systemCache[i].key == key
      ensures forall t :: GetCache(key, t) == if t < now + ttlMinutes * MicrosPerMinute then value else Null
      ensures forall k, t :: k != key ==> GetCache(k, t) == old(GetCache(k, t))
    {
      var row := CacheRow(key, value, now + ttlMinutes * MicrosPerMinute);
      var kept := Filter(db.systemCache, KeyIsNot(CacheKey, key));
      DeleteMakesRoom(db.systemCache, row, CacheKey);
      var inserted := Insert(kept, row, CacheKey);
      ghost var before := db.systemCache;
      db.systemCache := inserted.value;
      assert db.systemCache[|kept|] == row;
      forall t ensures GetCache(key, t) == if t < row.expiresAt then value else Null {
        FirstAfterReplace(before, row, CacheKey, LiveUnder(key, t));
      }
      forall k, t | k != key ensures GetCache(k, t) == old(GetCache(k, t)) {
        FirstAfterReplaceOther(before, row, CacheKey, LiveUnder(k, t));
      }
    }

    // --- Market data ---

    /** `is_market_data_fresh(symbol)` at `now`: the marker reads as a live, non-null value. */
    function IsMarketDataFresh(symbol: string, now: Instant): (isFresh: bool)
      requires Valid()
      reads this, db
      ensures isFresh <==> exists i :: 0 <= i < |db.systemCache| && LiveMarker(db.systemCache[i], symbol, now)
    {
      GetCache(MarkerKey(symbol), now) != Null
    }

    /**
     * `load_market_data(symbol)`: the stored frame when the file exists and
     * reads, else an empty frame. The marker is consulted by the source but
     * does not affect the result, so this reads the files alone.
     */
    function LoadMarketData(symbol: string): (df: seq<Bar>)
      reads this
      ensures var path := MarketDataPath(marketDataDir, symbol);
        df == if path in files && files[path].Parquet? then files[path].frame else []
    {
      var path := MarketDataPath(marketDataDir, symbol);
      if path in files then
        match files[path]
        case Parquet(frame) => frame
        case Unreadable => []
      else []
    }

    /**
     * `save_market_data(df, symbol)` at `now`. An empty frame changes nothing;
     * otherwise the file is overwritten and the symbol's marker set to
     * "updated" for 12 hours.
     */
    method SaveMarketData(df: seq<Bar>, symbol: string, now: Instant)
      requires Valid()
      modifies this, db
      ensures Valid()
      ensures db.techSignals == old(db.techSignals) && db.marketSentiment == old(db.marketSentiment)
      ensures db.portfolioSnapshots == old(db.portfolioSnapshots)
      ensures df == [] ==> files == old(files) && db.systemCache == old(db.systemCache)
      ensures df != [] ==> files == old(files)[MarketDataPath(marketDataDir, symbol) := Parquet(df)]
      ensures df != [] ==> (db.systemCache ==
        Filter(old(db.systemCache), KeyIsNot(CacheKey, MarkerKey(symbol))) +
        [CacheRow(MarkerKey(symbol), Updated, now + MarketDataTtlMinutes * MicrosPerMinute)])
      ensures df != [] ==> LoadMarketData(symbol) == df
      ensures df != [] ==> forall t :: IsMarketDataFresh(symbol, t) <==> t < now + 720 * MicrosPerMinute
      ensures forall s, t :: s != symbol ==> IsMarketDataFresh(s, t) == old(IsMarketDataFresh(s, t))
    {
      if df == [] {
        return;
      }
      var path := MarketDataPath(marketDataDir, symbol);
      files := files[path := Parquet(df)];
      SetCache(MarkerKey(symbol), Updated, MarketDataTtlMinutes, now);
      forall s | s != symbol ensures MarkerKey(s) != MarkerKey(symbol) {
        MarkerKeyInjective(s, symbol);
      }
    }

    // --- Tech signals ---

    /** `get_signal(symbol, date)`: the stored signal for that pair, or None. */
    function GetSignal(symbol: string, date: string): (r: Option<Signal>)
      requires Valid()
      reads this, db
      ensures r.None? <==> forall i :: 0 <= i < |db.techSignals| ==> SignalKey(db.techSignals[i]) != (symbol, date)
      ensures forall i :: 0 <= i < |db.techSignals| && SignalKey(db.techSignals[i]) == (symbol, date) ==>
        r == Some(SignalOf(db.techSignals[i]))
    {
      match First(db.techSignals, KeyIs(SignalKey, (symbol, date)))
      case Some(row) => Some(SignalOf(row))
      case None => None
    }

    /**
     * `save_signal(symbol, asset_type, date_str, signal_dict)`: delete the
     * pair's row, insert the new one. A `None` symbol, asset type or date
     * violates NOT NULL: the insert raises and the transaction, delete
     * included, is rolled back.
     */
    method SaveSignal(symbol: Option<string>, assetType: Option<string>, date: Option<string>, signal: Signal)
      returns (outcome: Outcome<DbError>)
      requires Valid()
      modifies db
      ensures Valid()
      ensures outcome.Pass? <==> symbol.Some? && assetType.Some? && date.Some?
      ensures outcome.Fail? ==> outcome.error == IntegrityError("tech_signals")
      ensures outcome.Fail? ==> db.techSignals == old(db.techSignals)
      ensures outcome.Pass? ==> (db.techSignals ==
        Filter(old(db.techSignals), KeyIsNot(SignalKey, (symbol.value, date.value))) +
        [SignalRowOf(symbol.value, assetType.value, date.value, signal)])
      ensures db.systemCache == old(db.systemCache) && db.marketSentiment == old(db.marketSentiment)
      ensures db.portfolioSnapshots == old(db.portfolioSnapshots)
      ensures outcome.Pass? ==> GetSignal(symbol.value, date.value) == Some(signal)
      ensures forall s, d :: outcome.Fail? || Some(s) != symbol || Some(d) != date ==>
        GetSignal(s, d) == old(GetSignal(s, d))
    {
      if symbol.None? || assetType.None? || date.None? {
        return Fail(IntegrityError("tech_signals"));
      }
      var key := (symbol.value, date.value);
      var row := SignalRowOf(symbol.value, assetType.value, date.value, signal);
      var kept := Filter(db.techSignals, KeyIsNot(SignalKey, key));
      DeleteMakesRoom(db.techSignals, row, SignalKey);
      var inserted := Insert(kept, row, SignalKey);
      ghost var before := db.techSignals;
      db.techSignals := inserted.value;
      FirstAfterReplace(before, row, SignalKey, KeyIs(SignalKey, key));
      SignalRoundTrip(symbol.value, assetType.value, date.value, signal);
      forall s, d | (s, d) != key ensures GetSignal(s, d) == old(GetSignal(s, d)) {
        FirstAfterReplaceOther(before, row, SignalKey, KeyIs(SignalKey, (s, d)));
      }
      outcome := Pass;
    }

    // --- Portfolio snapshots ---

    /**
     * `save_portfolio_snapshot(df, date)`. An empty frame changes nothing.
     * Otherwise every row of `date` is deleted and one row per holding is
     * inserted; a holding without symbol or type violates NOT NULL, the
     * insert raises and the transaction, delete included, is rolled back.
     */
    method SavePortfolioSnapshot(df: seq<Holding>, date: string) returns (outcome: Outcome<DbError>)
      requires Valid()
      modifies db
      ensures Valid()
      ensures db.techSignals == old(db.techSignals) && db.marketSentiment == old(db.marketSentiment)
      ensures db.systemCache == old(db.systemCache)
      ensures outcome.Pass? <==> forall i :: 0 <= i < |df| ==> HoldingNotNull(df[i])
      ensures outcome.Fail? || df == [] ==> db.portfolioSnapshots == old(db.portfolioSnapshots)
      ensures outcome.Pass? && df != [] ==> (db.portfolioSnapshots ==
        Filter(old(db.portfolioSnapshots), KeyIsNot(SnapshotDate, date)) + SnapshotBatch(df, date))
      ensures outcome.Pass? && df != [] ==> RowsOn(db.portfolioSnapshots, date) == SnapshotBatch(df, date)
      ensures forall d :: d != date ==> RowsOn(db.portfolioSnapshots, d) == RowsOn(old(db.portfolioSnapshots), d)
    {
      if df == [] {
        return Pass;
      }
      var kept := Filter(db.portfolioSnapshots, KeyIsNot(SnapshotDate, date));
      var values := BuildSnapshotRows(df, date);
      var inserted := InsertSnapshots(kept, values);
      if inserted.None? {
        return Fail(IntegrityError("portfolio_snapshots"));
      }
      ReplaceDateBatch(db.portfolioSnapshots, df, date);
      db.portfolioSnapshots := inserted.value;
      outcome := Pass;
    }

    // --- Market sentiment ---

    /** `get_sentiment(date)`: `{value, classification}` of the date's row, or None. */
    function GetSentiment(date: string): (r: Option<Sentiment>)
      requires Valid()
      reads this, db
      ensures r.None? <==> forall i :: 0 <= i < |db.marketSentiment| ==> db.marketSentiment[i].date != date
      ensures forall i :: 0 <= i < |db.marketSentiment| && db.marketSentiment[i].date == date ==>
        r == Some(Sentiment(db.marketSentiment[i].value, db.marketSentiment[i].classification))
    {
      match First(db.marketSentiment, KeyIs(SentimentDate, date))
      case Some(row) => Some(Sentiment(row.value, row.classification))
      case None => None
    }

    /** `save_sentiment(date, sentiment)`: delete the date's row, insert the new one. */
    method SaveSentiment(date: string, sentiment: Sentiment)
      requires Valid()
      modifies db
      ensures Valid()
      ensures db.marketSentiment == Filter(old(db.marketSentiment), KeyIsNot(SentimentDate, date)) +
        [SentimentRow(date, sentiment.value, sentiment.classification)]
      ensures db.techSignals == old(db.techSignals) && db.systemCache == old(db.systemCache)
      ensures db.portfolioSnapshots == old(db.portfolioSnapshots)
      ensures GetSentiment(date) == Some(sentiment)
      ensures forall d :: d != date ==> GetSentiment(d) == old(GetSentiment(d))
    {
      var row := SentimentRow(date, sentiment.value, sentiment.classification);
      var kept := Filter(db.marketSentiment, KeyIsNot(SentimentDate, date));
      DeleteMakesRoom(db.marketSentiment, row, SentimentDate);
      var inserted := Insert(kept, row, SentimentDate);
      ghost var before := db.marketSentiment;
      db.marketSentiment := inserted.value;
      FirstAfterReplace(before, row, SentimentDate, KeyIs(SentimentDate, date));
      forall d | d != date ensures GetSentiment(d) == old(GetSentiment(d)) {
        FirstAfterReplaceOther(before, row, SentimentDate, KeyIs(SentimentDate, d));
      }
    }
  }

  /**
   * The freshness protocol as a caller sees it through the contracts alone:
   * the marker of a saved symbol is live 11 hours later and gone at 12, and
   * a 60-minute cache entry is readable at 59 minutes and absent at 61.
   */
  method FreshnessScenario(store: DataStore, df: seq<Bar>, now: Instant)
    requires store.Valid() && df != []
    modifies store, store.db
    ensures store.Valid()
    ensures store.LoadMarketData("BTC") == df
    ensures store.IsMarketDataFresh("BTC", now + 11 * 60 * MicrosPerMinute)
    ensures !store.IsMarketDataFresh("BTC", now + 12 * 60 * MicrosPerMinute)
    ensures store.GetCache("portfolio_data", now + 59 * MicrosPerMinute) == Str("cached")
    ensures store.GetCache("portfolio_data", now + 61 * MicrosPerMinute) == Null
  {
    var hour := 60 * MicrosPerMinute;
    store.SaveMarketData(df, "BTC", now);
    ghost var live := store.GetCache(MarkerKey("BTC"), now + 11 * hour);
    ghost var gone := store.GetCache(MarkerKey("BTC"), now + 12 * hour);
    assert store.IsMarketDataFresh("BTC", now + 11 * hour);
    assert !store.IsMarketDataFresh("BTC", now + 12 * hour);
    store.SetCache("portfolio_data", Str("cached"), 60, now);
    assert MarkerKey("BTC") != "portfolio_data";
    assert store.GetCache(MarkerKey("BTC"), now + 11 * hour) == live;
    assert store.GetCache(MarkerKey("BTC"), now + 12 * hour) == gone;
  }

  /**
   * A signal computed from a frame and saved under the date of the frame's
   * last bar reads back unchanged.
   */
  method SignalScenario(store: DataStore, df: seq<Bar>, k: Kernels) returns (signal: Option<Signal>)
    requires store.Valid() && df != []
    modifies store.db
    ensures store.Valid()
    ensures signal == Analyze(df, "Crypto", k)
    ensures signal.Some? ==> store.GetSignal("BTC", df[|df| - 1].date) == signal
  {
    signal := Analyze(df, "Crypto", k);
    if signal.Some? {
      var outcome := store.SaveSignal(Some("BTC"), Some("Crypto"), Some(df[|df| - 1].date), signal.value);
    }
  }

  /** A batch of three rows saved after a batch of five for the same date leaves three. */
  method SnapshotScenario(store: DataStore, first: seq<Holding>, second: seq<Holding>, date: string)
    requires store.Valid()
    requires |first| == 5 && |second| == 3
    requires forall i :: 0 <= i < |first| ==> HoldingNotNull(first[i])
    requires forall i :: 0 <= i < |second| ==> HoldingNotNull(second[i])
    modifies store.db
    ensures store.Valid()
    ensures |RowsOn(store.db.portfolioSnapshots, date)| == 3
  {
    var outcome := store.SavePortfolioSnapshot(first, date);
    outcome := store.SavePortfolioSnapshot(second, date);
  }
}
