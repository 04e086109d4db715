/**
 * The SQLite schema of `DBManager` (investment_bot/utils/db_manager.py): the
 * four tables, the constraints SQLite enforces on them, and the creation of
 * missing tables when the manager is opened.
 */
module Db {
  import opened Wrappers
  import opened Table

  /** A `DateTime` column value, in microseconds on an arbitrary epoch. */
  type Instant = int

  /** The JSON text in `system_cache.value`, held as the value it encodes. */
  datatype Json =
    | Null
    | Bool(b: bool)
    | Num(x: real)
    | Str(s: string)
    | Arr(items: seq<Json>)
    | Obj(fields: map<string, Json>)

  /** A row of `tech_signals` (the `id` and `created_at` columns are not modelled). */
  datatype SignalRow = SignalRow(
    symbol: string, assetType: string, date: string,
    currentPrice: real,
    rsi: real, isOverbought: bool, isOversold: bool,
    trend: string, emaFast: real, emaMid: real, emaSlow: real,
    macdLine: real, macdSignal: real, macdHist: real,
    bbUpper: real, bbLower: real, bbPctB: real)

  /** A row of `portfolio_snapshots`; `None` in `symbol` or `assetType` is SQL NULL. */
  datatype SnapshotRow = SnapshotRow(
    date: string, symbol: Option<string>, assetType: Option<string>,
    qty: real, costBasis: real, marketPrice: real, marketValue: real,
    unrealizedPl: real, returnRate: real)

  /** A row of `market_sentiment`. */
  datatype SentimentRow = SentimentRow(date: string, value: int, classification: string)

  /** A row of `system_cache`. */
  datatype CacheRow = CacheRow(key: string, value: Json, expiresAt: Instant)

  /** The integrity error SQLite raises when an insert violates a constraint of `table`. */
  datatype DbError = IntegrityError(table: string)

  /** `UniqueConstraint('symbol', 'date')` of `tech_signals`. */
  function SignalKey(r: SignalRow): (string, string) { (r.symbol, r.date) }
  /** The indexed, non-unique `date` column of `portfolio_snapshots`. */
  function SnapshotDate(r: SnapshotRow): string { r.date }
  /** `date` is `unique=True` in `market_sentiment`. */
  function SentimentDate(r: SentimentRow): string { r.date }
  /** `key` is the primary key of `system_cache`. */
  function CacheKey(r: CacheRow): string { r.key }

  /** The NOT NULL constraints on `symbol` and `asset_type` of `portfolio_snapshots`. */
  predicate SnapshotNotNull(r: SnapshotRow) {
    r.symbol.Some? && r.assetType.Some?
  }

  /**
   * A multi-row `INSERT` into `portfolio_snapshots`: SQLite checks every row
   * and raises if any violates NOT NULL, and then nothing is inserted. There is
   * no uniqueness check: the table has only a plain index on `date`.
   */
  function InsertSnapshots(rows: seq<SnapshotRow>, batch: seq<SnapshotRow>): (r: Option<seq<SnapshotRow>>)
    ensures r.Some? <==> forall i :: 0 <= i < |batch| ==> SnapshotNotNull(batch[i])
    ensures r.Some? ==> r.value == rows + batch
  {
    if forall i :: 0 <= i < |batch| ==> SnapshotNotNull(batch[i]) then Some(rows + batch) else None
  }

  /** The constraints SQLite keeps on each table. */
  ghost predicate SignalsValid(rows: seq<SignalRow>) { UniqueOn(rows, SignalKey) }
  ghost predicate SnapshotsValid(rows: seq<SnapshotRow>) {
    forall i :: 0 <= i < |rows| ==> SnapshotNotNull(rows[i])
  }
  ghost predicate SentimentValid(rows: seq<SentimentRow>) { UniqueOn(rows, SentimentDate) }
  ghost predicate CacheValid(rows: seq<CacheRow>) { UniqueOn(rows, CacheKey) }

  /**
   * The database file as found on disk when the manager opens it: each table
   * is either present with its rows or absent.
   */
  datatype DbImage = DbImage(
    techSignals: Option<seq<SignalRow>>,
    portfolioSnapshots: Option<seq<SnapshotRow>>,
    marketSentiment: Option<seq<SentimentRow>>,
    systemCache: Option<seq<CacheRow>>)

  /** Tables present in a file satisfy the constraints SQLite enforced while writing them. */
  ghost predicate ImageValid(img: DbImage) {
    && (img.techSignals.Some? ==> SignalsValid(img.techSignals.value))
    && (img.portfolioSnapshots.Some? ==> SnapshotsValid(img.portfolioSnapshots.value))
    && (img.marketSentiment.Some? ==> SentimentValid(img.marketSentiment.value))
    && (img.systemCache.Some? ==> CacheValid(img.systemCache.value))
  }

  function OrEmpty<T>(t: Option<seq<T>>): seq<T> {
    if t.Some? then t.value else []
  }

  /** `metadata.create_all`: create each missing table empty, leave present ones alone. */
  function CreateAll(img: DbImage): (r: DbImage)
    ensures r.techSignals.Some? && r.portfolioSnapshots.Some?
    ensures r.marketSentiment.Some? && r.systemCache.Some?
    ensures img.techSignals.Some? ==> r.techSignals == img.techSignals
    ensures img.portfolioSnapshots.Some? ==> r.portfolioSnapshots == img.portfolioSnapshots
    ensures img.marketSentiment.Some? ==> r.marketSentiment == img.marketSentiment
    ensures img.systemCache.Some? ==> r.systemCache == img.systemCache
    ensures img.techSignals.None? ==> r.techSignals == Some([])
    ensures img.portfolioSnapshots.None? ==> r.portfolioSnapshots == Some([])
    ensures img.marketSentiment.None? ==> r.marketSentiment == Some([])
    ensures img.systemCache.None? ==> r.systemCache == Some([])
  {
    DbImage(
      Some(OrEmpty(img.techSignals)),
      Some(OrEmpty(img.portfolioSnapshots)),
      Some(OrEmpty(img.marketSentiment)),
      Some(OrEmpty(img.systemCache)))
  }

  /** Opening the same file twice creates nothing the second time. */
  lemma CreateAllIdempotent(img: DbImage)
    ensures CreateAll(CreateAll(img)) == CreateAll(img)
  {
  }

  /** `create_all` produces a file that satisfies every constraint. */
  lemma CreateAllValid(img: DbImage)
    requires ImageValid(img)
    ensures ImageValid(CreateAll(img))
  {
  }

  /**
   * `portfolio_snapshots` has no uniqueness constraint: SQLite accepts two
   * identical rows for the same date and symbol.
   */
  lemma SnapshotsAllowDuplicates(row: SnapshotRow)
    requires SnapshotNotNull(row)
    ensures InsertSnapshots([row], [row]) == Some([row, row])
    ensures SnapshotsValid([row, row])
  {
    assert [row] + [row] == [row, row];
  }

  /**
   * The tables of one open database (`DBManager.__init__` and `_define_tables`).
   */
  class DbManager {
    var techSignals: seq<SignalRow>
    var portfolioSnapshots: seq<SnapshotRow>
    var marketSentiment: seq<SentimentRow>
    var systemCache: seq<CacheRow>

    ghost predicate Valid()
      reads this
    {
      && SignalsValid(techSignals)
      && SnapshotsValid(portfolioSnapshots)
      && SentimentValid(marketSentiment)
      && CacheValid(systemCache)
    }

    /** Open the database file `img`, creating the tables it lacks. */
    constructor (img: DbImage)
      requires ImageValid(img)
      ensures Valid()
      ensures techSignals == OrEmpty(img.techSignals)
      ensures portfolioSnapshots == OrEmpty(img.portfolioSnapshots)
      ensures marketSentiment == OrEmpty(img.marketSentiment)
      ensures systemCache == OrEmpty(img.systemCache)
    {
      var created := CreateAll(img);
      techSignals := created.techSignals.value;
      portfolioSnapshots := created.portfolioSnapshots.value;
      marketSentiment := created.marketSentiment.value;
      systemCache := created.systemCache.value;
    }
  }
}
