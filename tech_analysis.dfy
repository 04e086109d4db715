/**
 * `TechnicalAnalysisService.analyze` (investment_bot/services/tech_analysis.py):
 * the choice of indicator windows by asset class and history length, the
 * flags and trend derived from them, and the guards around the computation.
 * The numeric kernels of the `ta` library and Python's `round(x, 2)` are
 * parameters: the model says which kernel is called with which window and
 * what is done with its result, not how the kernel computes it.
 */
module TechAnalysis {
  import opened Wrappers
  import opened Frame

  // Parameters from investment_bot/config.py.
  const RsiPeriodStock: nat := 14
  const RsiPeriodCrypto: nat := 6
  const RsiOverbought: real := 75.0
  const RsiOversold: real := 30.0
  const EmaShort: nat := 20
  const EmaMedium: nat := 60
  const EmaLong: nat := 120
  const EmaCryptoFast: nat := 5
  const EmaCryptoMid: nat := 10
  const EmaCryptoSlow: nat := 20
  const MacdFast: nat := 12
  const MacdSlow: nat := 26
  const MacdSignal: nat := 9
  const BbWindow: nat := 20
  const BbStdDev: nat := 2

  /** The window of the crypto trend EMA, written inline in `analyze`. */
  const EmaCryptoTrend: nat := 60
  /** Fewer bars than this and `analyze` returns None. */
  const MinBars: nat := 20

  const Crypto: string := "Crypto"
  const Bullish: string := "Bullish"
  const Bearish: string := "Bearish"

  /** The last values of `MACD.macd()`, `.macd_signal()` and `.macd_diff()`. */
  datatype MacdOutput = MacdOutput(line: real, signal: real, diff: real)
  /** The last values of `BollingerBands.bollinger_hband()` and `.bollinger_lband()`. */
  datatype BandsOutput = BandsOutput(hband: real, lband: real)

  /**
   * The foreign numerics `analyze` calls, each giving the last value of its
   * series for the closes and windows passed, or None when it raises.
   */
  datatype Kernels = Kernels(
    rsi: (seq<real>, nat) -> Option<real>,
    ema: (seq<real>, nat) -> Option<real>,
    macd: (seq<real>, nat, nat, nat) -> Option<MacdOutput>,
    bollinger: (seq<real>, nat, nat) -> Option<BandsOutput>,
    round2: real -> real)

  datatype EmaValues = EmaValues(fast: real, mid: real, slow: real)
  datatype MacdValues = MacdValues(line: real, signal: real, hist: real)
  datatype BbValues = BbValues(upper: real, lower: real, pctB: real)

  /** The signal dictionary `analyze` returns. */
  datatype Signal = Signal(
    currentPrice: real,
    rsi: real,
    isOverbought: bool,
    isOversold: bool,
    trend: string,
    emaValues: EmaValues,
    macd: MacdValues,
    bb: BbValues)

  /** The EMA window behind each EMA output and behind the trend reference. */
  datatype EmaPlan = EmaPlan(fast: nat, mid: nat, slow: nat, trendRef: nat)

  /** The RSI window for an asset class: only the exact string "Crypto" selects the short one. */
  function RsiPeriod(assetType: string): (w: nat)
    ensures w == RsiPeriodCrypto <==> assetType == Crypto
    ensures w == RsiPeriodCrypto || w == RsiPeriodStock
  {
    if assetType == Crypto then RsiPeriodCrypto else RsiPeriodStock
  }

  /**
   * The EMA windows used for a series of `n` bars. Crypto uses 5/10/20 and a
   * 60-bar trend reference once 60 bars exist, else the slow EMA. Other assets
   * use 20 for fast; 60 for mid and trend once 60 bars exist, else fast; 120
   * for slow once 120 bars exist, else mid.
   */
  function PlanEma(assetType: string, n: nat): (p: EmaPlan)
    ensures n >= MinBars ==> p.fast <= p.mid <= p.slow <= n && p.trendRef <= n
    ensures p.trendRef == if n >= EmaMedium then EmaMedium else EmaShort
    ensures assetType != Crypto ==> p.trendRef == p.mid
    ensures assetType == Crypto ==> p.trendRef == (if n >= EmaCryptoTrend then EmaCryptoTrend else p.slow)
  {
    if assetType == Crypto then
      EmaPlan(EmaCryptoFast, EmaCryptoMid, EmaCryptoSlow,
              if n >= EmaCryptoTrend then EmaCryptoTrend else EmaCryptoSlow)
    else
      var mid := if n >= EmaMedium then EmaMedium else EmaShort;
      var slow := if n >= EmaLong then EmaLong else mid;
      EmaPlan(EmaShort, mid, slow, mid)
  }

  /** `%B`, with the guard for a zero-width band. */
  function PercentB(price: real, bands: BandsOutput, round2: real -> real): (b: real)
    ensures bands.hband - bands.lband == 0.0 ==> b == 0.0
    ensures bands.hband - bands.lband != 0.0 ==>
      b == round2((price - bands.lband) / (bands.hband - bands.lband))
  {
    var width := bands.hband - bands.lband;
    if width != 0.0 then round2((price - bands.lband) / width) else 0.0
  }

  /**
   * `analyze(df, asset_type)`. A frame shorter than `MinBars` (or empty) gives
   * None; so does any kernel that raises. Flags and trend use the unrounded
   * values; every emitted number goes through `round2`.
   */
  function Analyze(df: seq<Bar>, assetType: string, k: Kernels): (r: Option<Signal>)
    ensures |df| < MinBars ==> r == None
    ensures r.Some? ==> !(r.value.isOverbought && r.value.isOversold)
    ensures r.Some? ==> r.value.trend == Bullish || r.value.trend == Bearish
  {
    if |df| == 0 || |df| < MinBars then None
    else
      var close := Closes(df);
      var n := |close|;
      var rsi :- k.rsi(close, RsiPeriod(assetType));
      var plan := PlanEma(assetType, n);
      var fast :- k.ema(close, plan.fast);
      var mid :- k.ema(close, plan.mid);
      var slow :- k.ema(close, plan.slow);
      var trendRef :- k.ema(close, plan.trendRef);
      var macd :- k.macd(close, MacdSlow, MacdFast, MacdSignal);
      var bands :- k.bollinger(close, BbWindow, BbStdDev);
      var price := close[n - 1];
      Some(Signal(
        k.round2(price),
        k.round2(rsi),
        rsi > RsiOverbought,
        rsi < RsiOversold,
        if price > trendRef then Bullish else Bearish,
        EmaValues(k.round2(fast), k.round2(mid), k.round2(slow)),
        MacdValues(k.round2(macd.line), k.round2(macd.signal), k.round2(macd.diff)),
        BbValues(k.round2(bands.hband), k.round2(bands.lband), PercentB(price, bands, k.round2))))
  }

  /**
   * The EMA windows `analyze` asks the kernel for, read off the configuration:
   * crypto always 5, 10 and 20, plus 60 from 60 bars on; other assets always
   * 20, plus 60 from 60 bars and 120 from 120 bars on.
   */
  function InvokedEmaWindows(assetType: string, n: nat): set<nat> {
    if assetType == Crypto then
      {EmaCryptoFast, EmaCryptoMid, EmaCryptoSlow} + (if n >= EmaCryptoTrend then {EmaCryptoTrend} else {})
    else
      {EmaShort} + (if n >= EmaMedium then {EmaMedium} else {}) + (if n >= EmaLong then {EmaLong} else {})
  }

  /** The plan's four windows are exactly the EMAs the source computes, no more. */
  lemma PlanUsesInvokedWindows(assetType: string, n: nat)
    ensures var p := PlanEma(assetType, n);
      {p.fast, p.mid, p.slow, p.trendRef} == InvokedEmaWindows(assetType, n)
  {
  }

  /**
   * `analyze` yields a signal exactly when there are at least `MinBars` bars
   * and none of the kernels it calls raises.
   */
  lemma AnalyzeSucceedsIff(df: seq<Bar>, assetType: string, k: Kernels)
    ensures var c := Closes(df);
      Analyze(df, assetType, k).Some? <==>
        && |df| >= MinBars
        && k.rsi(c, RsiPeriod(assetType)).Some?
        && (forall w :: w in InvokedEmaWindows(assetType, |df|) ==> k.ema(c, w).Some?)
        && k.macd(c, MacdSlow, MacdFast, MacdSignal).Some?
        && k.bollinger(c, BbWindow, BbStdDev).Some?
  {
    PlanUsesInvokedWindows(assetType, |df|);
  }

  /**
   * RSI uses 6 bars for "Crypto" and 14 otherwise; the flags compare the
   * unrounded RSI strictly against 75 and 30; the emitted RSI is rounded.
   */
  lemma AnalyzeRsi(df: seq<Bar>, assetType: string, k: Kernels)
    requires Analyze(df, assetType, k).Some?
    ensures var s := Analyze(df, assetType, k).value;
      var raw := k.rsi(Closes(df), if assetType == "Crypto" then 6 else 14);
      && raw.Some?
      && s.rsi == k.round2(raw.value)
      && (s.isOverbought <==> raw.value > 75.0)
      && (s.isOversold <==> raw.value < 30.0)
  {
  }

  /**
   * The EMA outputs by asset class and length, with their fallbacks, and the
   * trend: "Bullish" exactly when the last close is strictly above the
   * unrounded 60-bar EMA (or, below 60 bars, the 20-bar EMA).
   */
  lemma AnalyzeEma(df: seq<Bar>, assetType: string, k: Kernels)
    requires Analyze(df, assetType, k).Some?
    ensures var s := Analyze(df, assetType, k).value;
      var c := Closes(df);
      var n := |df|;
      && k.ema(c, 20).Some?
      && (n >= 60 ==> k.ema(c, 60).Some?)
      && (assetType == "Crypto" ==>
            && k.ema(c, 5).Some? && k.ema(c, 10).Some?
            && s.emaValues == EmaValues(k.round2(k.ema(c, 5).value), k.round2(k.ema(c, 10).value),
                                        k.round2(k.ema(c, 20).value)))
      && (assetType != "Crypto" ==>
            && (n >= 120 ==> k.ema(c, 120).Some?)
            && s.emaValues.fast == k.round2(k.ema(c, 20).value)
            && s.emaValues.mid == (if n >= 60 then k.round2(k.ema(c, 60).value) else s.emaValues.fast)
            && s.emaValues.slow == (if n >= 120 then k.round2(k.ema(c, 120).value) else s.emaValues.mid))
      && (s.trend == "Bullish" <==>
            c[n - 1] > (if n >= 60 then k.ema(c, 60).value else k.ema(c, 20).value))
  {
  }

  /**
   * MACD is 12/26/9 with `macd_diff` as histogram; Bollinger is 20 bars at 2
   * deviations; `%B` is 0 for a zero-width band and the rounded position of
   * the last close in the band otherwise; the price is the rounded last close.
   */
  lemma AnalyzeMacdAndBands(df: seq<Bar>, assetType: string, k: Kernels)
    requires Analyze(df, assetType, k).Some?
    ensures var s := Analyze(df, assetType, k).value;
      var c := Closes(df);
      var m := k.macd(c, 26, 12, 9);
      var b := k.bollinger(c, 20, 2);
      var price := df[|df| - 1].close;
      && m.Some? && b.Some?
      && s.currentPrice == k.round2(price)
      && s.macd == MacdValues(k.round2(m.value.line), k.round2(m.value.signal), k.round2(m.value.diff))
      && s.bb.upper == k.round2(b.value.hband)
      && s.bb.lower == k.round2(b.value.lband)
      && (b.value.hband == b.value.lband ==> s.bb.pctB == 0.0)
      && (b.value.hband != b.value.lband ==>
            s.bb.pctB == k.round2((price - b.value.lband) / (b.value.hband - b.value.lband)))
  {
  }

  /**
   * Twenty bars at one price whose bands have zero width and whose 20-bar EMA
   * equals that price: the signal exists, `%B` is 0 and the trend is
   * "Bearish", since equality is not "strictly above".
   */
  lemma FlatSeriesIsBearish(df: seq<Bar>, assetType: string, k: Kernels, price: real)
    requires |df| == MinBars
    requires forall i :: 0 <= i < |df| ==> df[i].close == price
    requires forall w :: k.rsi(Closes(df), w).Some? && k.ema(Closes(df), w).Some?
    requires k.ema(Closes(df), 20) == Some(price)
    requires k.macd(Closes(df), MacdSlow, MacdFast, MacdSignal).Some?
    requires k.bollinger(Closes(df), BbWindow, BbStdDev) == Some(BandsOutput(price, price))
    ensures Analyze(df, assetType, k).Some?
    ensures Analyze(df, assetType, k).value.bb.pctB == 0.0
    ensures Analyze(df, assetType, k).value.trend == Bearish
  {
  }
}
