/** The OHLCV price history the fetchers produce and the market-data store keeps. */
module Frame {

  /** One daily bar: a row of the price DataFrame. */
  datatype Bar = Bar(date: string, open: real, high: real, low: real, close: real, volume: real)

  /** The `Close` column of a frame, oldest bar first. */
  function Closes(df: seq<Bar>): (c: seq<real>)
    ensures |c| == |df|
    ensures forall i :: 0 <= i < |df| ==> c[i] == df[i].close
  {
    seq(|df|, i requires 0 <= i < |df| => df[i].close)
  }
}
