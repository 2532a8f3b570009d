/** `calculate_indicators`: the price frame and the five indicator columns it gains in place. */
module Indicators {
  import opened Wrappers
  import opened Rolling
  import Oscillators

  /** Window of the short simple moving average (MA20). */
  const ShortWindow: nat := 20
  /** Window of the long simple moving average (MA50). */
  const LongWindow: nat := 50
  /** Look-back of the RSI. */
  const RsiPeriod: nat := 14
  /** Spans of the fast and slow EMAs of MACD and of its signal line. */
  const FastSpan: nat := 12
  const SlowSpan: nat := 26
  const SignalSpan: nat := 9

  /** The columns `calculate_indicators` adds, named as in the frame. */
  datatype Column = MA20 | MA50 | RSI | MACD | Signal

  /** Why reading a frame cell fails: a column that is not there, or a position before the
      first row (`iloc[-k]` on fewer than k rows). */
  datatype Error = KeyError(column: Column) | IndexError

  /** A column that pandas never fills with NaN, stored with the others. */
  function Defined(s: seq<real>): (r: seq<Option<real>>)
    ensures |r| == |s| && forall i :: 0 <= i < |r| ==> r[i].Some?
  {
    seq(|s|, i requires 0 <= i < |s| => Some(s[i]))
  }

  /** The five indicator columns computed from the closes (NaN is `None`). */
  function IndicatorColumns(close: seq<real>): (m: map<Column, seq<Option<real>>>)
    ensures m.Keys == {MA20, MA50, RSI, MACD, Signal}
    ensures forall c :: c in m ==> |m[c]| == |close|
  {
    var macd := Oscillators.CalculateMacd(close, FastSpan, SlowSpan, SignalSpan);
    map[MA20 := RollingMean(close, ShortWindow), MA50 := RollingMean(close, LongWindow),
        RSI := Oscillators.Rsi(close, RsiPeriod), MACD := Defined(macd.0), Signal := Defined(macd.1)]
  }

  /** The price frame: one row per candle, the raw close, high and low columns, and the
      derived columns added so far. */
  class Frame {
    var close: seq<real>
    var high: seq<real>
    var low: seq<real>
    var columns: map<Column, seq<Option<real>>>

    /** Every column has one value per row. */
    ghost predicate Valid()
      reads this
    {
      |high| == |close| && |low| == |close| && forall c :: c in columns ==> |columns[c]| == |close|
    }

    /** A frame of candles with no derived columns yet. */
    constructor (close: seq<real>, high: seq<real>, low: seq<real>)
      requires |high| == |close| && |low| == |close|
      ensures Valid()
      ensures this.close == close && this.high == high && this.low == low && columns == map[]
    {
      this.close := close;
      this.high := high;
      this.low := low;
      columns := map[];
    }
  }

  /** `calculate_indicators(df)`: writes MA20, MA50, RSI, MACD and Signal into the frame,
      replacing columns of those names, leaves every other column and the candles alone,
      and returns the same frame. */
  method CalculateIndicators(df: Frame) returns (r: Frame)
    requires df.Valid()
    modifies df
    ensures r == df && df.Valid()
    ensures df.close == old(df.close) && df.high == old(df.high) && df.low == old(df.low)
    ensures df.columns == old(df.columns) + IndicatorColumns(df.close)
  {
    ghost var before := df.columns;
    df.columns := df.columns[MA20 := RollingMean(df.close, ShortWindow)];
    df.columns := df.columns[MA50 := RollingMean(df.close, LongWindow)];
    df.columns := df.columns[RSI := Oscillators.Rsi(df.close, RsiPeriod)];
    var macd := Oscillators.CalculateMacd(df.close, FastSpan, SlowSpan, SignalSpan);
    df.columns := df.columns[MACD := Defined(macd.0)];
    df.columns := df.columns[Signal := Defined(macd.1)];
    r := df;
    UpdatesAreUnion(before, RollingMean(df.close, ShortWindow), RollingMean(df.close, LongWindow),
                    Oscillators.Rsi(df.close, RsiPeriod), Defined(macd.0), Defined(macd.1));
  }

  /** Writing the five columns one after another is overlaying the map of all five. */
  lemma UpdatesAreUnion(m: map<Column, seq<Option<real>>>, a: seq<Option<real>>, b: seq<Option<real>>,
                        c: seq<Option<real>>, d: seq<Option<real>>, e: seq<Option<real>>)
    ensures m[MA20 := a][MA50 := b][RSI := c][MACD := d][Signal := e]
         == m + map[MA20 := a, MA50 := b, RSI := c, MACD := d, Signal := e]
  {
  }

  /** MA20 and MA50 at bar i in prefix-sum form: NaN while fewer than 20 (50) closes exist,
      then the sum of the closes up to i less the sum of those before the window, over the
      window; so a series shorter than 50 has no MA50 at all. */
  lemma MovingAverages(close: seq<real>, i: nat)
    requires i < |close|
    ensures i + 1 < ShortWindow ==> IndicatorColumns(close)[MA20][i] == None
    ensures i + 1 >= ShortWindow ==>
              IndicatorColumns(close)[MA20][i]
                == Some((Sum(close[..i + 1]) - Sum(close[..i + 1 - ShortWindow])) / ShortWindow as real)
    ensures i + 1 < LongWindow ==> IndicatorColumns(close)[MA50][i] == None
    ensures i + 1 >= LongWindow ==>
              IndicatorColumns(close)[MA50][i]
                == Some((Sum(close[..i + 1]) - Sum(close[..i + 1 - LongWindow])) / LongWindow as real)
  {
    RollingMeanPrefixSums(close, ShortWindow, i);
    RollingMeanPrefixSums(close, LongWindow, i);
  }
}
