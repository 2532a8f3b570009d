/** `generate_signals`: a trend label from the moving averages and at most one MACD-cross tag
    and one RSI tag, all read from the last two rows of the frame. */
module Signals {
  import opened Wrappers
  import opened Rolling
  import opened Indicators
  import Oscillators

  datatype Trend = Bullish | Bearish

  /** The signal tags, in the order `generate_signals` can append them. */
  datatype Tag = MacdBullishCross | MacdBearishCross | RsiOversold | RsiOverbought

  const AllTags: seq<Tag> := [MacdBullishCross, MacdBearishCross, RsiOversold, RsiOverbought]

  /** The text of each tag as it appears in the signal list. */
  function Label(t: Tag): string
  {
    match t
    case MacdBullishCross => "MACD Bullish Cross"
    case MacdBearishCross => "MACD Bearish Cross"
    case RsiOversold => "RSI Oversold"
    case RsiOverbought => "RSI Overbought"
  }

  /** Distinct tags have distinct texts, so testing a tag's text for membership in the list
      is testing the tag. */
  lemma LabelInjective(a: Tag, b: Tag)
    ensures Label(a) == Label(b) <==> a == b
  {
    if a != b {
      assert Label(a)[0] != Label(b)[0] || Label(a)[6] != Label(b)[6] || Label(a)[8] != Label(b)[8];
    }
  }

  predicate IsMacdTag(t: Tag)
  {
    t == MacdBullishCross || t == MacdBearishCross
  }

  /** `a < b` on floats: false when either side is NaN. */
  predicate Below(a: Option<real>, b: Option<real>)
  {
    a.Some? && b.Some? && a.value < b.value
  }

  /** `a > b` on floats: false when either side is NaN. */
  predicate Above(a: Option<real>, b: Option<real>)
  {
    a.Some? && b.Some? && a.value > b.value
  }

  /** `df[c].iloc[-k]`: KeyError for a missing column, IndexError for fewer than k rows. */
  function Cell(columns: map<Column, seq<Option<real>>>, c: Column, k: nat): (r: Result<Option<real>, Error>)
    requires k >= 1
    ensures r.Ok? <==> c in columns && |columns[c]| >= k
    ensures r.Ok? ==> r.value == columns[c][|columns[c]| - k]
    ensures r.Err? ==> r.error == if c in columns then IndexError else KeyError(c)
  {
    if c !in columns then Err(KeyError(c))
    else if |columns[c]| < k then Err(IndexError)
    else Ok(columns[c][|columns[c]| - k])
  }

  /** `df[c].iloc[-2]` and then `df[c].iloc[-1]`: once the first read succeeds the second
      cannot fail, so both come from one lookup. */
  function LastTwo(columns: map<Column, seq<Option<real>>>, c: Column): (r: Result<(Option<real>, Option<real>), Error>)
    ensures r.Ok? <==> Cell(columns, c, 2).Ok?
    ensures r.Ok? ==> r.value == (Cell(columns, c, 2).value, Cell(columns, c, 1).value)
    ensures r.Err? ==> r.error == Cell(columns, c, 2).error
  {
    var prev :- Cell(columns, c, 2);
    Ok((prev, columns[c][|columns[c]| - 1]))
  }

  /** The seven cells `generate_signals` reads. */
  datatype Snapshot = Snapshot(ma20: Option<real>, ma50: Option<real>,
                               macdPrev: Option<real>, signalPrev: Option<real>,
                               macdLast: Option<real>, signalLast: Option<real>,
                               rsi: Option<real>)

  /** The cells in the order the source first reads them; the first failing read is the
      exception raised. */
  function ReadSnapshot(columns: map<Column, seq<Option<real>>>): (r: Result<Snapshot, Error>)
    ensures r.Ok? <==> (MA20 in columns && MA50 in columns && MACD in columns && Signal in columns
                        && RSI in columns && |columns[MA20]| >= 1 && |columns[MA50]| >= 1
                        && |columns[MACD]| >= 2 && |columns[Signal]| >= 2 && |columns[RSI]| >= 1)
    ensures r.Ok? ==> (r.value.ma20 == columns[MA20][|columns[MA20]| - 1]
                       && r.value.ma50 == columns[MA50][|columns[MA50]| - 1]
                       && r.value.macdPrev == columns[MACD][|columns[MACD]| - 2]
                       && r.value.signalPrev == columns[Signal][|columns[Signal]| - 2]
                       && r.value.macdLast == columns[MACD][|columns[MACD]| - 1]
                       && r.value.signalLast == columns[Signal][|columns[Signal]| - 1]
                       && r.value.rsi == columns[RSI][|columns[RSI]| - 1])
    ensures r.Err? ==> r.error == (if Cell(columns, MA20, 1).Err? then Cell(columns, MA20, 1).error
                                   else if Cell(columns, MA50, 1).Err? then Cell(columns, MA50, 1).error
                                   else if Cell(columns, MACD, 2).Err? then Cell(columns, MACD, 2).error
                                   else if Cell(columns, Signal, 2).Err? then Cell(columns, Signal, 2).error
                                   else Cell(columns, RSI, 1).error)
  {
    var ma20 :- Cell(columns, MA20, 1);
    var ma50 :- Cell(columns, MA50, 1);
    var macd :- LastTwo(columns, MACD);
    var signal :- LastTwo(columns, Signal);
    var rsi :- Cell(columns, RSI, 1);
    Ok(Snapshot(ma20, ma50, macd.0, signal.0, macd.1, signal.1, rsi))
  }

  /** The rule each tag fires on, stated for each tag on its own. */
  predicate Fires(t: Tag, s: Snapshot)
  {
    match t
    case MacdBullishCross => Below(s.macdPrev, s.signalPrev) && Above(s.macdLast, s.signalLast)
    case MacdBearishCross => Above(s.macdPrev, s.signalPrev) && Below(s.macdLast, s.signalLast)
    case RsiOversold => Below(s.rsi, Some(30.0))
    case RsiOverbought => Above(s.rsi, Some(70.0))
  }

  /** The tags of `ts` that fire, in the order of `ts`. */
  function Firing(ts: seq<Tag>, s: Snapshot): (r: seq<Tag>)
    ensures |r| <= |ts|
  {
    if ts == [] then [] else (if Fires(ts[0], s) then [ts[0]] else []) + Firing(ts[1..], s)
  }

  /** The signal list expected of a snapshot: every firing tag, in the order of AllTags. */
  function Expected(s: Snapshot): seq<Tag>
  {
    Firing(AllTags, s)
  }

  /** The trend label: Bullish exactly when MA20 is strictly above MA50 at the last bar. */
  function TrendOf(s: Snapshot): (t: Trend)
    ensures t == Bullish <==> s.ma20.Some? && s.ma50.Some? && s.ma20.value > s.ma50.value
  {
    if Above(s.ma20, s.ma50) then Bullish else Bearish
  }

  /** `generate_signals(df)`: reads the last cells, builds the list by appending a MACD tag
      (if / elif) and then an RSI tag (if / elif), and returns it with the trend label. Its
      result is the firing-tag list of the snapshot, or the exception of the first failing
      read. */
  method GenerateSignals(df: Frame) returns (r: Result<(seq<Tag>, Trend), Error>)
    ensures ReadSnapshot(df.columns).Err? ==> r == Err(ReadSnapshot(df.columns).error)
    ensures ReadSnapshot(df.columns).Ok? ==>
              r == Ok((Expected(ReadSnapshot(df.columns).value), TrendOf(ReadSnapshot(df.columns).value)))
  {
    var signals: seq<Tag> := [];
    var ma20 :- Cell(df.columns, MA20, 1);
    var ma50 :- Cell(df.columns, MA50, 1);
    var trend := if Above(ma20, ma50) then Bullish else Bearish;
    var macd :- LastTwo(df.columns, MACD);
    var signal :- LastTwo(df.columns, Signal);
    var (macdPrev, macdLast) := macd;
    var (signalPrev, signalLast) := signal;
    if Below(macdPrev, signalPrev) && Above(macdLast, signalLast) {
      signals := signals + [MacdBullishCross];
    } else if Above(macdPrev, signalPrev) && Below(macdLast, signalLast) {
      signals := signals + [MacdBearishCross];
    }
    var rsi :- Cell(df.columns, RSI, 1);
    if Below(rsi, Some(30.0)) {
      signals := signals + [RsiOversold];
    } else if Above(rsi, Some(70.0)) {
      signals := signals + [RsiOverbought];
    }
    ghost var s := Snapshot(ma20, ma50, macdPrev, signalPrev, macdLast, signalLast, rsi);
    assert ReadSnapshot(df.columns) == Ok(s);
    ExpectedUnfold(s);
    TagsExclusive(s);
    assert trend == TrendOf(s);
    assert signals == Expected(s);
    return Ok((signals, trend));
  }

  /** Expected written out tag by tag. */
  lemma ExpectedUnfold(s: Snapshot)
    ensures Expected(s)
         == (if Fires(MacdBullishCross, s) then [MacdBullishCross] else [])
          + (if Fires(MacdBearishCross, s) then [MacdBearishCross] else [])
          + (if Fires(RsiOversold, s) then [RsiOversold] else [])
          + (if Fires(RsiOverbought, s) then [RsiOverbought] else [])
  {
    var t1, t2, t3 := AllTags[1..], AllTags[2..], AllTags[3..];
    assert t1[1..] == t2 && t2[1..] == t3 && t3[1..] == [];
    var h0 := if Fires(MacdBullishCross, s) then [MacdBullishCross] else [];
    var h1 := if Fires(MacdBearishCross, s) then [MacdBearishCross] else [];
    var h2 := if Fires(RsiOversold, s) then [RsiOversold] else [];
    var h3 := if Fires(RsiOverbought, s) then [RsiOverbought] else [];
    assert Firing(t3, s) == h3 + Firing([], s);
    assert Firing(t2, s) == h2 + Firing(t3, s);
    assert Firing(t1, s) == h1 + Firing(t2, s);
    assert Firing(AllTags, s) == h0 + Firing(t1, s);
  }

  /** A tag is in the firing list exactly when it is one of `ts` and fires. */
  lemma {:induction false} FiringMember(ts: seq<Tag>, s: Snapshot, t: Tag)
    ensures t in Firing(ts, s) <==> t in ts && Fires(t, s)
  {
    if ts != [] {
      FiringMember(ts[1..], s, t);
      assert ts == [ts[0]] + ts[1..];
    }
  }

  /** A tag is in the expected signal list exactly when its rule fires. */
  lemma ExpectedMember(s: Snapshot, t: Tag)
    ensures t in Expected(s) <==> Fires(t, s)
  {
    FiringMember(AllTags, s, t);
  }

  /** The two MACD tags never fire together, nor do the two RSI tags. */
  lemma TagsExclusive(s: Snapshot)
    ensures !(Fires(MacdBullishCross, s) && Fires(MacdBearishCross, s))
    ensures !(Fires(RsiOversold, s) && Fires(RsiOverbought, s))
  {
  }

  /** No RSI tag fires while the RSI is NaN or within [30, 70]. */
  lemma RsiNeutral(s: Snapshot)
    requires s.rsi.None? || 30.0 <= s.rsi.value <= 70.0
    ensures RsiOversold !in Expected(s) && RsiOverbought !in Expected(s)
  {
    ExpectedMember(s, RsiOversold);
    ExpectedMember(s, RsiOverbought);
  }

  /** No MACD tag fires unless MACD and its signal line are strictly ordered one way on the
      previous bar and strictly the other way on the last bar; a tie fires nothing. */
  lemma MacdNoCross(s: Snapshot)
    requires !(Below(s.macdPrev, s.signalPrev) && Above(s.macdLast, s.signalLast))
    requires !(Above(s.macdPrev, s.signalPrev) && Below(s.macdLast, s.signalLast))
    ensures MacdBullishCross !in Expected(s) && MacdBearishCross !in Expected(s)
  {
    ExpectedMember(s, MacdBullishCross);
    ExpectedMember(s, MacdBearishCross);
  }

  /** The signal list has at most two tags, no tag twice, and a MACD tag before any RSI tag. */
  lemma ExpectedShape(s: Snapshot)
    ensures |Expected(s)| <= 2
    ensures forall i, j :: 0 <= i < j < |Expected(s)| ==> Expected(s)[i] != Expected(s)[j]
    ensures forall i, j :: 0 <= i < j < |Expected(s)| && IsMacdTag(Expected(s)[j]) ==> IsMacdTag(Expected(s)[i])
  {
    ExpectedUnfold(s);
  }

  /** On a frame fresh from `calculate_indicators`, the reads succeed exactly when there are
      at least two rows; otherwise `iloc` raises IndexError. */
  lemma ReadIndicators(close: seq<real>)
    ensures ReadSnapshot(IndicatorColumns(close)).Ok? <==> |close| >= 2
    ensures ReadSnapshot(IndicatorColumns(close)).Err? ==> ReadSnapshot(IndicatorColumns(close)).error == IndexError
  {
  }

  /** On a frame fresh from `calculate_indicators` with at least two rows, the snapshot holds
      the last MA20, MA50 and RSI values and the last two MACD and signal values. */
  lemma IndicatorSnapshot(close: seq<real>)
    requires |close| >= 2
    ensures var n := |close|;
            var macd := Oscillators.CalculateMacd(close, FastSpan, SlowSpan, SignalSpan);
            ReadSnapshot(IndicatorColumns(close))
              == Ok(Snapshot(RollingMean(close, ShortWindow)[n - 1], RollingMean(close, LongWindow)[n - 1],
                             Some(macd.0[n - 2]), Some(macd.1[n - 2]), Some(macd.0[n - 1]), Some(macd.1[n - 1]),
                             Oscillators.Rsi(close, RsiPeriod)[n - 1]))
  {
    var n := |close|;
    var macd := Oscillators.CalculateMacd(close, FastSpan, SlowSpan, SignalSpan);
    var m := IndicatorColumns(close);
    ReadFull(m, n);
    assert m[MACD] == Defined(macd.0) && m[Signal] == Defined(macd.1);
  }

  /** The snapshot of a map holding the five columns with n >= 2 rows each. */
  lemma ReadFull(m: map<Column, seq<Option<real>>>, n: nat)
    requires n >= 2 && m.Keys == {MA20, MA50, RSI, MACD, Signal}
    requires forall c :: c in m ==> |m[c]| == n
    ensures ReadSnapshot(m)
         == Ok(Snapshot(m[MA20][n - 1], m[MA50][n - 1], m[MACD][n - 2], m[Signal][n - 2],
                        m[MACD][n - 1], m[Signal][n - 1], m[RSI][n - 1]))
  {
  }

  /** `calculate_indicators` followed by `generate_signals`: whatever columns the frame held
      before, the frame it returns reads exactly like the freshly computed indicator columns. */
  lemma FrameSnapshot(before: map<Column, seq<Option<real>>>, close: seq<real>)
    ensures ReadSnapshot(before + IndicatorColumns(close)) == ReadSnapshot(IndicatorColumns(close))
  {
    OverlayAll(before, IndicatorColumns(close));
  }

  /** `generate_signals` on the frame `calculate_indicators` returns fails exactly on fewer
      than two rows, and then with IndexError. */
  lemma PipelineReads(before: map<Column, seq<Option<real>>>, close: seq<real>)
    ensures ReadSnapshot(before + IndicatorColumns(close)).Ok? <==> |close| >= 2
    ensures ReadSnapshot(before + IndicatorColumns(close)).Err? ==>
              ReadSnapshot(before + IndicatorColumns(close)).error == IndexError
  {
    FrameSnapshot(before, close);
    ReadIndicators(close);
  }

  /** Overlaying a map that holds every column leaves nothing of the map below it. */
  lemma OverlayAll(before: map<Column, seq<Option<real>>>, m: map<Column, seq<Option<real>>>)
    requires m.Keys == {MA20, MA50, RSI, MACD, Signal}
    ensures before + m == m
  {
    forall c | c in before ensures c in m {
      match c
      case MA20 =>
      case MA50 =>
      case RSI =>
      case MACD =>
      case Signal =>
    }
  }

  /** With fewer than 50 rows MA50 is NaN, the comparison is false and the trend is
      Bearish whatever the prices do. */
  lemma ShortSeriesBearish(close: seq<real>)
    requires 2 <= |close| < LongWindow
    ensures ReadSnapshot(IndicatorColumns(close)).Ok?
    ensures TrendOf(ReadSnapshot(IndicatorColumns(close)).value) == Bearish
  {
    RollingMeanShortSeries(close, LongWindow);
  }

  /** A flat market raises no signal: MACD and its signal line are both 0, so nothing
      crosses, and the RSI is NaN. */
  lemma FlatSeriesSilent(close: seq<real>, c: real)
    requires |close| >= 2 && Within(close, c, c)
    ensures ReadSnapshot(IndicatorColumns(close)).Ok?
    ensures Expected(ReadSnapshot(IndicatorColumns(close)).value) == []
  {
    var n := |close|;
    Oscillators.MacdConstant(close, FastSpan, SlowSpan, SignalSpan, c);
    Oscillators.RsiFlat(close, RsiPeriod, c);
    var s := ReadSnapshot(IndicatorColumns(close)).value;
    assert s.macdPrev == Some(0.0) && s.signalPrev == Some(0.0);
    assert s.macdLast == Some(0.0) && s.signalLast == Some(0.0);
    assert s.rsi == None;
    MacdNoCross(s);
    RsiNeutral(s);
    ExpectedUnfold(s);
  }

  /** A strictly rising market of at least 50 bars is Bullish (the 20-bar mean is above the
      50-bar mean) and RSI Overbought (the RSI is 100). */
  lemma RisingSeries(close: seq<real>)
    requires Rising(close) && |close| >= LongWindow
    ensures ReadSnapshot(IndicatorColumns(close)).Ok?
    ensures TrendOf(ReadSnapshot(IndicatorColumns(close)).value) == Bullish
    ensures RsiOverbought in Expected(ReadSnapshot(IndicatorColumns(close)).value)
  {
    IndicatorSnapshot(close);
    RisingAverages(close);
    Oscillators.RsiRising(close, RsiPeriod, |close| - 1);
    ExpectedMember(ReadSnapshot(IndicatorColumns(close)).value, RsiOverbought);
  }

  /** On a strictly rising market of at least 50 bars the last MA20 is above the last MA50. */
  lemma RisingAverages(close: seq<real>)
    requires Rising(close) && |close| >= LongWindow
    ensures Above(RollingMean(close, ShortWindow)[|close| - 1], RollingMean(close, LongWindow)[|close| - 1])
  {
    var n := |close|;
    RollingMeanAt(close, ShortWindow, n - 1);
    RollingMeanAt(close, LongWindow, n - 1);
    assert close[n - ShortWindow..n] == close[n - ShortWindow..];
    assert close[n - LongWindow..n] == close[n - LongWindow..];
    TrailingMeanOrder(close, ShortWindow, LongWindow);
  }

  /** A strictly falling market of at least 14 bars is RSI Oversold (the RSI is 0). */
  lemma FallingSeries(close: seq<real>)
    requires Falling(close) && |close| >= RsiPeriod
    ensures ReadSnapshot(IndicatorColumns(close)).Ok?
    ensures RsiOversold in Expected(ReadSnapshot(IndicatorColumns(close)).value)
  {
    var s := ReadSnapshot(IndicatorColumns(close)).value;
    Oscillators.RsiFalling(close, RsiPeriod, |close| - 1);
    ExpectedMember(s, RsiOversold);
  }
}
