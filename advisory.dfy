/** The price band and the signal list of `generate_signal_message`. The message is modelled
    as a sequence of tokens: each line's content as a value and every "\n" as a Newline. */
module Advisory {
  import opened Wrappers
  import opened Indicators
  import opened Signals

  /** Entry, stop-loss and take-profit levels. */
  datatype Band = Band(entry: real, stopLoss: real, takeProfit: real)

  /** The band around the last close for the last bar's high - low range: the stop 1.5 ranges
      below the entry, the target 2 ranges above it, whatever the trend. */
  function PriceBand(lastClose: real, range: real): (b: Band)
    ensures b.entry == lastClose
    ensures b.takeProfit - b.entry == 4.0 / 3.0 * (b.entry - b.stopLoss)
    ensures b.takeProfit - b.stopLoss == 3.5 * range
  {
    Band(lastClose, lastClose - range * 1.5, lastClose + range * 2.0)
  }

  /** When the last high is at least the last low, the stop is at or below the entry and the
      target at or above it; they meet the entry exactly when high equals low. */
  lemma BandOrdered(lastClose: real, high: real, low: real)
    requires high >= low
    ensures PriceBand(lastClose, high - low).stopLoss <= lastClose <= PriceBand(lastClose, high - low).takeProfit
    ensures PriceBand(lastClose, high - low).stopLoss == lastClose <==> high == low
  {
  }

  /** One piece of the message: the content of a line or a line break. */
  datatype Token =
    | Header(symbol: string)
    | TrendLine(trend: Trend)
    | SignalsHeading
    | Bullet(tag: Tag)
    | EntryLine(price: real)
    | StopLossLine(price: real)
    | TakeProfitLine(price: real)
    | Newline

  /** The three price lines. */
  predicate IsLevel(t: Token)
  {
    t.EntryLine? || t.StopLossLine? || t.TakeProfitLine?
  }

  /** `"\n".join(["• " + s for s in signals])`: one bullet per tag, separated by line breaks. */
  function JoinBullets(signals: seq<Tag>): (r: seq<Token>)
    ensures signals == [] ==> r == []
  {
    if signals == [] then []
    else if |signals| == 1 then [Bullet(signals[0])]
    else [Bullet(signals[0]), Newline] + JoinBullets(signals[1..])
  }

  /** The tags of the bullets of a message, in order. */
  function BulletsOf(msg: seq<Token>): seq<Tag>
  {
    if msg == [] then [] else (if msg[0].Bullet? then [msg[0].tag] else []) + BulletsOf(msg[1..])
  }

  /** The three price lines of a message, in order. */
  function LevelsOf(msg: seq<Token>): seq<Token>
  {
    if msg == [] then []
    else (if IsLevel(msg[0]) then [msg[0]] else [])
         + LevelsOf(msg[1..])
  }

  /** The number of line breaks in a message. */
  function Breaks(msg: seq<Token>): nat
  {
    if msg == [] then 0 else (if msg[0] == Newline then 1 else 0) + Breaks(msg[1..])
  }

  lemma {:induction false} BulletsOfConcat(a: seq<Token>, b: seq<Token>)
    ensures BulletsOf(a + b) == BulletsOf(a) + BulletsOf(b)
  {
    if a != [] {
      assert (a + b)[0] == a[0] && (a + b)[1..] == a[1..] + b;
      BulletsOfConcat(a[1..], b);
    } else {
      assert a + b == b;
    }
  }

  lemma {:induction false} LevelsOfConcat(a: seq<Token>, b: seq<Token>)
    ensures LevelsOf(a + b) == LevelsOf(a) + LevelsOf(b)
  {
    if a != [] {
      assert (a + b)[0] == a[0] && (a + b)[1..] == a[1..] + b;
      LevelsOfConcat(a[1..], b);
    } else {
      assert a + b == b;
    }
  }

  lemma {:induction false} BreaksConcat(a: seq<Token>, b: seq<Token>)
    ensures Breaks(a + b) == Breaks(a) + Breaks(b)
  {
    if a != [] {
      assert (a + b)[0] == a[0] && (a + b)[1..] == a[1..] + b;
      BreaksConcat(a[1..], b);
    } else {
      assert a + b == b;
    }
  }

  /** Reading a message built in two parts reads each part in turn. */
  lemma ReadConcat(a: seq<Token>, b: seq<Token>)
    ensures BulletsOf(a + b) == BulletsOf(a) + BulletsOf(b)
    ensures LevelsOf(a + b) == LevelsOf(a) + LevelsOf(b)
    ensures Breaks(a + b) == Breaks(a) + Breaks(b)
  {
    BulletsOfConcat(a, b);
    LevelsOfConcat(a, b);
    BreaksConcat(a, b);
  }

  /** Reading one token. */
  lemma ReadToken(t: Token)
    ensures BulletsOf([t]) == (if t.Bullet? then [t.tag] else [])
    ensures LevelsOf([t]) == (if IsLevel(t) then [t] else [])
    ensures Breaks([t]) == if t == Newline then 1 else 0
  {
    assert [t][1..] == [];
  }

  /** Reading a heading line: one break and nothing else. */
  lemma ReadPlain(t: Token)
    requires !t.Bullet? && t != Newline && !IsLevel(t)
    ensures BulletsOf([t, Newline]) == [] && LevelsOf([t, Newline]) == [] && Breaks([t, Newline]) == 1
  {
    assert [t, Newline] == [t] + [Newline];
    ReadConcat([t], [Newline]);
    ReadToken(t);
    ReadToken(Newline);
  }

  /** Reading a price line: one break and that level. */
  lemma ReadLevel(t: Token)
    requires IsLevel(t)
    ensures BulletsOf([t, Newline]) == [] && LevelsOf([t, Newline]) == [t] && Breaks([t, Newline]) == 1
  {
    assert [t, Newline] == [t] + [Newline];
    ReadConcat([t], [Newline]);
    ReadToken(t);
    ReadToken(Newline);
  }

  /** Reading the entry part: a blank line, then the entry line. */
  lemma ReadEntry(entry: real)
    ensures BulletsOf([Newline, EntryLine(entry), Newline]) == []
    ensures LevelsOf([Newline, EntryLine(entry), Newline]) == [EntryLine(entry)]
    ensures Breaks([Newline, EntryLine(entry), Newline]) == 2
  {
    assert [Newline, EntryLine(entry), Newline] == [Newline] + [EntryLine(entry), Newline];
    ReadConcat([Newline], [EntryLine(entry), Newline]);
    ReadToken(Newline);
    ReadLevel(EntryLine(entry));
  }

  /** Joining the bullets and reading them back gives the signal list, with one break
      between consecutive bullets and none at the ends. */
  lemma {:induction false} JoinBulletsRoundTrip(signals: seq<Tag>)
    ensures BulletsOf(JoinBullets(signals)) == signals
    ensures LevelsOf(JoinBullets(signals)) == []
    ensures Breaks(JoinBullets(signals)) == if signals == [] then 0 else |signals| - 1
  {
    if |signals| == 1 {
      assert BulletsOf([Bullet(signals[0])]) == [signals[0]] + BulletsOf([]);
    } else if |signals| > 1 {
      var rest := JoinBullets(signals[1..]);
      JoinBulletsRoundTrip(signals[1..]);
      BulletsOfConcat([Bullet(signals[0]), Newline], rest);
      LevelsOfConcat([Bullet(signals[0]), Newline], rest);
      BreaksConcat([Bullet(signals[0]), Newline], rest);
      assert BulletsOf([Bullet(signals[0]), Newline]) == [signals[0]] + BulletsOf([Newline]);
      assert signals == [signals[0]] + signals[1..];
    }
  }

  /** `series.iloc[-1]`: IndexError on an empty column. */
  function LastOf(s: seq<real>): (r: Result<real, Error>)
    ensures r.Ok? <==> s != []
    ensures r.Ok? ==> r.value == s[|s| - 1]
    ensures r.Err? ==> r.error == IndexError
  {
    if s == [] then Err(IndexError) else Ok(s[|s| - 1])
  }

  /** The message text for a band: a header line, the trend line, the heading of the signal
      list, one bullet per signal, a blank line, and the three price lines. */
  function Message(symbol: string, signals: seq<Tag>, trend: Trend, b: Band): seq<Token>
  {
    [Header(symbol), Newline] + [TrendLine(trend), Newline]
    + [SignalsHeading, Newline] + JoinBullets(signals) + [Newline]
    + [Newline, EntryLine(b.entry), Newline]
    + [StopLossLine(b.stopLoss), Newline]
    + [TakeProfitLine(b.takeProfit), Newline]
  }

  /** The eight parts the message is appended from. */
  function Parts(symbol: string, signals: seq<Tag>, trend: Trend, b: Band): (p: seq<seq<Token>>)
    ensures |p| == 8
    ensures Message(symbol, signals, trend, b) == p[0] + p[1] + p[2] + p[3] + p[4] + p[5] + p[6] + p[7]
  {
    [[Header(symbol), Newline], [TrendLine(trend), Newline], [SignalsHeading, Newline],
     JoinBullets(signals), [Newline], [Newline, EntryLine(b.entry), Newline],
     [StopLossLine(b.stopLoss), Newline], [TakeProfitLine(b.takeProfit), Newline]]
  }

  /** Reading the message back gives its signal list in order. */
  lemma MessageBullets(symbol: string, signals: seq<Tag>, trend: Trend, b: Band)
    ensures BulletsOf(Message(symbol, signals, trend, b)) == signals
  {
    var p := Parts(symbol, signals, trend, b);
    ReadPieces(p[0], p[1], p[2], p[3], p[4], p[5], p[6], p[7]);
    ReadPlain(Header(symbol));
    ReadPlain(TrendLine(trend));
    ReadPlain(SignalsHeading);
    JoinBulletsRoundTrip(signals);
    ReadToken(Newline);
    ReadEntry(b.entry);
    ReadLevel(StopLossLine(b.stopLoss));
    ReadLevel(TakeProfitLine(b.takeProfit));
  }

  /** Reading the message back gives the three price levels of its band. */
  lemma MessageLevels(symbol: string, signals: seq<Tag>, trend: Trend, b: Band)
    ensures LevelsOf(Message(symbol, signals, trend, b))
         == [EntryLine(b.entry), StopLossLine(b.stopLoss), TakeProfitLine(b.takeProfit)]
  {
    var p := Parts(symbol, signals, trend, b);
    ReadPieces(p[0], p[1], p[2], p[3], p[4], p[5], p[6], p[7]);
    ReadPlain(Header(symbol));
    ReadPlain(TrendLine(trend));
    ReadPlain(SignalsHeading);
    JoinBulletsRoundTrip(signals);
    ReadToken(Newline);
    ReadEntry(b.entry);
    ReadLevel(StopLossLine(b.stopLoss));
    ReadLevel(TakeProfitLine(b.takeProfit));
    assert [EntryLine(b.entry)] + [StopLossLine(b.stopLoss)] + [TakeProfitLine(b.takeProfit)]
        == [EntryLine(b.entry), StopLossLine(b.stopLoss), TakeProfitLine(b.takeProfit)];
  }

  /** The message has 8 line breaks plus one between each two bullets, so an empty signal
      list still leaves a blank line under the heading. */
  lemma MessageBreaks(symbol: string, signals: seq<Tag>, trend: Trend, b: Band)
    ensures Breaks(Message(symbol, signals, trend, b)) == 8 + (if signals == [] then 0 else |signals| - 1)
  {
    var p := Parts(symbol, signals, trend, b);
    ReadPieces(p[0], p[1], p[2], p[3], p[4], p[5], p[6], p[7]);
    ReadPlain(Header(symbol));
    ReadPlain(TrendLine(trend));
    ReadPlain(SignalsHeading);
    JoinBulletsRoundTrip(signals);
    ReadToken(Newline);
    ReadEntry(b.entry);
    ReadLevel(StopLossLine(b.stopLoss));
    ReadLevel(TakeProfitLine(b.takeProfit));
  }

  /** Reading eight consecutive parts. */
  lemma ReadPieces(p1: seq<Token>, p2: seq<Token>, p3: seq<Token>, p4: seq<Token>,
                   p5: seq<Token>, p6: seq<Token>, p7: seq<Token>, p8: seq<Token>)
    ensures BulletsOf(p1 + p2 + p3 + p4 + p5 + p6 + p7 + p8)
         == BulletsOf(p1) + BulletsOf(p2) + BulletsOf(p3) + BulletsOf(p4)
          + BulletsOf(p5) + BulletsOf(p6) + BulletsOf(p7) + BulletsOf(p8)
    ensures LevelsOf(p1 + p2 + p3 + p4 + p5 + p6 + p7 + p8)
         == LevelsOf(p1) + LevelsOf(p2) + LevelsOf(p3) + LevelsOf(p4)
          + LevelsOf(p5) + LevelsOf(p6) + LevelsOf(p7) + LevelsOf(p8)
    ensures Breaks(p1 + p2 + p3 + p4 + p5 + p6 + p7 + p8)
         == Breaks(p1) + Breaks(p2) + Breaks(p3) + Breaks(p4)
          + Breaks(p5) + Breaks(p6) + Breaks(p7) + Breaks(p8)
  {
    ReadConcat(p1, p2);
    ReadConcat(p1 + p2, p3);
    ReadConcat(p1 + p2 + p3, p4);
    ReadConcat(p1 + p2 + p3 + p4, p5);
    ReadConcat(p1 + p2 + p3 + p4 + p5, p6);
    ReadConcat(p1 + p2 + p3 + p4 + p5 + p6, p7);
    ReadConcat(p1 + p2 + p3 + p4 + p5 + p6 + p7, p8);
  }

  /** `generate_signal_message(symbol, signals, trend, df)`: reads the last close, high and
      low, and builds the message by appending line after line. It fails only when a price
      column is empty; otherwise the message is the one of the price band of the last close
      for the last high - low range. */
  method GenerateSignalMessage(symbol: string, signals: seq<Tag>, trend: Trend, df: Frame)
    returns (r: Result<seq<Token>, Error>)
    ensures r.Err? <==> df.close == [] || df.high == [] || df.low == []
    ensures r.Err? ==> r.error == IndexError
    ensures r.Ok? ==>
              r.value == Message(symbol, signals, trend,
                                 PriceBand(df.close[|df.close| - 1], df.high[|df.high| - 1] - df.low[|df.low| - 1]))
    ensures r.Ok? ==> BulletsOf(r.value) == signals
    ensures r.Ok? ==>
              var b := PriceBand(df.close[|df.close| - 1], df.high[|df.high| - 1] - df.low[|df.low| - 1]);
              LevelsOf(r.value) == [EntryLine(b.entry), StopLossLine(b.stopLoss), TakeProfitLine(b.takeProfit)]
  {
    var lastClose :- LastOf(df.close);
    var lastHigh :- LastOf(df.high);
    var lastLow :- LastOf(df.low);
    var atr := lastHigh - lastLow;

    var message := [Header(symbol), Newline];
    message := message + [TrendLine(trend), Newline];
    message := message + [SignalsHeading, Newline] + JoinBullets(signals) + [Newline];

    var entry := lastClose;
    var stopLoss := entry - atr * 1.5;
    var takeProfit := entry + atr * 2.0;

    message := message + [Newline, EntryLine(entry), Newline];
    message := message + [StopLossLine(stopLoss), Newline];
    message := message + [TakeProfitLine(takeProfit), Newline];
    ghost var band := PriceBand(lastClose, atr);
    assert message == Message(symbol, signals, trend, band);
    MessageBullets(symbol, signals, trend, band);
    MessageLevels(symbol, signals, trend, band);
    return Ok(message);
  }
}
