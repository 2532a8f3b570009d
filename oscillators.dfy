/** The two oscillators of `calculate_indicators`: the RSI built from trailing means of gains
    and losses (`calculate_rsi`) and MACD with its signal line (`calculate_macd`). */
module Oscillators {
  import opened Wrappers
  import opened Rolling
  import opened Ewm

  /** `prices.diff()`: NaN at the first bar, then each close minus the one before it. */
  function Diff(xs: seq<real>): (d: seq<Option<real>>)
    ensures |d| == |xs|
  {
    seq(|xs|, i requires 0 <= i < |xs| => if i == 0 then None else Some(xs[i] - xs[i - 1]))
  }

  /** `delta.where(delta > 0, 0)`: a rise is kept; a fall, no change or NaN becomes 0. */
  function Gain(d: Option<real>): real
  {
    if d.Some? && d.value > 0.0 then d.value else 0.0
  }

  /** `-delta.where(delta < 0, 0)`: the size of a fall; anything else becomes 0. */
  function Loss(d: Option<real>): real
  {
    if d.Some? && d.value < 0.0 then -d.value else 0.0
  }

  /** The gain column: never negative. */
  function Gains(xs: seq<real>): (g: seq<real>)
    ensures |g| == |xs| && NonNegative(g)
  {
    var d := Diff(xs);
    seq(|xs|, i requires 0 <= i < |xs| => Gain(d[i]))
  }

  /** The loss column: never negative. */
  function Losses(xs: seq<real>): (l: seq<real>)
    ensures |l| == |xs| && NonNegative(l)
  {
    var d := Diff(xs);
    seq(|xs|, i requires 0 <= i < |xs| => Loss(d[i]))
  }

  /** Gain and loss split each move: from the second bar on, gain minus loss is the change of
      close and at most one of them is non-zero; at the first bar both are 0. */
  lemma GainLossSplit(xs: seq<real>, i: nat)
    requires i < |xs|
    ensures i == 0 ==> Gains(xs)[i] == 0.0 && Losses(xs)[i] == 0.0
    ensures i > 0 ==> Gains(xs)[i] - Losses(xs)[i] == xs[i] - xs[i - 1]
    ensures Gains(xs)[i] == 0.0 || Losses(xs)[i] == 0.0
  {
  }

  /** `100 - 100 / (1 + avg_gain / avg_loss)` as IEEE arithmetic evaluates it on non-negative
      averages: a zero average loss with a positive average gain gives an infinite ratio and
      so 100; both zero give 0/0, i.e. NaN; a NaN average gives NaN. */
  function RsiValue(avgGain: Option<real>, avgLoss: Option<real>): (r: Option<real>)
    requires avgGain.Some? ==> avgGain.value >= 0.0
    requires avgLoss.Some? ==> avgLoss.value >= 0.0
    ensures r.Some? ==> 0.0 <= r.value <= 100.0
    ensures r.Some? <==> avgGain.Some? && avgLoss.Some? && (avgLoss.value > 0.0 || avgGain.value > 0.0)
  {
    if avgGain.None? || avgLoss.None? then None
    else if avgLoss.value > 0.0 then
      RatioBounds(avgGain.value, avgLoss.value);
      Some(100.0 - 100.0 / (1.0 + avgGain.value / avgLoss.value))
    else if avgGain.value > 0.0 then Some(100.0)
    else None
  }

  lemma RatioBounds(g: real, l: real)
    requires g >= 0.0 && l > 0.0
    ensures 0.0 <= 100.0 - 100.0 / (1.0 + g / l) < 100.0
  {
    var q := 1.0 + g / l;
    assert q >= 1.0;
    assert 100.0 / q <= 100.0;
  }

  /** With a positive average loss the RSI is 100·g / (g + l), strictly below 100. */
  lemma RsiClosedForm(g: real, l: real)
    requires g >= 0.0 && l > 0.0
    ensures RsiValue(Some(g), Some(l)) == Some(100.0 * g / (g + l))
    ensures 100.0 * g / (g + l) < 100.0
  {
    var q := 1.0 + g / l;
    assert q == (l + g) / l;
    assert 100.0 / q == 100.0 * l / (g + l);
    assert 100.0 == 100.0 * (g + l) / (g + l);
    SubFractions(100.0 * (g + l), 100.0 * l, g + l);
  }

  lemma SubFractions(a: real, b: real, d: real)
    requires d > 0.0
    ensures a / d - b / d == (a - b) / d
  {
  }

  /** The RSI column of `calculate_rsi(prices, period)`. */
  function Rsi(xs: seq<real>, period: nat): (r: seq<Option<real>>)
    requires period >= 1
    ensures |r| == |xs|
    ensures forall i :: 0 <= i < |r| && r[i].Some? ==> 0.0 <= r[i].value <= 100.0
  {
    var g, l := RollingMean(Gains(xs), period), RollingMean(Losses(xs), period);
    seq(|xs|, i requires 0 <= i < |xs| => RsiValue(g[i], l[i]))
  }

  /** RSI at bar i in terms of the trailing means of gains and losses. */
  lemma RsiAt(xs: seq<real>, period: nat, i: nat)
    requires period >= 1 && i < |xs|
    ensures Rsi(xs, period)[i]
         == RsiValue(RollingMean(Gains(xs), period)[i], RollingMean(Losses(xs), period)[i])
  {
  }

  /** Once the window is full, the RSI is the share of upward movement in it: with G the sum
      of the gains and L the sum of the losses over the last `period` bars, it is 100·G/(G+L),
      and NaN when the window holds no movement at all. */
  lemma RsiWindow(xs: seq<real>, period: nat, i: nat)
    requires period >= 1 && period <= i + 1 <= |xs|
    ensures var up := Sum(Gains(xs)[i + 1 - period..i + 1]);
            var down := Sum(Losses(xs)[i + 1 - period..i + 1]);
            Rsi(xs, period)[i] == if up + down == 0.0 then None else Some(100.0 * up / (up + down))
  {
    var gw, lw := Gains(xs)[i + 1 - period..i + 1], Losses(xs)[i + 1 - period..i + 1];
    var up, down, n := Sum(gw), Sum(lw), period as real;
    assert NonNegative(gw) && NonNegative(lw);
    SumNonNegative(gw);
    SumNonNegative(lw);
    RollingMeanAt(Gains(xs), period, i);
    RollingMeanAt(Losses(xs), period, i);
    assert |gw| == period && |lw| == period;
    assert Rsi(xs, period)[i] == RsiValue(Some(up / n), Some(down / n));
    RsiOfSums(up, down, n);
  }

  /** The ratio step on the window means up/n and down/n, in terms of the window sums. */
  lemma RsiOfSums(up: real, down: real, n: real)
    requires up >= 0.0 && down >= 0.0 && n > 0.0
    ensures RsiValue(Some(up / n), Some(down / n))
         == if up + down == 0.0 then None else Some(100.0 * up / (up + down))
  {
    var g, l := up / n, down / n;
    if down > 0.0 {
      DivPositive(down, n);
      RsiClosedForm(g, l);
      ScaleRatio(up, down, n);
    } else if up > 0.0 {
      DivPositive(up, n);
      assert l == 0.0 && up + down == up;
      assert 100.0 * up / up == 100.0;
    } else {
      assert g == 0.0 && l == 0.0;
    }
  }

  lemma DivPositive(a: real, n: real)
    requires a > 0.0 && n > 0.0
    ensures a / n > 0.0
  {
  }

  /** Scaling both sums by 1/n leaves the share unchanged. */
  lemma ScaleRatio(up: real, down: real, n: real)
    requires up >= 0.0 && down > 0.0 && n > 0.0
    ensures 100.0 * (up / n) / (up / n + down / n) == 100.0 * up / (up + down)
  {
    assert up / n + down / n == (up + down) / n;
  }

  /** The RSI is undefined until `period` bars have been seen; because the first gain and
      loss are the 0 that replaced the NaN of `diff`, bar period - 1 may already be defined. */
  lemma RsiWarmUp(xs: seq<real>, period: nat, i: nat)
    requires period >= 1 && i < |xs|
    ensures Rsi(xs, period)[i].Some? ==> i + 1 >= period
  {
    RollingMeanAt(Gains(xs), period, i);
  }

  /** A flat series has no gains and no losses, so 0/0 leaves every RSI undefined. */
  lemma RsiFlat(xs: seq<real>, period: nat, c: real)
    requires period >= 1 && Within(xs, c, c)
    ensures forall i :: 0 <= i < |xs| ==> Rsi(xs, period)[i] == None
  {
    var g, l := Gains(xs), Losses(xs);
    forall i | 0 <= i < |xs| ensures Rsi(xs, period)[i] == None {
      if i + 1 >= period {
        ZeroWindow(g, i + 1 - period, i + 1);
        ZeroWindow(l, i + 1 - period, i + 1);
        RollingMeanWithin(g, period, i, 0.0, 0.0);
        RollingMeanWithin(l, period, i, 0.0, 0.0);
      }
    }
  }

  /** A slice of a non-negative sequence whose elements are all 0 lies in [0, 0]. */
  lemma ZeroWindow(s: seq<real>, lo: nat, hi: nat)
    requires lo <= hi <= |s| && forall k :: lo <= k < hi ==> s[k] == 0.0
    ensures Within(s[lo..hi], 0.0, 0.0)
  {
    assert forall k :: 0 <= k < hi - lo ==> s[lo..hi][k] == s[lo + k];
  }

  /** On a strictly rising series every full window after the first bar has gains and no
      losses, so the RSI saturates at 100. */
  lemma RsiRising(xs: seq<real>, period: nat, i: nat)
    requires Rising(xs) && period >= 1 && 1 <= i < |xs| && i + 1 >= period
    ensures Rsi(xs, period)[i] == Some(100.0)
  {
    var g, l := Gains(xs), Losses(xs);
    assert g[i] == xs[i] - xs[i - 1];
    RollingMeanPositive(g, period, i, i);
    ZeroWindow(l, i + 1 - period, i + 1);
    RollingMeanWithin(l, period, i, 0.0, 0.0);
  }

  /** On a strictly falling series every full window after the first bar has losses and no
      gains, so the RSI is 0. */
  lemma RsiFalling(xs: seq<real>, period: nat, i: nat)
    requires Falling(xs) && period >= 1 && 1 <= i < |xs| && i + 1 >= period
    ensures Rsi(xs, period)[i] == Some(0.0)
  {
    var g, l := Gains(xs), Losses(xs);
    assert l[i] == xs[i - 1] - xs[i];
    RollingMeanPositive(l, period, i, i);
    ZeroWindow(g, i + 1 - period, i + 1);
    RollingMeanWithin(g, period, i, 0.0, 0.0);
    RsiClosedForm(0.0, RollingMean(l, period)[i].value);
  }

  /** The MACD line: the fast adjusted EMA of close minus the slow one. */
  function MacdLine(prices: seq<real>, fast: nat, slow: nat): (m: seq<real>)
    requires fast >= 1 && slow >= 1
    ensures |m| == |prices|
  {
    var f, s := AdjustedEma(prices, fast), AdjustedEma(prices, slow);
    seq(|prices|, i requires 0 <= i < |prices| => f[i] - s[i])
  }

  /** `calculate_macd(prices, fast, slow, signal)`: the MACD line and its signal line, the
      adjusted EMA of MACD with span `signal`. */
  function CalculateMacd(prices: seq<real>, fast: nat, slow: nat, signal: nat): (r: (seq<real>, seq<real>))
    requires fast >= 1 && slow >= 1 && signal >= 1
    ensures |r.0| == |prices| && |r.1| == |prices|
  {
    var macd := MacdLine(prices, fast, slow);
    (macd, AdjustedEma(macd, signal))
  }

  /** Both EMAs start at the first close, so MACD and its signal line start at 0. */
  lemma MacdFirst(prices: seq<real>, fast: nat, slow: nat, signal: nat)
    requires fast >= 1 && slow >= 1 && signal >= 1 && prices != []
    ensures CalculateMacd(prices, fast, slow, signal).0[0] == 0.0
    ensures CalculateMacd(prices, fast, slow, signal).1[0] == 0.0
  {
    EmaFirst(prices, fast);
    EmaFirst(prices, slow);
    EmaFirst(MacdLine(prices, fast, slow), signal);
  }

  /** A constant close series gives MACD 0 and signal 0 at every bar. */
  lemma MacdConstant(prices: seq<real>, fast: nat, slow: nat, signal: nat, c: real)
    requires fast >= 1 && slow >= 1 && signal >= 1 && Within(prices, c, c)
    ensures forall i :: 0 <= i < |prices| ==> CalculateMacd(prices, fast, slow, signal).0[i] == 0.0
    ensures forall i :: 0 <= i < |prices| ==> CalculateMacd(prices, fast, slow, signal).1[i] == 0.0
  {
    var macd := MacdLine(prices, fast, slow);
    EmaConstant(prices, fast, c);
    EmaConstant(prices, slow, c);
    assert Within(macd, 0.0, 0.0);
    EmaConstant(macd, signal, 0.0);
  }

  /** While the closes up to bar i stay within a range of width hi - lo, MACD and its signal
      line at bar i stay within that width of 0. */
  lemma MacdBounded(prices: seq<real>, fast: nat, slow: nat, signal: nat, i: nat, lo: real, hi: real)
    requires fast >= 1 && slow >= 1 && signal >= 1 && i < |prices| && Within(prices[..i + 1], lo, hi)
    ensures lo - hi <= CalculateMacd(prices, fast, slow, signal).0[i] <= hi - lo
    ensures lo - hi <= CalculateMacd(prices, fast, slow, signal).1[i] <= hi - lo
  {
    var macd := MacdLine(prices, fast, slow);
    forall k | 0 <= k < i + 1 ensures lo - hi <= macd[k] <= hi - lo {
      assert Within(prices[..k + 1], lo, hi) by {
        assert prices[..k + 1] == prices[..i + 1][..k + 1];
      }
      EmaWithin(prices, fast, k, lo, hi);
      EmaWithin(prices, slow, k, lo, hi);
    }
    assert Within(macd[..i + 1], lo - hi, hi - lo);
    EmaWithin(macd, signal, i, lo - hi, hi - lo);
  }

  /** MACD and its signal line are causal: their values up to bar k depend only on the closes
      up to bar k. */
  lemma MacdCausal(prices: seq<real>, fast: nat, slow: nat, signal: nat, k: nat)
    requires fast >= 1 && slow >= 1 && signal >= 1 && k <= |prices|
    ensures CalculateMacd(prices[..k], fast, slow, signal).0 == CalculateMacd(prices, fast, slow, signal).0[..k]
    ensures CalculateMacd(prices[..k], fast, slow, signal).1 == CalculateMacd(prices, fast, slow, signal).1[..k]
  {
    EmaCausal(prices, fast, k);
    EmaCausal(prices, slow, k);
    var macd := MacdLine(prices, fast, slow);
    assert MacdLine(prices[..k], fast, slow) == macd[..k];
    EmaCausal(macd, signal, k);
  }

  /** The RSI is causal: its values up to bar k depend only on the closes up to bar k. */
  lemma RsiCausal(xs: seq<real>, period: nat, k: nat)
    requires period >= 1 && k <= |xs|
    ensures Rsi(xs[..k], period) == Rsi(xs, period)[..k]
  {
    assert Gains(xs[..k]) == Gains(xs)[..k];
    assert Losses(xs[..k]) == Losses(xs)[..k];
    RollingMeanCausal(Gains(xs), period, k);
    RollingMeanCausal(Losses(xs), period, k);
  }
}
