# Indicator and signal engine of the crypto signal bot

The bot fetches 15-minute candles for a few instruments, computes technical indicators on the
close prices, derives a trend label and a short list of named signals from the last two bars,
and formats a trade suggestion (entry, stop loss, take profit). This project models that
engine, the functions `calculate_indicators`, `calculate_rsi`, `calculate_macd`,
`generate_signals`, `calculate_risk_level` and `generate_signal_message` of `main.py`, and
proves what they compute.

Modelling choices:

- Prices are `real`. A pandas value that may be NaN is an `Option<real>`, with NaN as `None`.
  A comparison with NaN is false: see `Signals.Below` and `Signals.Above`.
- The data frame is the class `Indicators.Frame`. It holds the close, high and low columns and
  a map from the indicator column names to their columns. `calculate_indicators` is a `method`
  that writes the five columns into that map in place.
- `rolling(p).mean()` is `Rolling.RollingMean`: `None` until p values exist, then the mean of the
  last p values.
- `diff()` is NaN at bar 0. `where(..., 0)` turns that NaN into 0, so gain and loss start with
  a 0 (`Oscillators.Gains`, `Oscillators.Losses`). The ratio step is `Oscillators.RsiValue`:
  - a positive average loss gives 100 − 100/(1 + g/l);
  - a zero average loss with a positive average gain divides to infinity, which gives 100;
  - 0/0 is NaN, modelled as `None`.
- `ewm(span=s).mean()` with pandas' defaults (adjust=True, no minimum period) is
  `Ewm.AdjustedEma`. At bar t it is Σ wⁱ·x[t−i] / Σ wⁱ with w = 1 − 2/(s+1), defined from bar 0.
- `iloc[-k]` on a column shorter than k raises IndexError. A missing column raises KeyError.
  Both are the `Indicators.Error` of a `Result`, and the first failing read is the one
  reported.
- The message is a sequence of `Advisory.Token`s: one token per line's content, and a
  `Newline` for every `"\n"`. Reading functions (`BulletsOf`, `LevelsOf`, `Breaks`) recover
  its signal list, its price levels and its line count.

Behaviour of the code worth knowing:

- A series of 2 to 49 bars still gets a trend label: MA50 is NaN, the comparison is false, and
  the trend is Bearish (`Signals.ShortSeriesBearish`).
- MACD and its signal line are defined from the first bar (`Oscillators.MacdFirst`).
- A MACD cross needs strict inequalities on both bars, so a tie on the previous bar fires
  nothing (`Signals.MacdNoCross`).
- The RSI is computed without any clamp and still stays in [0, 100] (`Oscillators.Rsi`).
- With both averages 0 the RSI is NaN (`Oscillators.RsiFlat`).
- The first defined RSI(14) is at bar 13 (the 14th bar), because the initial 0 gain counts in
  the window (`Oscillators.RsiWarmUp`).
- The frame `calculate_indicators` returns reads, in `generate_signals`, exactly like the
  freshly computed indicator columns, whatever columns it held before
  (`Signals.FrameSnapshot`).

## Model

| member | source | states |
|---|---|---|
| Rolling.RollingMean | main.py:27-28 | one output per input; the rolling mean of non-negative values is non-negative wherever defined |
| Rolling.RollingMeanPrefixSums | main.py:27-28 | bar i is `None` while i + 1 < p, otherwise (sum of the values up to i − sum of those before the window) / p |
| Rolling.RollingMeanShortSeries | main.py:28 | a series shorter than the window has no defined value at all |
| Rolling.RollingMeanCausal | main.py:27-28 | the rolling mean of a prefix is the prefix of the rolling mean |
| Rolling.RollingMeanSlide | main.py:27-28 | once defined, each step adds (new − oldest)/p to the previous mean |
| Rolling.RollingMeanWithin | main.py:27-28 | a window within [lo, hi] has its mean within [lo, hi] |
| Rolling.RollingMeanPositive | main.py:37-38 | a window of non-negative values with one positive value has a positive mean |
| Rolling.TrailingMeanOrder | main.py:54 | on a strictly rising series the shorter trailing mean is strictly above the longer one |
| Ewm.Decay | main.py:43-44 | the decay factor 1 − 2/(span+1) lies in [0, 1) |
| Ewm.AdjustedEma | main.py:43-44 | one output per input |
| Ewm.SpanThreeExample | main.py:43-44 | with span 3 the EMA of [1, 2] at bar 1 is 5/3, the value of the adjusted weighting with α = 2/(span+1) |
| Ewm.EmaFirst | main.py:43-44 | the first output equals the first input |
| Ewm.EmaConstant | main.py:43-44 | a constant series has that constant as its EMA everywhere |
| Ewm.EmaWithin | main.py:43-44 | an EMA lies within the bounds of the inputs seen so far |
| Ewm.EmaAtWithin | main.py:43-44 | the same bound on the unfolded ratio, by induction over the bars |
| Ewm.EmaCausal | main.py:43-44 | the EMA of a prefix is the prefix of the EMA |
| Ewm.EmaRecurrence | main.py:43-44 | each output blends the new input (weight 1) with the previous output (weight w times the previous total weight) |
| Ewm.EmaClosedForm | main.py:43-44 | each output is Σ wⁱ·x[t−i] / Σ wⁱ over the inputs so far, with total weight ≥ 1 |
| Ewm.ClosedForm | main.py:43-44 | the recursive numerator and denominator equal the explicit weighted sums |
| Oscillators.Diff | main.py:34 | one difference per bar |
| Oscillators.Gains | main.py:35 | one gain per bar, all non-negative |
| Oscillators.Losses | main.py:36 | one loss per bar, all non-negative |
| Oscillators.GainLossSplit | main.py:34-36 | gain and loss are 0 at bar 0; after that gain − loss is the price change, and one of them is 0 |
| Oscillators.RsiValue | main.py:39-40 | the result lies in [0, 100]; it is defined exactly when both averages are defined and one is positive |
| Oscillators.RsiClosedForm | main.py:39-40 | with a positive average loss the RSI is 100·g/(g+l), strictly below 100 |
| Oscillators.Rsi | main.py:33-40 | one output per bar, every defined output in [0, 100] |
| Oscillators.RsiWindow | main.py:34-40 | once the window is full, the RSI is 100·G/(G+L) for the sums G of gains and L of losses in the window, and NaN when both are 0 |
| Oscillators.RsiOfSums | main.py:39-40 | the ratio step on the window means G/n and L/n equals 100·G/(G+L), or NaN when G + L = 0 |
| Oscillators.RsiWarmUp | main.py:37-38 | no RSI before bar period − 1 |
| Oscillators.RsiFlat | main.py:34-40 | a constant series has no defined RSI anywhere (0/0) |
| Oscillators.RsiRising | main.py:34-40 | on a strictly rising series the RSI saturates at 100 once defined |
| Oscillators.RsiFalling | main.py:34-40 | on a strictly falling series the RSI is 0 once defined |
| Oscillators.RsiCausal | main.py:33-40 | the RSI of a prefix is the prefix of the RSI |
| Oscillators.MacdLine | main.py:43-45 | one MACD value per bar |
| Oscillators.CalculateMacd | main.py:42-47 | the MACD line and its signal line each have one value per bar |
| Oscillators.MacdFirst | main.py:42-47 | at the first bar both MACD and its signal line are 0 |
| Oscillators.MacdConstant | main.py:42-47 | a constant series gives MACD 0 and signal 0 at every bar |
| Oscillators.MacdBounded | main.py:42-47 | with closes so far within [lo, hi], MACD and its signal lie within [lo − hi, hi − lo] |
| Oscillators.MacdCausal | main.py:42-47 | MACD and signal of a prefix are the prefixes of MACD and signal |
| Indicators.Defined | main.py:30 | a column with no NaN, one value per bar |
| Indicators.IndicatorColumns | main.py:26-31 | exactly the five columns MA20, MA50, RSI, MACD and Signal, each one value per bar |
| Indicators.Frame.constructor | main.py:105 | a frame of the given candles with no derived columns |
| Indicators.CalculateIndicators | main.py:26-31 | writes the five columns in place, overriding columns of the same name, keeps the other columns and the candles, and returns the same frame |
| Indicators.MovingAverages | main.py:27-28 | MA20 and MA50 at each bar in prefix-sum form: NaN before the window fills, then (sum up to i − sum before the window) / 20 or / 50 |
| Signals.LabelInjective | main.py:58-66 | distinct tags have distinct texts, so membership by text is membership by tag |
| Signals.Cell | main.py:54 | `iloc[-k]`: the value k from the end, KeyError for a missing column, IndexError for too few rows |
| Signals.LastTwo | main.py:57 | the second-last and last values, failing exactly when the second-last read fails |
| Signals.ReadSnapshot | main.py:54-63 | the reads succeed exactly when all five columns exist, MACD and Signal have two rows and the others one; the fields are MA20[-1], MA50[-1], MACD[-2], Signal[-2], MACD[-1], Signal[-1] and RSI[-1]; a failure is the error of the first failing read in the order MA20, MA50, MACD[-2], Signal[-2], RSI |
| Signals.TrendOf | main.py:54 | Bullish exactly when MA20 and MA50 are defined and MA20 > MA50 strictly |
| Signals.GenerateSignals | main.py:50-68 | the error of the first failing read, or the list of firing tags in rule order with the trend label |
| Signals.ExpectedUnfold | main.py:56-66 | the list is the bullish-cross tag, the bearish-cross tag, the oversold tag and the overbought tag, each included when it fires |
| Signals.FiringMember | main.py:56-66 | a tag is in a firing list exactly when it is a candidate and fires |
| Signals.ExpectedMember | main.py:56-66 | a tag is in the signal list exactly when its rule fires |
| Signals.TagsExclusive | main.py:57-66 | the two MACD tags never both fire, nor do the two RSI tags |
| Signals.RsiNeutral | main.py:63-66 | a NaN RSI or one in [30, 70] adds no RSI tag |
| Signals.MacdNoCross | main.py:57-60 | without a strict sign change across the two bars no MACD tag is added |
| Signals.ExpectedShape | main.py:51-68 | at most two tags, no repeats, and a MACD tag never follows an RSI tag |
| Signals.ReadIndicators | main.py:54-63 | on freshly computed columns the reads succeed exactly when the frame has at least two rows, and otherwise raise IndexError |
| Signals.IndicatorSnapshot | main.py:26-63 | on freshly computed columns of at least two rows, the snapshot is the last MA20, MA50 and RSI values and the last two MACD and signal values |
| Signals.FrameSnapshot | main.py:109-112 | after `calculate_indicators` overlays its columns on any earlier ones, the reads of `generate_signals` give the same snapshot, or the same error, as on the fresh indicator columns |
| Signals.PipelineReads | main.py:109-112 | after `calculate_indicators`, the reads of `generate_signals` succeed exactly when the frame has at least two rows, and otherwise raise IndexError |
| Signals.ShortSeriesBearish | main.py:54 | 2 to 49 bars always give Bearish |
| Signals.RisingAverages | main.py:54 | on a strictly rising series of at least 50 bars the last MA20 is strictly above the last MA50 |
| Signals.FlatSeriesSilent | main.py:26-68 | a constant series gives an empty signal list |
| Signals.RisingSeries | main.py:26-68 | a strictly rising series of at least 50 bars is Bullish and RSI Overbought |
| Signals.FallingSeries | main.py:26-68 | a strictly falling series of at least 14 bars is RSI Oversold |
| Risk.CalculateRiskLevel | main.py:71-77 | the accumulated score equals the specification function and lies in [0, 3] |
| Risk.RiskScoreUnfold | main.py:72-77 | the score is 2 for a bullish cross plus 1 for oversold, so the cap never binds |
| Risk.RiskRange | main.py:77 | the score lies in [0, 3], and the empty list scores 0 |
| Risk.RiskByMembership | main.py:73-76 | the score depends only on which tags are present |
| Risk.RiskIgnores | main.py:73-76 | inserting a bearish cross or an overbought tag anywhere leaves the score unchanged |
| Risk.RiskMonotone | main.py:73-77 | adding tags never lowers the score |
| Risk.RiskOfSnapshot | main.py:57-77 | on a generated list, 3 means a bullish cross with oversold RSI, and 0 means neither fired |
| Advisory.PriceBand | main.py:87-89 | entry is the last close; the target-to-entry distance is 4/3 of the entry-to-stop distance; the band spans 3.5 ranges |
| Advisory.BandOrdered | main.py:81-89 | with high ≥ low the stop is at or below the entry and the target at or above it, with equality exactly when high = low |
| Advisory.JoinBullets | main.py:85 | an empty signal list joins to nothing |
| Advisory.JoinBulletsRoundTrip | main.py:85 | the joined list reads back as the signal list, with no price lines and one break less than the tags |
| Advisory.LastOf | main.py:80-81 | `iloc[-1]`: succeeds exactly on a non-empty column with its last value, and fails with IndexError otherwise |
| Advisory.MessageBullets | main.py:85 | the message reads back as its signal list, in order |
| Advisory.MessageLevels | main.py:91-93 | the message reads back as entry, stop loss and take profit of its band, in that order |
| Advisory.MessageBreaks | main.py:83-93 | the message has 8 line breaks plus one between each two signals |
| Advisory.GenerateSignalMessage | main.py:79-95 | fails with IndexError exactly when a price column is empty; otherwise the message of the band of the last close and last high − low, reading back as the signals and the three levels |

General facts about sums, means and rising series (`Rolling.SumConcat`, `Rolling.MeanWithin`,
`Rolling.MeanOfConcat`, `Rolling.RisingOrdered` and the arithmetic steps beside them), and the
unfolding helpers `Rolling.RollingMeanAt` and `Oscillators.RsiAt`, the map identity
`Indicators.UpdatesAreUnion` and the concatenation laws of the message readers
(`Advisory.BulletsOfConcat`, `Advisory.LevelsOfConcat`, `Advisory.BreaksConcat`), and the split of the message into its
appended pieces (`Advisory.Parts`, `Advisory.ReadPieces`) are proof helpers
and have no row.

The methods are proved against these specification functions:

- `Signals.Expected` is the signal list `generate_signals` builds (main.py:56-66). It is
  `Signals.Firing` over the four tags in order, keeping those whose rule `Signals.Fires` holds.
  `Signals.GenerateSignals` is proved to return it.
- `Risk.RiskScore` is the score of main.py:72-77: `Risk.PresentPoints` adds the `Risk.Points`
  of each distinct tag present, and caps the sum at 3. `Risk.CalculateRiskLevel` is proved to
  compute it.
- `Advisory.Message` is the message of main.py:83-93. `Advisory.GenerateSignalMessage` is proved
  to build it for the band `Advisory.PriceBand` gives.

## Left out

- `analyze_markets` is not modelled. It holds the candle fetch from the exchange, the conversion of the response to numbers, the per-symbol `try`/`except`, and sending to Telegram. These are network calls and I/O; the frame is a parameter instead.
- The order of the candles the exchange returns is not modelled. The model takes closes oldest first, as the indicators assume.
- The scheduler, the bot command handlers and the configuration read from the environment are not modelled. They are I/O and process setup.
- Floating point is not modelled. Prices are exact reals, so rounding, overflow and IEEE infinities are not captured; an infinite ratio appears only through the saturating case of `Oscillators.RsiValue`.
- The `:.4f` formatting of prices, the emoji and the Markdown markup of the message are not modelled. The message is a token sequence carrying the values.
- The timestamp, open and volume columns are not modelled. No modelled operation reads them.
- A KeyError from a missing close, high or low column is not modelled, because `Indicators.Frame` always has those three columns.
- `calculate_risk_level` is never called in `main.py`. It is modelled on its own (`Risk.CalculateRiskLevel`).
- Oscillators.RsiValue: requires non-negative averages. Every call from `Oscillators.Rsi` meets this, because gains and losses are non-negative; a negative average never reaches the division in the source either.
- Oscillators.CalculateMacd: its contract gives only the lengths. What the two columns contain is stated by `Oscillators.MacdFirst`, `MacdConstant`, `MacdBounded` and `MacdCausal`, and by the `Ewm` lemmas about each EMA.
