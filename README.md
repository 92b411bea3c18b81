# Scalping-signal decision core, modelled in Dafny

This project models the numeric core of a crypto scalping bot (`main.py`).
It takes a series of one-minute OHLCV candles, evaluates three trading
strategies on the last bar, scores them, and decides whether to announce a
LONG/SHORT signal with take-profit and stop-loss levels. The model covers:

- `compute_rsi`, Wilder's relative strength index, as an imperative method over
  an array, proved equal to a functional specification (`Momentum`);
- the indicators `analyze_strategies` builds: the 9- and 21-close "EMAs" (in
  fact numpy valid-mode convolutions with a uniform kernel, i.e. simple moving
  averages), the 20-bar VWAP, and the wick ratio of the last bar (`Indicators`);
- the three strategy verdicts, the confidence `round(count * 3.3, 1)` in tenths,
  the threshold of 7, the direction and the price levels of `send_signal`, and
  their composition as in `main` (`Strategy`).

`real` stands in for float64 as exact arithmetic. `Series` holds the sums,
means and trailing windows (`s[-k:]` for `k > 0`) the indicators share, and `Wrappers` the
`Option` type used for numpy's exceptions and NaN/infinity cases.

## Behaviour that differs from what the names and comments suggest

The model follows the code:

- The RSI seed window is `deltas[:period+1]`, which is 15 deltas, but it is divided by 14
  (`Momentum.SeedOverweights`: a constant rise `g` seeds `up = 15g/14`).
- When the average loss is 0, `rs` is set to 0 and the emitted RSI is 0, not
  100. A market that never falls therefore has RSI 0 everywhere
  (`Momentum.NeverFallingRsiZero`). That reads as "oversold" to strategy 1 and
  fails strategy 3's band of 50 to 80.
- A short series is never refused. `np.convolve` swaps its operands
  when the kernel is longer than the series, so with fewer than 21 closes the
  slow average still exists: it is the sum of all closes divided by 21
  (`Indicators.MovingAverageShort`). A flat market of 9 to 20 candles at a
  positive price therefore fires strategy 1 (`Strategy.ShortFlatMarketTrend`).
  Only an empty series fails: numpy raises, and the model returns `None`/`Failed`.
- A strictly rising market fires strategy 1, because RSI 0 counts as oversold.
  For example, 21 closes rising by 1, with the same volume on every bar, give
  verdicts (true, false, false) and confidence 3.3 (`Strategy.RisingSteadyMarket`).
- The maximum confidence is 9.9, not 10. Only three agreeing strategies reach
  the threshold of 7, so strategy 1 always holds when a signal is sent and the
  SHORT branch is unreachable (`Strategy.SendSignal`).
- The "order-book imbalance" strategy looks only at the last bar. It divides the
  distance from the close up to the high by the distance from the low up to the
  close, plus `1e-6`. Neither distance involves the open.

## Model

| member | source | states |
|---|---|---|
| `Momentum.Deltas` | main.py:30 | `np.diff`: one fewer entry than the input, each the change to the next value |
| `Momentum.Gain` | main.py:39 | `max(delta, 0)` is non-negative, and gain minus loss gives back the delta |
| `Momentum.Loss` | main.py:40 | `-min(delta, 0)` is non-negative, and zero exactly when the delta is non-negative |
| `Momentum.SumGains` | main.py:32 | the sum of the non-negative deltas is non-negative |
| `Momentum.SumLosses` | main.py:33 | the negated sum of the negative deltas is non-negative |
| `Momentum.NoLossesIff` | main.py:33 | the loss sum is zero if and only if no delta in the window is negative |
| `Momentum.SumGainsOfConstant` | main.py:32 | equal deltas `g` sum to `count * max(g, 0)` |
| `Momentum.SeedWindow` | main.py:31 | `deltas[:period+1]`: the first min(15, len) deltas, in order |
| `Momentum.SeedAverages` | main.py:30-33 | seed `up` and `down` are non-negative; `down` is zero if and only if the seed window has no fall |
| `Momentum.SeedOverweights` | main.py:31-32 | 15 seed deltas over a period of 14: a constant rise `g` seeds `up = 15g/14` |
| `Momentum.Smooth` | main.py:41-42 | each smoothing step moves `up` and `down` to a value between the previous average and the new gain or loss |
| `Momentum.WeightedStep` | main.py:41-42 | `(prev*13 + x)/14` lies between `prev` and `x` |
| `Momentum.SmoothedFrom` | main.py:37-42 | the smoothed averages after step `i` stay non-negative when the seed is |
| `Momentum.SmoothOf` | main.py:41-42 | the smoothing step written on the loop's scalars equals the specification's step |
| `Momentum.AveragesIn` | main.py:30-42 | the averages in force at each index (seed before `period`, smoothed after) are non-negative |
| `Momentum.RelativeStrength` | main.py:34 | `rs` is non-negative, and zero if and only if `up` or `down` is zero (the `down == 0` fallback) |
| `Momentum.SeedRsi` | main.py:34-36 | the value `rsi[:period]` is filled with lies in [0, 100), and is 0 exactly when the seed window shows no gain or no loss |
| `Momentum.Oscillator` | main.py:36 | `100 - 100/(1+rs)` lies in [0, 100) and is 0 if and only if `rs` is 0 |
| `Momentum.OscillatorRatioForm` | main.py:43-44 | with losses present, the RSI equals `100*up/(up+down)` |
| `Momentum.RsiAt` | main.py:29-45 | every RSI entry lies in [0, 100) and is 0 exactly when its average gain or loss is 0 |
| `Momentum.Rsi` | main.py:29-45 | the RSI series has the input's length, entries in [0, 100), and the seed value in every slot below `period` |
| `Momentum.LossFreeSeedZeroPrefix` | main.py:31-36 | a seed window without a fall gives RSI 0 in the whole prefix |
| `Momentum.NoFallNoLoss` | main.py:41-42 | with no falling delta, the smoothed `down` stays 0 |
| `Momentum.NeverFallingRsiZero` | main.py:29-45 | a series that never falls has RSI 0 at every index |
| `Momentum.Rest` | main.py:37-44 | the values the loop emits from index `i` on number `len - i` |
| `Momentum.RestIsSuffix` | main.py:37-44 | the loop's emissions from index `i` are exactly the RSI specification from `i` on |
| `Momentum.AveragesStep` | main.py:38-42 | the averages at index `i` are one smoothing step of those at `i - 1` with `deltas[i-1]` |
| `Momentum.RsiSplit` | main.py:35-44 | the RSI is the seed value repeated over the prefix followed by the loop's emissions |
| `Momentum.SeedValue` | main.py:34-36 | the seed `rs` is non-negative and `100 - 100/(1+rs)` is the specification's seed RSI |
| `Momentum.LoopStep` | main.py:38-44 | one loop iteration emits the next RSI value and leaves non-negative averages |
| `Momentum.SeedOutput` | main.py:30-36 | allocates the output array and fills the first `period` slots with the seed RSI; returns the seed averages |
| `Momentum.SmoothStep` | main.py:38-44 | one iteration: the value written at `i` and the averages for `i + 1`, as the specification's next emission |
| `Momentum.SmoothTail` | main.py:37-44 | the loop leaves the prefix unchanged and writes the specification's emissions from `period` to the end |
| `Momentum.ComputeRsi` | main.py:29-45 | `compute_rsi` returns exactly the RSI specification |
| `Series.Sum` | main.py:61-62 | `.sum()`: the first entry plus the sum of the rest, 0 for no entries (a definition; `Series.SumConcat`, `Series.SumBounds` and `Series.SumAtLeast` state its properties) |
| `Series.SumConcat` | main.py:61-62 | the sum of two joined series is the sum of their sums |
| `Series.SumOfConstant` | main.py:61-62 | `len` equal entries `c` sum to `len * c` |
| `Series.SumBounds` | main.py:61-62 | entries within `[lo, hi]` sum to between `len * lo` and `len * hi` |
| `Series.SumAtLeast` | main.py:61-62 | entries of at least `m` sum to at least `len * m`; with `m = 0`, non-negative volumes have a non-negative sum |
| `Series.MeanOfConstant` | main.py:62 | `len` equal entries `c` have mean `c` |
| `Series.MeanBounds` | main.py:62 | entries within `[lo, hi]` have a mean within `[lo, hi]` |
| `Series.Mean` | main.py:62 | `.mean()` of a non-empty series: taken `len` times, the mean gives back the sum |
| `Series.Tail` | main.py:61-62 | for `k > 0`, `s[-k:]`: the last min(k, len) entries, in order |
| `Series.Product` | main.py:61 | the entry-wise product of two equal-length series |
| `Series.MeanDroppedByLowerPrefix` | main.py:54-55 | prepending values below every later value lowers the mean (the 21-window mean falls below the 9-window mean) |
| `Indicators.Dot` | main.py:61 | `(a * b).sum()`: the sum of the entry-wise product (a definition; `Indicators.DotConstant` and `Indicators.WeightedSumBounds` state its properties) |
| `Indicators.DotConstant` | main.py:54-55 | against a constant kernel `q`, the dot product is the sum times `q` |
| `Indicators.DotCommutes` | main.py:54-55 | the dot product does not depend on the order of its operands |
| `Indicators.Reverse` | main.py:54-55 | convolution reverses its kernel: entry `i` is entry `len-1-i` of the input |
| `Indicators.Slide` | main.py:54-55 | valid-mode correlation has `len(a) - len(k) + 1` entries |
| `Indicators.Convolve` | main.py:54-55 | `np.convolve(..., 'valid')` fails if and only if an operand is empty; otherwise it has `max - min + 1` entries |
| `Indicators.Uniform` | main.py:54-55 | `np.ones(w)/w` has `w` entries |
| `Indicators.MovingAverage` | main.py:54-55 | the moving average fails if and only if the series is empty; its length follows the operand swap |
| `Indicators.WindowMeans` | main.py:54-55 | the reference moving average: one mean per full window, `n - w + 1` of them |
| `Indicators.MovingAverageWindows` | main.py:54-55 | with at least `w` closes, the convolution is exactly the sequence of window means |
| `Indicators.MovingAverageShort` | main.py:54-55 | with fewer than `w` closes, there are `w - n + 1` entries, each the total divided by `w` |
| `Indicators.MovingAverageLast` | main.py:54-57 | `ema[-1]` is the mean of the last `w` closes, or the total over `w` for a shorter series |
| `Indicators.WindowMeansConstant` | main.py:54-55 | a constant series averages to that constant |
| `Indicators.WindowMeansBounds` | main.py:54-55 | every window mean lies within the bounds of the closes |
| `Indicators.SumReverse` | main.py:54-55 | reversing the operand does not change its sum |
| `Indicators.TypicalPrices` | main.py:60 | `(highs + lows + closes)/3` has one entry per bar |
| `Indicators.WeightedMean` | main.py:61 | the weighted mean is undefined exactly when the weights sum to zero |
| `Indicators.Vwap` | main.py:61 | the VWAP is undefined (numpy's NaN or infinity) exactly when the last 20 volumes sum to zero |
| `Indicators.WeightedSumBounds` | main.py:61 | non-negative weights keep the weighted sum between `lo` and `hi` times the total weight |
| `Indicators.WeightedMeanBounds` | main.py:61 | a weighted mean with non-negative weights lies between the least and greatest value |
| `Indicators.VwapBounds` | main.py:61 | the VWAP lies between the least and greatest typical price of the window |
| `Indicators.WeightedMeanEqualWeights` | main.py:61 | equal non-zero weights give the plain mean |
| `Indicators.VwapEqualVolumes` | main.py:61 | equal non-zero volumes make the VWAP the mean typical price |
| `Indicators.WickDenominator` | main.py:65 | when the close is not below the low, the denominator is at least `1e-6`, so never zero |
| `Indicators.WickRatio` | main.py:65 | the ratio is undefined exactly when the denominator is zero, and non-negative when the close is not below the low |
| `Indicators.WickAboveIff` | main.py:65-66 | the ratio exceeds `t` if and only if the upper distance exceeds `t` times the denominator |
| `Indicators.WickClosedAtHigh` | main.py:65 | a bar closing at its high has ratio 0 |
| `Strategy.Closes` | main.py:48 | `c[4]` of every candle, in order |
| `Strategy.Highs` | main.py:49 | `c[2]` of every candle, in order |
| `Strategy.Lows` | main.py:50 | `c[3]` of every candle, in order |
| `Strategy.Volumes` | main.py:51 | `c[5]` of every candle, in order |
| `Strategy.LastRsi` | main.py:56-57 | `rsi_vals[-1]` lies in [0, 100) |
| `Strategy.TrendMomentum` | main.py:54-57 | strategy 1 fires only with the final RSI below 30 or above 70 |
| `Strategy.VwapVolume` | main.py:60-62 | strategy 2 fires only when the last 20 bars traded volume (otherwise there is no VWAP) |
| `Strategy.WickAbove` | main.py:65-66 | the wick test passes only for a close off the high |
| `Strategy.WickMomentum` | main.py:65-66 | strategy 3 fires only for a close off the high and a final RSI strictly between 50 and 80 |
| `Strategy.AnalyzeStrategies` | main.py:47-68 | fails if and only if there are no candles; otherwise returns the three verdicts and the last close |
| `Strategy.CountTrue` | main.py:71 | `sum(strats)` is at most 3, and 3 exactly when all three verdicts hold |
| `Strategy.ConfidenceTenths` | main.py:71-72 | the confidence, in tenths, is one of 0, 3.3, 6.6 and 9.9, and reaches 7 if and only if all three verdicts hold |
| `Strategy.ConfidenceLevels` | main.py:71 | `33 * count` tenths is exactly `count * 3.3` |
| `Strategy.SendSignal` | main.py:70-78 | a signal exists if and only if all three verdicts hold; it is always LONG at 9.9, entered at the price, with `sl < entry < tp1 < tp2` for a positive price |
| `Strategy.Decide` | main.py:94-97 | a run fails exactly on an empty series; a sent signal enters at the last close |
| `Strategy.TrendMomentumLongSeries` | main.py:54-57 | with 21 or more closes, strategy 1 is: mean of the last 9 above mean of the last 21, and RSI below 30 or above 70 |
| `Strategy.TrendMomentumShortSeries` | main.py:54-57 | with 9 to 20 closes, strategy 1 compares the last-9 mean with the total over 21 |
| `Strategy.NeverFallingLastRsi` | main.py:56 | closes that never fall give final RSI 0 |
| `Strategy.RisingMarketTrend` | main.py:54-57 | a strictly rising market of 21 or more closes fires strategy 1 |
| `Strategy.RisingFastAboveSlow` | main.py:54-55 | in a strictly rising market, the last-9 mean exceeds the last-21 mean |
| `Strategy.FlatMarketNoTrend` | main.py:54-57 | a flat market of 21 or more closes never fires strategy 1 |
| `Strategy.ShortFlatMarketTrend` | main.py:54-57 | a flat market of 9 to 20 closes at a positive price fires strategy 1 |
| `Strategy.ShortFlatAverages` | main.py:54-55 | in such a market the fast average is the price and the slow one lies below it |
| `Strategy.DilutedBelow` | main.py:55 | fewer than 21 equal positive closes sum to less than 21 times the price |
| `Strategy.SteadyVolumeNoSpike` | main.py:62 | a constant non-negative volume over the last 20 bars never fires strategy 2 |
| `Strategy.VolumeSpikeIff` | main.py:62 | the spike test holds if and only if the last volume times (window size − 1.5) exceeds 1.5 times the volume of the window's other bars |
| `Strategy.SingleCandleNoSpike` | main.py:62 | a single candle with non-negative volume never counts as a spike, so strategy 2 does not fire |
| `Strategy.TypicalWithinBar` | main.py:60 | a bar's typical price lies between its low and its high |
| `Strategy.VwapWithinRange` | main.py:60-61 | for well-formed bars with non-negative volume, the VWAP exists iff the last 20 bars traded volume, and then lies between the lowest low and the highest high |
| `Strategy.WickAboveMeaning` | main.py:65-66 | the wick test is: upper distance above 1.5 times (lower distance + `1e-6`) |
| `Strategy.ClosedAtHighNoWick` | main.py:65-66 | a last bar closing at its high never fires strategy 3 |
| `Strategy.TrendAndWickBand` | main.py:57-66 | strategies 1 and 3 together force the final RSI strictly between 70 and 80 |
| `Strategy.SignalShape` | main.py:57-78 | every sent signal is LONG at 9.9 and needs the final RSI strictly between 70 and 80 |
| `Strategy.NeverFallingMarketSilent` | main.py:29-97 | a market whose closes never fall sends no signal |
| `Strategy.RisingSteadyMarket` | main.py:47-97 | a strictly rising market with steady volume gives verdicts (true, false, false), confidence 3.3, and no signal |

## Left out

- `fetch_data` (the exchange call with its API keys), the `.env` loading, the
  Telegram bot and `send_message`, and the HTML message text are I/O and
  presentation. The candles are a parameter of `Strategy.Decide`, and a sent
  signal is a value.
- Float arithmetic: `real` is exact. The model does not capture float64
  rounding in the sums and divisions, or `3 * 3.3` evaluating to
  9.899999999999999 before `round`.
- Strategy.SendSignal: the levels are exact products, not the cent-rounded
  `round(x, 2)` values of the message. For prices below about 3.33, rounding
  could make levels coincide, so the strict ordering is stated for the exact values only.
- Strategy.VwapVolume: a window whose volumes sum to zero yields NaN or an
  infinity in numpy. The model treats every such window as "close not above
  VWAP". That matches NaN and +infinity, but not the −infinity a negative
  weighted sum would give, which needs negative volumes.
- Strategy.WickAbove: a zero wick denominator is modelled as numpy's
  infinity or NaN (the test passes exactly when the upper distance is
  non-zero). Signed zeros are not modelled.
- `compute_rsi`'s `period` parameter: only the value the caller uses (14) is
  modelled, with the smoothing weights written as 13/14.
- `compute_rsi`'s single loop is split into three methods: the seed and
  prefix fill, one iteration, and the loop. This keeps each proof small;
  together they do the same writes in the same order.
- NaN or infinite inputs from the exchange, and numpy broadcasting internals.
