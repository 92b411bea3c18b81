/** The bot's decision: the three strategy verdicts `analyze_strategies` derives
    from a candle series, the confidence `send_signal` gives them, and the
    trade levels of the signal it would send. */
module Strategy {
  import opened Wrappers
  import opened Series
  import opened Indicators
  import opened Momentum

  /** One OHLCV candle as the exchange returns it:
      `[timestamp, open, high, low, close, volume]`. */
  datatype Candle = Candle(timestamp: int, open: real, high: real, low: real, close: real, volume: real)

  /** Window of the fast and of the slow moving average. */
  const FastWindow: nat := 9
  const SlowWindow: nat := 21
  /** Number of trailing bars in the VWAP and in the volume mean. */
  const VwapWindow: nat := 20
  /** A volume spike is a last volume above this multiple of the mean. */
  const SpikeFactor: real := 1.5
  /** The wick ratio must exceed this. */
  const WickThreshold: real := 1.5
  /** RSI levels: oversold, overbought, and the band of the wick strategy. */
  const Oversold: real := 30.0
  const Overbought: real := 70.0
  const WickRsiLow: real := 50.0
  const WickRsiHigh: real := 80.0

  function Closes(candles: seq<Candle>): (r: seq<real>)
    ensures |r| == |candles|
    ensures forall i :: 0 <= i < |r| ==> r[i] == candles[i].close
  {
    seq(|candles|, i requires 0 <= i < |candles| => candles[i].close)
  }

  function Highs(candles: seq<Candle>): (r: seq<real>)
    ensures |r| == |candles|
    ensures forall i :: 0 <= i < |r| ==> r[i] == candles[i].high
  {
    seq(|candles|, i requires 0 <= i < |candles| => candles[i].high)
  }

  function Lows(candles: seq<Candle>): (r: seq<real>)
    ensures |r| == |candles|
    ensures forall i :: 0 <= i < |r| ==> r[i] == candles[i].low
  {
    seq(|candles|, i requires 0 <= i < |candles| => candles[i].low)
  }

  function Volumes(candles: seq<Candle>): (r: seq<real>)
    ensures |r| == |candles|
    ensures forall i :: 0 <= i < |r| ==> r[i] == candles[i].volume
  {
    seq(|candles|, i requires 0 <= i < |candles| => candles[i].volume)
  }

  /** `rsi_vals[-1]`: the RSI at the last close. */
  function LastRsi(closes: seq<real>): (v: real)
    requires |closes| > 0
    ensures 0.0 <= v < 100.0
  {
    Last(Rsi(closes))
  }

  /** Strategy 1 ("EMA + RSI"): the last fast moving average is above the last
      slow one, and the RSI is oversold or overbought. */
  function TrendMomentum(closes: seq<real>): (b: bool)
    requires |closes| > 0
    ensures b ==> LastRsi(closes) < Oversold || LastRsi(closes) > Overbought
  {
    var fast := MovingAverage(closes, FastWindow);
    var slow := MovingAverage(closes, SlowWindow);
    Last(fast.value) > Last(slow.value) &&
    (LastRsi(closes) < Oversold || LastRsi(closes) > Overbought)
  }

  /** Strategy 2 ("VWAP + volume spike"): the last close is above the VWAP of the
      last bars, and the last volume exceeds 1.5 times their mean volume. A window
      without volume has no VWAP (numpy's NaN), and no close is above it. */
  function VwapVolume(closes: seq<real>, highs: seq<real>, lows: seq<real>, volumes: seq<real>): (b: bool)
    requires |closes| == |highs| == |lows| == |volumes| > 0
    ensures b ==> Sum(Tail(volumes, VwapWindow)) != 0.0
  {
    var vwap := Vwap(TypicalPrices(highs, lows, closes), volumes, VwapWindow);
    (vwap.Some? && Last(closes) > vwap.value) &&
    Last(volumes) > Mean(Tail(volumes, VwapWindow)) * SpikeFactor
  }

  /** Whether the wick ratio of a bar exceeds the threshold. When the ratio's
      denominator is zero, numpy divides to an infinity (a non-zero upper
      distance), which exceeds it, or to NaN (a zero one), which does not. */
  function WickAbove(high: real, low: real, close: real): (b: bool)
    ensures b ==> high != close
  {
    match WickRatio(high, low, close)
    case Some(w) => w > WickThreshold
    case None => Abs(high - close) > 0.0
  }

  /** Strategy 3 ("order-book imbalance + RSI"): the last bar's wick ratio is
      above 1.5 and the RSI lies strictly between 50 and 80. */
  function WickMomentum(high: real, low: real, close: real, rsi: real): (b: bool)
    ensures b ==> high != close && WickRsiLow < rsi < WickRsiHigh
  {
    WickAbove(high, low, close) && WickRsiLow < rsi < WickRsiHigh
  }

  datatype Verdicts = Verdicts(trendMomentum: bool, vwapVolume: bool, wickMomentum: bool)

  /** What `analyze_strategies` returns: the verdicts and the last close. */
  datatype Analysis = Analysis(verdicts: Verdicts, price: real)

  /** `analyze_strategies(candles)`. An empty series makes numpy's convolution
      raise; that is `None`. */
  function AnalyzeStrategies(candles: seq<Candle>): (r: Option<Analysis>)
    ensures r.None? <==> |candles| == 0
    ensures r.Some? ==> r.value.price == Last(candles).close
  {
    if |candles| == 0 then None
    else
      var closes, highs, lows, volumes := Closes(candles), Highs(candles), Lows(candles), Volumes(candles);
      var last := Last(candles);
      Some(Analysis(
        Verdicts(
          TrendMomentum(closes),
          VwapVolume(closes, highs, lows, volumes),
          WickMomentum(last.high, last.low, last.close, LastRsi(closes))),
        last.close))
  }

  /** `sum(strats)`. */
  function CountTrue(v: Verdicts): (n: nat)
    ensures n <= 3
    ensures n == 3 <==> v.trendMomentum && v.vwapVolume && v.wickMomentum
  {
    (if v.trendMomentum then 1 else 0) + (if v.vwapVolume then 1 else 0) + (if v.wickMomentum then 1 else 0)
  }

  /** `round(sum(strats) * 3.3, 1)`, in tenths: one of 0, 3.3, 6.6 and 9.9, and
      at least the threshold of 7 exactly when all three strategies hold. */
  function ConfidenceTenths(v: Verdicts): (t: nat)
    ensures t in {0, 33, 66, 99}
    ensures t >= ThresholdTenths <==> CountTrue(v) == 3
  {
    33 * CountTrue(v)
  }

  /** `send_signal` stays silent below a confidence of 7. */
  const ThresholdTenths: nat := 70

  /** Counting in tenths loses nothing: `33 * count` tenths is exactly
      `count * 3.3`, the value `round(..., 1)` keeps. */
  lemma ConfidenceLevels(v: Verdicts)
    ensures ConfidenceTenths(v) as real / 10.0 == CountTrue(v) as real * 3.3
  {
  }

  datatype Direction = Long | Short

  /** The trade `send_signal` announces. Levels are exact; the source rounds them
      to cents for the message. */
  datatype Signal = Signal(direction: Direction, confidenceTenths: nat, entry: real,
                           takeProfit1: real, takeProfit2: real, stopLoss: real)

  const TakeProfit1Factor: real := 1.003
  const TakeProfit2Factor: real := 1.006
  const StopLossFactor: real := 0.996

  /** `send_signal(strats, price)`: no signal below the confidence threshold,
      otherwise LONG when strategy 1 holds (SHORT otherwise), with take-profits
      0.3% and 0.6% above the price and the stop-loss 0.4% below it. Since only
      three agreeing strategies reach the threshold, every signal is LONG at
      confidence 9.9. */
  function SendSignal(v: Verdicts, price: real): (r: Option<Signal>)
    ensures r.Some? <==> v.trendMomentum && v.vwapVolume && v.wickMomentum
    ensures r.Some? ==> r.value.direction == Long && r.value.confidenceTenths == 99
    ensures r.Some? ==> r.value.entry == price
    ensures r.Some? && price > 0.0 ==>
      r.value.stopLoss < r.value.entry < r.value.takeProfit1 < r.value.takeProfit2
  {
    var confidence := ConfidenceTenths(v);
    if confidence < ThresholdTenths then None
    else
      var direction := if v.trendMomentum then Long else Short;
      Some(Signal(direction, confidence, price,
                  price * TakeProfit1Factor, price * TakeProfit2Factor, price * StopLossFactor))
  }

  /** What one run of `main` does with a candle series. */
  datatype Outcome = Failed | Silent | Sent(signal: Signal)

  /** `main`: analyse the candles and send the signal, if any. */
  function Decide(candles: seq<Candle>): (r: Outcome)
    ensures r.Failed? <==> |candles| == 0
    ensures r.Sent? ==> r.signal.entry == Last(candles).close
  {
    match AnalyzeStrategies(candles)
    case None => Failed
    case Some(a) =>
      match SendSignal(a.verdicts, a.price)
      case None => Silent
      case Some(s) => Sent(s)
  }

  // ---------------------------------------------------------------------------
  // Strategy 1

  /** With at least 21 closes, strategy 1 compares the mean of the last 9 closes
      with the mean of the last 21. */
  lemma TrendMomentumLongSeries(closes: seq<real>)
    requires |closes| >= SlowWindow
    ensures TrendMomentum(closes) <==>
      Mean(Tail(closes, FastWindow)) > Mean(Tail(closes, SlowWindow)) &&
      (LastRsi(closes) < Oversold || LastRsi(closes) > Overbought)
  {
    MovingAverageLast(closes, FastWindow);
    MovingAverageLast(closes, SlowWindow);
  }

  /** With fewer than 21 closes (but at least 9), numpy swaps the operands of the
      slow convolution: the slow average is the sum of all closes divided by 21. */
  lemma TrendMomentumShortSeries(closes: seq<real>)
    requires FastWindow <= |closes| < SlowWindow
    ensures TrendMomentum(closes) <==>
      Mean(Tail(closes, FastWindow)) > Sum(closes) / SlowWindow as real &&
      (LastRsi(closes) < Oversold || LastRsi(closes) > Overbought)
  {
    MovingAverageLast(closes, FastWindow);
    MovingAverageLast(closes, SlowWindow);
  }

  /** A series of closes that never falls has RSI 0 at the end. */
  lemma NeverFallingLastRsi(closes: seq<real>)
    requires |closes| > 0
    requires forall j, k :: 0 <= j < k < |closes| ==> closes[j] <= closes[k]
    ensures LastRsi(closes) == 0.0
  {
    NeverFallingRsiZero(closes);
  }

  /** A strictly rising market of at least 21 closes fires strategy 1: the last 9
      closes average above the last 21, and the RSI is 0 (no losses), which counts
      as oversold. */
  lemma RisingMarketTrend(closes: seq<real>)
    requires |closes| >= SlowWindow
    requires forall j, k :: 0 <= j < k < |closes| ==> closes[j] < closes[k]
    ensures TrendMomentum(closes)
  {
    NeverFallingLastRsi(closes);
    RisingFastAboveSlow(closes);
    TrendMomentumLongSeries(closes);
  }

  /** In a strictly rising market the last 9 closes average above the last 21. */
  lemma RisingFastAboveSlow(closes: seq<real>)
    requires |closes| >= SlowWindow
    requires forall j, k :: 0 <= j < k < |closes| ==> closes[j] < closes[k]
    ensures Mean(Tail(closes, FastWindow)) > Mean(Tail(closes, SlowWindow))
  {
    var n := |closes|;
    var older, recent := closes[n - SlowWindow..n - FastWindow], closes[n - FastWindow..];
    var m := closes[n - FastWindow];
    forall i | 0 <= i < |older|
      ensures older[i] < m
    {
      assert older[i] == closes[n - SlowWindow + i];
    }
    forall j | 0 <= j < |recent|
      ensures m <= recent[j]
    {
      assert recent[j] == closes[n - FastWindow + j];
    }
    MeanDroppedByLowerPrefix(older, recent, m);
    assert older + recent == Tail(closes, SlowWindow);
    assert recent == Tail(closes, FastWindow);
  }

  /** A flat market of at least 21 closes never fires strategy 1: both averages
      equal the price. */
  lemma FlatMarketNoTrend(closes: seq<real>, c: real)
    requires |closes| >= SlowWindow
    requires forall i :: 0 <= i < |closes| ==> closes[i] == c
    ensures !TrendMomentum(closes)
  {
    TrendMomentumLongSeries(closes);
    MeanOfConstant(Tail(closes, FastWindow), c);
    MeanOfConstant(Tail(closes, SlowWindow), c);
  }

  /** A flat market at a positive price with 9 to 20 closes does fire strategy 1:
      the slow average is diluted to `n * c / 21`, below the fast one, and the RSI
      is 0. */
  lemma ShortFlatMarketTrend(closes: seq<real>, c: real)
    requires FastWindow <= |closes| < SlowWindow
    requires c > 0.0
    requires forall i :: 0 <= i < |closes| ==> closes[i] == c
    ensures TrendMomentum(closes)
  {
    NeverFallingLastRsi(closes);
    ShortFlatAverages(closes, c);
    TrendMomentumShortSeries(closes);
  }

  /** The averages of a short flat market: the fast one is the price, the slow one
      `n * c / 21` below it. */
  lemma ShortFlatAverages(closes: seq<real>, c: real)
    requires FastWindow <= |closes| < SlowWindow
    requires c > 0.0
    requires forall i :: 0 <= i < |closes| ==> closes[i] == c
    ensures Mean(Tail(closes, FastWindow)) == c
    ensures Sum(closes) / SlowWindow as real < c
  {
    var fast := Tail(closes, FastWindow);
    assert forall i :: 0 <= i < |fast| ==> fast[i] == c;
    MeanOfConstant(fast, c);
    DilutedBelow(closes, c);
  }

  /** Fewer than 21 closes at a positive price `c` sum to less than `21 * c`. */
  lemma DilutedBelow(closes: seq<real>, c: real)
    requires |closes| < SlowWindow && c > 0.0
    requires forall i :: 0 <= i < |closes| ==> closes[i] == c
    ensures Sum(closes) / SlowWindow as real < c
  {
    SumOfConstant(closes, c);
    DilutionBound(Sum(closes), |closes| as real, c);
  }

  lemma DilutionBound(total: real, n: real, c: real)
    requires total == n * c && n < 21.0 && c > 0.0
    ensures total / 21.0 < c
  {
    assert n * c < 21.0 * c;
  }

  // ---------------------------------------------------------------------------
  // Strategy 2

  /** When the last 20 bars all traded the same non-negative volume there is no
      spike, so strategy 2 does not fire. */
  lemma SteadyVolumeNoSpike(closes: seq<real>, highs: seq<real>, lows: seq<real>, volumes: seq<real>, q: real)
    requires |closes| == |highs| == |lows| == |volumes| > 0
    requires q >= 0.0
    requires forall i :: 0 <= i < |Tail(volumes, VwapWindow)| ==> Tail(volumes, VwapWindow)[i] == q
    ensures !VwapVolume(closes, highs, lows, volumes)
  {
    var t := Tail(volumes, VwapWindow);
    MeanOfConstant(t, q);
    assert Last(volumes) == t[|t| - 1];
  }

  /** The spike test compares the last volume with the mean of a window that
      includes it. It holds exactly when the last volume, weighted by the window
      size less 1.5, exceeds 1.5 times the volume of the window's other bars. */
  lemma VolumeSpikeIff(volumes: seq<real>)
    requires |volumes| > 0
    ensures var w := Tail(volumes, VwapWindow);
      Last(volumes) > Mean(w) * SpikeFactor <==>
      Last(volumes) * (|w| as real - SpikeFactor) > SpikeFactor * Sum(w[..|w| - 1])
  {
    var w := Tail(volumes, VwapWindow);
    assert Last(volumes) == w[|w| - 1];
    SpikeOfWindow(w);
  }

  /** VolumeSpikeIff for the window itself, whose last entry is the last volume. */
  lemma SpikeOfWindow(w: seq<real>)
    requires |w| > 0
    ensures w[|w| - 1] > Mean(w) * SpikeFactor <==>
      w[|w| - 1] * (|w| as real - SpikeFactor) > SpikeFactor * Sum(w[..|w| - 1])
  {
    var others, x := w[..|w| - 1], w[|w| - 1];
    assert w == others + [x];
    SumAppend(others, x);
    SpikeAlgebra(x, Sum(w), Sum(others), |w| as real, Mean(w));
  }

  /** The real-number core of VolumeSpikeIff. */
  lemma SpikeAlgebra(x: real, total: real, others: real, n: real, m: real)
    requires n > 0.0 && m * n == total && total == others + x
    ensures x > m * 1.5 <==> x * (n - 1.5) > 1.5 * others
  {
    assert x * n - m * 1.5 * n == (x - m * 1.5) * n;
  }

  /** A single candle with non-negative volume is its own volume window, and it
      never counts as a spike, so strategy 2 does not fire on it. */
  lemma SingleCandleNoSpike(closes: seq<real>, highs: seq<real>, lows: seq<real>, volumes: seq<real>)
    requires |closes| == |highs| == |lows| == |volumes| == 1
    requires volumes[0] >= 0.0
    ensures !VwapVolume(closes, highs, lows, volumes)
  {
    VolumeSpikeIff(volumes);
    assert Tail(volumes, VwapWindow)[..0] == [];
  }

  /** The typical price of a well-formed bar lies between its low and its high. */
  lemma TypicalWithinBar(highs: seq<real>, lows: seq<real>, closes: seq<real>, i: nat)
    requires |highs| == |lows| == |closes| && i < |closes|
    requires lows[i] <= closes[i] <= highs[i]
    ensures lows[i] <= TypicalPrices(highs, lows, closes)[i] <= highs[i]
  {
  }

  /** For well-formed bars with non-negative volume, a VWAP that exists lies
      between the lowest low and the highest high of those bars; it exists
      exactly when the window traded some volume. */
  lemma VwapWithinRange(candles: seq<Candle>, lo: real, hi: real)
    requires forall i :: 0 <= i < |candles| ==> candles[i].low <= candles[i].close <= candles[i].high
    requires forall i :: 0 <= i < |candles| ==> lo <= candles[i].low && candles[i].high <= hi
    requires forall i :: 0 <= i < |candles| ==> candles[i].volume >= 0.0
    ensures Vwap(TypicalPrices(Highs(candles), Lows(candles), Closes(candles)), Volumes(candles), VwapWindow).Some?
            <==> Sum(Tail(Volumes(candles), VwapWindow)) > 0.0
    ensures Vwap(TypicalPrices(Highs(candles), Lows(candles), Closes(candles)), Volumes(candles), VwapWindow).Some? ==>
            lo <= Vwap(TypicalPrices(Highs(candles), Lows(candles), Closes(candles)), Volumes(candles), VwapWindow).value <= hi
  {
    var highs, lows, closes, volumes := Highs(candles), Lows(candles), Closes(candles), Volumes(candles);
    var typical := TypicalPrices(highs, lows, closes);
    var t := Tail(typical, VwapWindow);
    forall i | 0 <= i < |t|
      ensures lo <= t[i] <= hi
    {
      var j := |typical| - |t| + i;
      TypicalWithinBar(highs, lows, closes, j);
    }
    var w := Tail(volumes, VwapWindow);
    SumAtLeast(w, 0.0);
    if Sum(w) > 0.0 {
      VwapBounds(typical, volumes, VwapWindow, lo, hi);
    }
  }

  // ---------------------------------------------------------------------------
  // Strategy 3

  /** For a bar closing at or above its low, the wick test is the upper distance
      exceeding 1.5 times the lower distance plus `1e-6`. */
  lemma WickAboveMeaning(high: real, low: real, close: real)
    requires low <= close
    ensures WickAbove(high, low, close) <==>
      Abs(high - close) > WickThreshold * WickDenominator(low, close)
  {
    WickAboveIff(high, low, close, WickThreshold);
  }

  /** A bar that closes at its high never passes the wick test. */
  lemma ClosedAtHighNoWick(high: real, low: real, rsi: real)
    requires low <= high
    ensures !WickMomentum(high, low, high, rsi)
  {
    WickClosedAtHigh(high, low);
  }

  // ---------------------------------------------------------------------------
  // Decisions

  /** Strategies 1 and 3 together leave only the band between 70 and 80 for the
      RSI. */
  lemma TrendAndWickBand(candles: seq<Candle>)
    ensures AnalyzeStrategies(candles).Some? &&
            AnalyzeStrategies(candles).value.verdicts.trendMomentum &&
            AnalyzeStrategies(candles).value.verdicts.wickMomentum ==>
            Overbought < LastRsi(Closes(candles)) < WickRsiHigh
  {
  }

  /** Every signal sent is LONG at confidence 9.9, entered at the last close,
      and needs the final RSI strictly between 70 and 80. */
  lemma SignalShape(candles: seq<Candle>)
    ensures Decide(candles).Sent? ==> |candles| > 0
    ensures Decide(candles).Sent? ==> Decide(candles).signal.direction == Long
    ensures Decide(candles).Sent? ==> Decide(candles).signal.confidenceTenths == 99
    ensures Decide(candles).Sent? ==> Overbought < LastRsi(Closes(candles)) < WickRsiHigh
  {
    TrendAndWickBand(candles);
  }

  /** A market whose closes never fall sends no signal: its RSI is 0, outside the
      band strategy 3 demands. */
  lemma NeverFallingMarketSilent(candles: seq<Candle>)
    requires |candles| > 0
    requires forall j, k :: 0 <= j < k < |candles| ==> candles[j].close <= candles[k].close
    ensures Decide(candles) == Silent
  {
    NeverFallingLastRsi(Closes(candles));
  }

  /** A strictly rising market of at least 21 candles that traded the same
      non-negative volume on each of its last 20 bars: strategy 1 fires (RSI 0,
      fast above slow), strategy 2 does not (no spike), strategy 3 does not (RSI
      0); the confidence is 3.3 and nothing is sent. */
  lemma RisingSteadyMarket(candles: seq<Candle>, q: real)
    requires |candles| >= SlowWindow
    requires forall j, k :: 0 <= j < k < |candles| ==> candles[j].close < candles[k].close
    requires q >= 0.0
    requires forall i :: 0 <= i < |Tail(Volumes(candles), VwapWindow)| ==> Tail(Volumes(candles), VwapWindow)[i] == q
    ensures AnalyzeStrategies(candles).Some?
    ensures AnalyzeStrategies(candles).value.verdicts == Verdicts(true, false, false)
    ensures ConfidenceTenths(AnalyzeStrategies(candles).value.verdicts) == 33
    ensures Decide(candles) == Silent
  {
    var closes := Closes(candles);
    RisingMarketTrend(closes);
    SteadyVolumeNoSpike(closes, Highs(candles), Lows(candles), Volumes(candles), q);
    NeverFallingLastRsi(closes);
  }
}
