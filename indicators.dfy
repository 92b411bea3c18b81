/** The indicators `analyze_strategies` computes from a candle series besides the
    RSI: the moving averages (numpy's valid-mode convolution with a uniform
    kernel), the volume-weighted average price over the last bars, and the wick
    ratio of the last bar. */
module Indicators {
  import opened Wrappers
  import opened Series

  /** `v[::-1]`. */
  function Reverse(s: seq<real>): (r: seq<real>)
    ensures |r| == |s|
    ensures forall i :: 0 <= i < |s| ==> r[i] == s[|s| - 1 - i]
  {
    seq(|s|, i requires 0 <= i < |s| => s[|s| - 1 - i])
  }

  /** The dot product `(a * b).sum()` of two series of equal length. */
  function Dot(a: seq<real>, b: seq<real>): real
    requires |a| == |b|
  {
    Sum(Product(a, b))
  }

  /** Valid-mode correlation: the kernel `k` slid over every full window of `a`. */
  function Slide(a: seq<real>, k: seq<real>): (r: seq<real>)
    requires 0 < |k| <= |a|
    ensures |r| == |a| - |k| + 1
  {
    seq(|a| - |k| + 1, i requires 0 <= i <= |a| - |k| => Dot(a[i..i + |k|], k))
  }

  /** `np.convolve(a, v, mode='valid')`. numpy swaps the operands when `v` is the
      longer one and raises `ValueError` when either is empty (`None` here). The
      result has one entry per position of the shorter operand inside the longer. */
  function Convolve(a: seq<real>, v: seq<real>): (r: Option<seq<real>>)
    ensures r.None? <==> |a| == 0 || |v| == 0
    ensures r.Some? ==> |r.value| == if |v| <= |a| then |a| - |v| + 1 else |v| - |a| + 1
  {
    if |a| == 0 || |v| == 0 then None
    else if |v| <= |a| then Some(Slide(a, Reverse(v)))
    else Some(Slide(v, Reverse(a)))
  }

  /** `np.ones(w) / w`. */
  function Uniform(w: nat): (k: seq<real>)
    ensures |k| == w
  {
    seq(w, i requires 0 <= i < w => 1.0 / w as real)
  }

  /** `np.convolve(series, np.ones(w)/w, mode='valid')`, the source's "EMA". */
  function MovingAverage(series: seq<real>, w: nat): (r: Option<seq<real>>)
    ensures r.None? <==> |series| == 0 || w == 0
    ensures r.Some? ==> |r.value| == if w <= |series| then |series| - w + 1 else w - |series| + 1
  {
    Convolve(series, Uniform(w))
  }

  /** Reversing does not change a sum. */
  lemma {:induction false} SumReverse(s: seq<real>)
    ensures Sum(Reverse(s)) == Sum(s)
  {
    if |s| > 0 {
      SumReverse(s[1..]);
      assert Reverse(s) == Reverse(s[1..]) + [s[0]];
      SumConcat(Reverse(s[1..]), [s[0]]);
    }
  }

  /** Weighting by a constant `q` scales the sum by `q`. */
  lemma DotConstant(t: seq<real>, v: seq<real>, q: real)
    requires |t| == |v|
    requires forall i :: 0 <= i < |v| ==> v[i] == q
    ensures Dot(t, v) == Sum(t) * q
  {
    var p := Product(t, v);
    forall i | 0 <= i < |t|
      ensures p[i] == t[i] * q
    {
      assert p[i] == t[i] * v[i];
      assert v[i] == q;
    }
    SumScaled(t, p, q);
  }

  /** The same with the constant weights on the left. */
  lemma ConstantDot(v: seq<real>, t: seq<real>, q: real)
    requires |t| == |v|
    requires forall i :: 0 <= i < |v| ==> v[i] == q
    ensures Dot(v, t) == Sum(t) * q
  {
    DotCommutes(v, t);
    DotConstant(t, v, q);
  }

  lemma DotCommutes(a: seq<real>, b: seq<real>)
    requires |a| == |b|
    ensures Dot(a, b) == Dot(b, a)
  {
    var p, q := Product(a, b), Product(b, a);
    forall i | 0 <= i < |p|
      ensures p[i] == q[i]
    {
      assert p[i] == a[i] * b[i];
    }
    assert p == q;
  }

  /** Dividing by `d` is scaling by `1 / d`. */
  lemma QuotientAsScale(a: real, d: real, c: real)
    requires d != 0.0 && c == 1.0 / d
    ensures a / d == a * c
  {
  }

  /** The mean is the sum scaled by one over the length. */
  lemma MeanAsScale(s: seq<real>, c: real)
    requires |s| > 0 && c == 1.0 / |s| as real
    ensures Mean(s) == Sum(s) * c
  {
    QuotientAsScale(Sum(s), |s| as real, c);
  }

  /** The means of every full window of `w` consecutive values, in order: what a
      moving average means. */
  function WindowMeans(series: seq<real>, w: nat): (r: seq<real>)
    requires 0 < w <= |series|
    ensures |r| == |series| - w + 1
  {
    seq(|series| - w + 1, i requires 0 <= i <= |series| - w => Mean(series[i..i + w]))
  }

  /** With at least `w` values, the moving average is the sequence of window
      means. */
  lemma MovingAverageWindows(series: seq<real>, w: nat)
    requires 0 < w <= |series|
    ensures MovingAverage(series, w) == Some(WindowMeans(series, w))
  {
    var k := Reverse(Uniform(w));
    var r := Slide(series, k);
    assert MovingAverage(series, w) == Some(r);
    var c := 1.0 / w as real;
    forall i | 0 <= i <= |series| - w
      ensures r[i] == WindowMeans(series, w)[i]
    {
      var window := series[i..i + w];
      DotConstant(window, k, c);
      MeanAsScale(window, c);
    }
    assert r == WindowMeans(series, w);
  }

  /** With fewer values than the window, numpy swaps the operands: there are
      `w - n + 1` entries, every one the sum of the whole series divided by `w`
      (not by `n`). */
  lemma MovingAverageShort(series: seq<real>, w: nat)
    requires 0 < |series| < w
    ensures MovingAverage(series, w).Some?
    ensures |MovingAverage(series, w).value| == w - |series| + 1
    ensures forall i :: 0 <= i <= w - |series| ==>
      MovingAverage(series, w).value[i] == Sum(series) / w as real
  {
    var n := |series|;
    var k := Reverse(series);
    var r := Slide(Uniform(w), k);
    assert MovingAverage(series, w) == Some(r);
    var c := 1.0 / w as real;
    SumReverse(series);
    QuotientAsScale(Sum(series), w as real, c);
    forall i | 0 <= i <= w - n
      ensures r[i] == Sum(series) / w as real
    {
      ConstantDot(Uniform(w)[i..i + n], k, c);
    }
  }

  /** The last entry (`ema[-1]`): the mean of the last `w` values, or, with fewer
      than `w` values, their sum over `w`. */
  lemma MovingAverageLast(series: seq<real>, w: nat)
    requires |series| > 0 && w > 0
    ensures MovingAverage(series, w).Some? && |MovingAverage(series, w).value| > 0
    ensures Last(MovingAverage(series, w).value) ==
      if w <= |series| then Mean(Tail(series, w)) else Sum(series) / w as real
  {
    if w <= |series| {
      MovingAverageWindows(series, w);
      var m := WindowMeans(series, w);
      assert Last(m) == Mean(series[|series| - w..|series| - w + w]);
      assert series[|series| - w..|series| - w + w] == Tail(series, w);
    } else {
      MovingAverageShort(series, w);
    }
  }

  /** A constant series averages to that constant in every window. */
  lemma WindowMeansConstant(series: seq<real>, w: nat, c: real)
    requires 0 < w <= |series|
    requires forall i :: 0 <= i < |series| ==> series[i] == c
    ensures forall i :: 0 <= i < |WindowMeans(series, w)| ==> WindowMeans(series, w)[i] == c
  {
    forall i | 0 <= i < |WindowMeans(series, w)|
      ensures WindowMeans(series, w)[i] == c
    {
      MeanOfConstant(series[i..i + w], c);
    }
  }

  /** Bounds on the values carry over to every window mean. */
  lemma WindowMeansBounds(series: seq<real>, w: nat, lo: real, hi: real)
    requires 0 < w <= |series|
    requires forall i :: 0 <= i < |series| ==> lo <= series[i] <= hi
    ensures forall i :: 0 <= i < |WindowMeans(series, w)| ==> lo <= WindowMeans(series, w)[i] <= hi
  {
    forall i | 0 <= i < |WindowMeans(series, w)|
      ensures lo <= WindowMeans(series, w)[i] <= hi
    {
      MeanBounds(series[i..i + w], lo, hi);
    }
  }

  /** `(highs + lows + closes) / 3`, bar by bar. */
  function TypicalPrices(highs: seq<real>, lows: seq<real>, closes: seq<real>): (t: seq<real>)
    requires |highs| == |lows| == |closes|
    ensures |t| == |closes|
  {
    seq(|closes|, i requires 0 <= i < |closes| => (highs[i] + lows[i] + closes[i]) / 3.0)
  }

  /** The mean of `t` weighted by `v`: the weighted sum over the total weight, or
      `None` when the weights sum to zero. */
  function WeightedMean(t: seq<real>, v: seq<real>): (r: Option<real>)
    requires |t| == |v|
    ensures r.None? <==> Sum(v) == 0.0
  {
    if Sum(v) == 0.0 then None else Some(Dot(t, v) / Sum(v))
  }

  /** `(typical[-k:] * volumes[-k:]).sum() / volumes[-k:].sum()`. A zero volume
      sum makes numpy produce NaN (or an infinity) instead of a price; that case is
      `None`. */
  function Vwap(typical: seq<real>, volumes: seq<real>, k: nat): (r: Option<real>)
    requires |typical| == |volumes|
    requires k > 0
    ensures r.None? <==> Sum(Tail(volumes, k)) == 0.0
  {
    WeightedMean(Tail(typical, k), Tail(volumes, k))
  }

  /** Weighting by non-negative volumes keeps the weighted sum between the
      smallest and the largest price times the total volume. */
  lemma WeightedSumBounds(t: seq<real>, v: seq<real>, lo: real, hi: real)
    requires |t| == |v|
    requires forall i :: 0 <= i < |t| ==> lo <= t[i] <= hi
    requires forall i :: 0 <= i < |v| ==> v[i] >= 0.0
    ensures lo * Sum(v) <= Dot(t, v) <= hi * Sum(v)
  {
    WeightedSumAbove(t, v, lo);
    WeightedSumBelow(t, v, hi);
  }

  /** The lower half of WeightedSumBounds, by induction on the series. */
  lemma {:induction false} WeightedSumAbove(t: seq<real>, v: seq<real>, lo: real)
    requires |t| == |v|
    requires forall i :: 0 <= i < |t| ==> lo <= t[i]
    requires forall i :: 0 <= i < |v| ==> v[i] >= 0.0
    ensures lo * Sum(v) <= Dot(t, v)
  {
    if |t| > 0 {
      WeightedSumAbove(t[1..], v[1..], lo);
      DotDropFirst(t, v);
      StepAbove(lo, t[0], v[0], Dot(t[1..], v[1..]), Sum(v[1..]), Dot(t, v), Sum(v));
    } else {
      assert Dot(t, v) == 0.0 && Sum(v) == 0.0;
    }
  }

  /** The upper half of WeightedSumBounds, by induction on the series. */
  lemma {:induction false} WeightedSumBelow(t: seq<real>, v: seq<real>, hi: real)
    requires |t| == |v|
    requires forall i :: 0 <= i < |t| ==> t[i] <= hi
    requires forall i :: 0 <= i < |v| ==> v[i] >= 0.0
    ensures Dot(t, v) <= hi * Sum(v)
  {
    if |t| > 0 {
      WeightedSumBelow(t[1..], v[1..], hi);
      DotDropFirst(t, v);
      StepBelow(hi, t[0], v[0], Dot(t[1..], v[1..]), Sum(v[1..]), Dot(t, v), Sum(v));
    } else {
      assert Dot(t, v) == 0.0 && Sum(v) == 0.0;
    }
  }

  /** The inductive step of WeightedSumAbove on plain numbers: a price `p` of at
      least `lo`, weighted by a non-negative volume `w`, added to a weighted sum `d`
      of at least `lo` times its volume `s`, keeps the whole at least `lo` times the
      total volume. */
  lemma StepAbove(lo: real, p: real, w: real, d: real, s: real, whole: real, total: real)
    requires lo <= p && w >= 0.0
    requires lo * s <= d
    requires whole == p * w + d && total == w + s
    ensures lo * total <= whole
  {
    assert (p - lo) * w >= 0.0;
  }

  /** The inductive step of WeightedSumBelow on plain numbers. */
  lemma StepBelow(hi: real, p: real, w: real, d: real, s: real, whole: real, total: real)
    requires p <= hi && w >= 0.0
    requires d <= hi * s
    requires whole == p * w + d && total == w + s
    ensures whole <= hi * total
  {
    assert (hi - p) * w >= 0.0;
  }

  /** The dot product is the first weighted entry plus the dot product of the rest. */
  lemma DotDropFirst(a: seq<real>, b: seq<real>)
    requires |a| == |b| > 0
    ensures Dot(a, b) == a[0] * b[0] + Dot(a[1..], b[1..])
  {
    ProductDropFirst(a, b);
  }

  lemma ProductDropFirst(a: seq<real>, b: seq<real>)
    requires |a| == |b| > 0
    ensures Product(a, b)[1..] == Product(a[1..], b[1..])
  {
    var p, q := Product(a, b)[1..], Product(a[1..], b[1..]);
    forall i | 0 <= i < |q|
      ensures p[i] == q[i]
    {
      assert p[i] == a[i + 1] * b[i + 1];
    }
  }

  /** A ratio whose numerator lies between `lo` and `hi` times a positive
      denominator lies between `lo` and `hi`. */
  lemma RatioBetween(num: real, den: real, lo: real, hi: real)
    requires den > 0.0
    requires lo * den <= num <= hi * den
    ensures lo <= num / den <= hi
  {
    var q := num / den;
    assert q * den == num;
    assert (q - lo) * den >= 0.0;
    assert (hi - q) * den >= 0.0;
  }

  /** With non-negative weights of positive total, the weighted mean lies between
      the least and the greatest value. */
  lemma WeightedMeanBounds(t: seq<real>, v: seq<real>, lo: real, hi: real)
    requires |t| == |v|
    requires forall i :: 0 <= i < |t| ==> lo <= t[i] <= hi
    requires forall i :: 0 <= i < |v| ==> v[i] >= 0.0
    requires Sum(v) > 0.0
    ensures WeightedMean(t, v).Some?
    ensures lo <= WeightedMean(t, v).value <= hi
  {
    WeightedSumBounds(t, v, lo, hi);
    RatioBetween(Dot(t, v), Sum(v), lo, hi);
  }

  /** With non-negative volumes of positive total, the VWAP lies between the
      least and the greatest typical price of the window. */
  lemma VwapBounds(typical: seq<real>, volumes: seq<real>, k: nat, lo: real, hi: real)
    requires |typical| == |volumes| && k > 0
    requires forall i :: 0 <= i < |Tail(typical, k)| ==> lo <= Tail(typical, k)[i] <= hi
    requires forall i :: 0 <= i < |Tail(volumes, k)| ==> Tail(volumes, k)[i] >= 0.0
    requires Sum(Tail(volumes, k)) > 0.0
    ensures Vwap(typical, volumes, k).Some?
    ensures lo <= Vwap(typical, volumes, k).value <= hi
  {
    WeightedMeanBounds(Tail(typical, k), Tail(volumes, k), lo, hi);
  }

  lemma CancelFactor(num: real, den: real, a: real, n: real, q: real)
    requires n != 0.0 && q != 0.0
    requires num == a * q && den == n * q
    ensures num / den == a / n
  {
  }

  /** Equal non-zero weights make the weighted mean the plain mean. */
  lemma WeightedMeanEqualWeights(t: seq<real>, v: seq<real>, q: real)
    requires |t| == |v| > 0
    requires q != 0.0
    requires forall i :: 0 <= i < |v| ==> v[i] == q
    ensures WeightedMean(t, v) == Some(Mean(t))
  {
    SumOfConstant(v, q);
    DotConstant(t, v, q);
    CancelFactor(Dot(t, v), Sum(v), Sum(t), |t| as real, q);
  }

  /** When every bar of the window traded the same non-zero volume, the VWAP is
      the plain mean of the typical prices. */
  lemma VwapEqualVolumes(typical: seq<real>, volumes: seq<real>, k: nat, q: real)
    requires |typical| == |volumes| && |typical| > 0 && k > 0
    requires q != 0.0
    requires forall i :: 0 <= i < |Tail(volumes, k)| ==> Tail(volumes, k)[i] == q
    ensures Vwap(typical, volumes, k) == Some(Mean(Tail(typical, k)))
  {
    WeightedMeanEqualWeights(Tail(typical, k), Tail(volumes, k), q);
  }

  /** The `1e-6` added to the wick ratio's denominator. */
  const WickEpsilon: real := 0.000001

  /** `(close - low) + 1e-6`: at least `1e-6` whenever the bar closes at or above
      its low, so then never zero. */
  function WickDenominator(low: real, close: real): (d: real)
    ensures low <= close ==> d >= WickEpsilon
  {
    (close - low) + WickEpsilon
  }

  function Abs(x: real): real { if x < 0.0 then -x else x }

  /** `abs(high - close) / ((close - low) + 1e-6)`: the distance from the close up to
      the high against the distance down to the low. A zero denominator, possible
      only for a close exactly `1e-6` below the low, gives numpy an infinity or NaN
      instead of a number; that case is `None`. */
  function WickRatio(high: real, low: real, close: real): (r: Option<real>)
    ensures r.None? <==> WickDenominator(low, close) == 0.0
    ensures low <= close ==> r.Some? && r.value >= 0.0
  {
    var d := WickDenominator(low, close);
    if d == 0.0 then None else Some(Abs(high - close) / d)
  }

  /** For a bar that closes at or above its low, the ratio exceeds a threshold `t`
      exactly when the upper distance exceeds `t` times the denominator. */
  lemma WickAboveIff(high: real, low: real, close: real, t: real)
    requires low <= close
    ensures WickRatio(high, low, close).value > t <==>
      Abs(high - close) > t * WickDenominator(low, close)
  {
    var d := WickDenominator(low, close);
    var w := Abs(high - close) / d;
    assert w * d == Abs(high - close);
    if w > t {
      assert w * d > t * d;
    } else {
      assert w * d <= t * d;
    }
  }

  /** A bar that closes at its high has ratio 0. */
  lemma WickClosedAtHigh(high: real, low: real)
    requires low <= high
    ensures WickRatio(high, low, high) == Some(0.0)
  {
  }
}
