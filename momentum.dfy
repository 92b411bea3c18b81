/** Wilder's relative strength index as `compute_rsi` computes it, over exact reals.
    The functions below are the specification; `ComputeRsi` is the loop the source
    runs, proved equal to it. */
module Momentum {
  import opened Series

  /** `compute_rsi`'s `period`: the program only ever uses the default, 14. The
      arithmetic below writes it as the real `14.0`, and `period - 1` as `13.0`. */
  const Period: nat := 14

  /** Wilder's running averages: `up` (average gain) and `down` (average loss). */
  datatype Averages = Averages(up: real, down: real)

  /** `np.diff(values)`: the change from each value to the next. */
  function Deltas(values: seq<real>): (d: seq<real>)
    ensures |d| == if |values| == 0 then 0 else |values| - 1
    ensures forall i :: 0 <= i < |d| ==> d[i] == values[i + 1] - values[i]
  {
    if |values| == 0 then []
    else seq(|values| - 1, i requires 0 <= i < |values| - 1 => values[i + 1] - values[i])
  }

  /** `max(delta, 0)`: the gain in one step. Gain minus loss gives the step back. */
  function Gain(delta: real): (g: real)
    ensures g >= 0.0
    ensures g - Loss(delta) == delta
  {
    if delta >= 0.0 then delta else 0.0
  }

  /** `-min(delta, 0)`: the loss in one step, as a magnitude. */
  function Loss(delta: real): (l: real)
    ensures l >= 0.0
    ensures l == 0.0 <==> delta >= 0.0
  {
    if delta < 0.0 then -delta else 0.0
  }

  /** `s[s >= 0].sum()`: the total of the non-negative deltas. */
  function SumGains(s: seq<real>): (r: real)
    ensures r >= 0.0
  {
    if |s| == 0 then 0.0 else Gain(s[0]) + SumGains(s[1..])
  }

  /** `-s[s < 0].sum()`: the total magnitude of the negative deltas. */
  function SumLosses(s: seq<real>): (r: real)
    ensures r >= 0.0
  {
    if |s| == 0 then 0.0 else Loss(s[0]) + SumLosses(s[1..])
  }

  /** The loss total is zero exactly when no delta is negative. */
  lemma {:induction false} NoLossesIff(s: seq<real>)
    ensures SumLosses(s) == 0.0 <==> forall i :: 0 <= i < |s| ==> s[i] >= 0.0
  {
    if |s| > 0 {
      NoLossesIff(s[1..]);
      assert forall i :: 1 <= i < |s| ==> s[i] == s[1..][i - 1];
    }
  }

  /** A window whose every delta is `g` has gain total `|s| * Gain(g)`. */
  lemma {:induction false} SumGainsOfConstant(s: seq<real>, g: real)
    requires forall i :: 0 <= i < |s| ==> s[i] == g
    ensures SumGains(s) == |s| as real * Gain(g)
  {
    if |s| > 0 {
      SumGainsOfConstant(s[1..], g);
    }
  }

  /** `deltas[:period+1]`: the seed takes `Period + 1` deltas, or all there are. */
  function SeedWindow(values: seq<real>): (w: seq<real>)
    ensures |w| == Min(Period + 1, |Deltas(values)|)
    ensures forall i :: 0 <= i < |w| ==> w[i] == Deltas(values)[i]
  {
    var d := Deltas(values);
    d[..Min(Period + 1, |d|)]
  }

  /** The seed averages: both totals over the seed window, divided by `Period`.
      Both are non-negative, and `down` is zero exactly when the window holds no loss. */
  function SeedAverages(values: seq<real>): (a: Averages)
    ensures a.up >= 0.0 && a.down >= 0.0
    ensures a.down == 0.0 <==> forall i :: 0 <= i < |SeedWindow(values)| ==> SeedWindow(values)[i] >= 0.0
  {
    var w := SeedWindow(values);
    NoLossesIff(w);
    Averages(SumGains(w) / 14.0, SumLosses(w) / 14.0)
  }

  /** The seed divides a total over `Period + 1` deltas by `Period`: on a series that
      moves by the same step `g` throughout, the seed's average gain is
      `Gain(g) * 15 / 14`, more than the gain of any single step. */
  lemma SeedOverweights(values: seq<real>, g: real)
    requires |values| >= Period + 2
    requires forall i :: 0 <= i < |values| - 1 ==> values[i + 1] - values[i] == g
    ensures SeedAverages(values).up == Gain(g) * 15.0 / 14.0
  {
    var w := SeedWindow(values);
    assert |w| == Period + 1;
    SumGainsOfConstant(w, g);
  }

  /** One smoothing step of Wilder's averages: `(prev * (period - 1) + x) / period`
      for the gain and for the loss of `delta`. Each is a weighted mean of the
      previous average and the new gain (or loss), so it lies between the two. */
  function Smooth(a: Averages, delta: real): (r: Averages)
    ensures Between(r.up, a.up, Gain(delta))
    ensures Between(r.down, a.down, Loss(delta))
  {
    WeightedStep(a.up, Gain(delta));
    WeightedStep(a.down, Loss(delta));
    Averages((a.up * 13.0 + Gain(delta)) / 14.0,
             (a.down * 13.0 + Loss(delta)) / 14.0)
  }

  /** `v` lies between `x` and `y`, in either order. */
  predicate Between(v: real, x: real, y: real)
  {
    (x <= v <= y) || (y <= v <= x)
  }

  /** `(prev * 13 + x) / 14` lies between `prev` and `x`. */
  lemma WeightedStep(prev: real, x: real)
    ensures Between((prev * 13.0 + x) / 14.0, prev, x)
  {
    var v := (prev * 13.0 + x) / 14.0;
    assert v - prev == (x - prev) / 14.0;
    assert x - v == (x - prev) * 13.0 / 14.0;
  }

  /** The averages the loop holds when it writes index `i` (`Period <= i`): `seed`
      smoothed once per index from `Period` to `i`, each time with `deltas[i-1]`.
      Non-negative seed averages stay non-negative. */
  function SmoothedFrom(seed: Averages, values: seq<real>, i: nat): (a: Averages)
    requires Period <= i < |values|
    ensures seed.up >= 0.0 && seed.down >= 0.0 ==> a.up >= 0.0 && a.down >= 0.0
    decreases i
  {
    var prev := if i == Period then seed else SmoothedFrom(seed, values, i - 1);
    Smooth(prev, Deltas(values)[i - 1])
  }

  /** `Smooth` written with plain numbers for the averages and the step's gain and loss. */
  lemma SmoothOf(a: Averages, delta: real, up: real, down: real, upval: real, downval: real)
    requires Averages(up, down) == a
    requires upval == Gain(delta) && downval == Loss(delta)
    ensures Smooth(a, delta) ==
      Averages((up * 13.0 + upval) / 14.0,
               (down * 13.0 + downval) / 14.0)
  {
  }

  /** The averages in effect at index `i`: the seed below `Period`, the smoothed
      averages from `Period` on. */
  function AveragesIn(values: seq<real>, i: nat): (a: Averages)
    requires i < |values|
    ensures a.up >= 0.0 && a.down >= 0.0
  {
    if i < Period then SeedAverages(values)
    else SmoothedFrom(SeedAverages(values), values, i)
  }

  /** `rs = up/down if down != 0 else 0`: the zero-loss guard yields 0, not infinity. */
  function RelativeStrength(a: Averages): (rs: real)
    requires a.up >= 0.0 && a.down >= 0.0
    ensures rs >= 0.0
    ensures rs == 0.0 <==> a.up == 0.0 || a.down == 0.0
  {
    if a.down != 0.0 then a.up / a.down else 0.0
  }

  /** `100 - 100/(1 + rs)`: in [0, 100), and 0 exactly when `rs` is 0. */
  function Oscillator(rs: real): (v: real)
    requires rs >= 0.0
    ensures 0.0 <= v < 100.0
    ensures v == 0.0 <==> rs == 0.0
  {
    100.0 - 100.0 / (1.0 + rs)
  }

  /** Where there are losses, the value is the textbook ratio
      `100 * up / (up + down)` of average gain to average movement. */
  lemma OscillatorRatioForm(a: Averages)
    requires a.up >= 0.0 && a.down > 0.0
    ensures Oscillator(RelativeStrength(a)) == 100.0 * a.up / (a.up + a.down)
  {
    var u, d := a.up, a.down;
    var q := u / d;
    assert q * d == u;
    var v := 100.0 - 100.0 / (1.0 + q);
    assert v * (1.0 + q) == 100.0 * q;
    assert (1.0 + q) * d == d + u;
    assert v * (u + d) == 100.0 * q * d;
    assert v * (u + d) == 100.0 * u;
  }

  /** The value written at index `i`: in [0, 100), and 0 exactly when the averages
      in effect show no gain or no loss, so a window without losses reads 0, the
      same as one without gains. */
  function RsiAt(values: seq<real>, i: nat): (v: real)
    requires i < |values|
    ensures 0.0 <= v < 100.0
    ensures v == 0.0 <==> AveragesIn(values, i).up == 0.0 || AveragesIn(values, i).down == 0.0
  {
    Oscillator(RelativeStrength(AveragesIn(values, i)))
  }

  /** The single value `rsi[:period]` is filled with: in [0, 100), and 0 exactly
      when the seed window shows no gain or no loss. */
  function SeedRsi(values: seq<real>): (v: real)
    ensures 0.0 <= v < 100.0
    ensures v == 0.0 <==> SeedAverages(values).up == 0.0 || SeedAverages(values).down == 0.0
  {
    Oscillator(RelativeStrength(SeedAverages(values)))
  }

  /** The whole series `compute_rsi(values)` returns: as long as its input, every
      entry in [0, 100), and every entry below `Period` the seed value. */
  function Rsi(values: seq<real>): (r: seq<real>)
    ensures |r| == |values|
    ensures forall i :: 0 <= i < |r| ==> 0.0 <= r[i] < 100.0
    ensures forall i :: 0 <= i < Min(Period, |r|) ==> r[i] == SeedRsi(values)
  {
    seq(|values|, i requires 0 <= i < |values| => RsiAt(values, i))
  }

  /** A seed window without a loss makes the whole seeded prefix 0. */
  lemma LossFreeSeedZeroPrefix(values: seq<real>)
    requires forall i :: 0 <= i < Min(Period + 1, |values| - 1) ==> values[i] <= values[i + 1]
    ensures forall i :: 0 <= i < Min(Period, |values|) ==> Rsi(values)[i] == 0.0
  {
    var w := SeedWindow(values);
    assert forall i :: 0 <= i < |w| ==> w[i] >= 0.0;
  }

  /** In a series that never falls, a loss-free seed stays loss-free: `down` is 0
      at every smoothed index. */
  lemma {:induction false} NoFallNoLoss(seed: Averages, values: seq<real>, i: nat)
    requires Period <= i < |values|
    requires seed.down == 0.0
    requires forall k :: 0 <= k < |Deltas(values)| ==> Deltas(values)[k] >= 0.0
    ensures SmoothedFrom(seed, values, i).down == 0.0
  {
    var prev := if i == Period then seed else SmoothedFrom(seed, values, i - 1);
    if i > Period {
      NoFallNoLoss(seed, values, i - 1);
    }
    var d := Deltas(values)[i - 1];
    assert SmoothedFrom(seed, values, i) == Smooth(prev, d);
    SmoothOf(prev, d, prev.up, 0.0, Gain(d), 0.0);
  }

  /** A series that never falls reads RSI 0 at every index, because of the
      zero-loss guard. */
  lemma NeverFallingRsiZero(values: seq<real>)
    requires forall j, k :: 0 <= j < k < |values| ==> values[j] <= values[k]
    ensures forall i :: 0 <= i < |values| ==> Rsi(values)[i] == 0.0
  {
    var seed := SeedAverages(values);
    var w := SeedWindow(values);
    assert forall k :: 0 <= k < |Deltas(values)| ==> Deltas(values)[k] >= 0.0;
    assert seed.down == 0.0;
    forall i | Period <= i < |values|
      ensures SmoothedFrom(seed, values, i).down == 0.0
    {
      NoFallNoLoss(seed, values, i);
    }
  }

  /** The entries from index `i` on, as the loop produces them from the averages
      `a` it holds on reaching `i`: smooth with `deltas[i-1]`, write the value, go on. */
  function Rest(values: seq<real>, i: nat, a: Averages): (r: seq<real>)
    requires Period <= i
    requires a.up >= 0.0 && a.down >= 0.0
    ensures |r| == if i < |values| then |values| - i else 0
    decreases |values| - i
  {
    if i >= |values| then []
    else
      var next := Smooth(a, Deltas(values)[i - 1]);
      [Oscillator(RelativeStrength(next))] + Rest(values, i + 1, next)
  }

  /** Held from `Period` on, `Rest` is exactly the tail of `Rsi` that the loop writes. */
  lemma {:induction false} RestIsSuffix(values: seq<real>, i: nat)
    requires Period <= i <= |values|
    ensures Rest(values, i, AveragesIn(values, i - 1)) == Rsi(values)[i..]
    decreases |values| - i
  {
    if i < |values| {
      var a := AveragesIn(values, i - 1);
      var next := AveragesIn(values, i);
      AveragesStep(values, i);
      assert Rest(values, i, a) == [Oscillator(RelativeStrength(next))] + Rest(values, i + 1, next);
      RestIsSuffix(values, i + 1);
      DropFirst(Rsi(values), i);
    }
  }

  /** From `Period` on, the averages in effect at `i` are those at `i - 1`
      smoothed with `deltas[i-1]`. */
  lemma AveragesStep(values: seq<real>, i: nat)
    requires Period <= i < |values|
    ensures AveragesIn(values, i) == Smooth(AveragesIn(values, i - 1), Deltas(values)[i - 1])
  {
    assert AveragesIn(values, i) == SmoothedFrom(SeedAverages(values), values, i);
  }

  /** The output splits into the seeded prefix and what the loop writes after it. */
  lemma RsiSplit(values: seq<real>)
    ensures Rsi(values) ==
      seq(Min(Period, |values|), _ => SeedRsi(values)) + Rest(values, Period, SeedAverages(values))
  {
    if Period <= |values| {
      RestIsSuffix(values, Period);
      assert Rsi(values) == Rsi(values)[..Period] + Rsi(values)[Period..];
    }
  }

  /** The seed averages the source computes give the seed value, through a
      non-negative `rs`. */
  lemma SeedValue(values: seq<real>, up: real, down: real, rs: real)
    requires Averages(up, down) == SeedAverages(values)
    requires rs == if down != 0.0 then up / down else 0.0
    ensures rs >= 0.0
    ensures SeedRsi(values) == 100.0 - 100.0 / (1.0 + rs)
  {
  }

  /** One turn of the loop, in the loop's own terms: smoothing `up` and `down` with
      `deltas[i-1]` keeps them non-negative, and the value written is the head of
      `Rest` at `i`. */
  lemma LoopStep(values: seq<real>, i: nat, up: real, down: real, upval: real, downval: real,
                 up': real, down': real, rs: real)
    requires Period <= i < |values|
    requires up >= 0.0 && down >= 0.0
    requires upval == Gain(Deltas(values)[i - 1]) && downval == Loss(Deltas(values)[i - 1])
    requires up' == (up * 13.0 + upval) / 14.0 && down' == (down * 13.0 + downval) / 14.0
    requires rs == if down' != 0.0 then up' / down' else 0.0
    ensures up' >= 0.0 && down' >= 0.0 && rs >= 0.0
    ensures Rest(values, i, Averages(up, down)) ==
      [100.0 - 100.0 / (1.0 + rs)] + Rest(values, i + 1, Averages(up', down'))
  {
    var d := Deltas(values)[i - 1];
    var a := Averages(up, down);
    var next := Averages(up', down');
    SmoothOf(a, d, up, down, upval, downval);
    assert Smooth(a, d) == next;
    assert RelativeStrength(next) == rs;
    assert Rest(values, i, a) == [Oscillator(RelativeStrength(next))] + Rest(values, i + 1, next);
  }

  /** The first half of `compute_rsi`: the seed averages over
      `deltas[:period+1]`, their `rs`, and a fresh output whose first `period`
      slots (or all of it, if shorter) hold the seed value. */
  method SeedOutput(values: seq<real>, deltas: seq<real>) returns (up: real, down: real, out: array<real>)
    requires deltas == Deltas(values)
    ensures fresh(out) && out.Length == |values|
    ensures Averages(up, down) == SeedAverages(values)
    ensures out[..Min(Period, |values|)] == seq(Min(Period, |values|), _ => SeedRsi(values))
  {
    var seed := deltas[..Min(Period + 1, |deltas|)];
    up := SumGains(seed) / 14.0;
    down := SumLosses(seed) / 14.0;
    var rs := if down != 0.0 then up / down else 0.0;
    SeedValue(values, up, down, rs);
    out := new real[|values|];
    forall k | 0 <= k < Min(Period, |values|) {
      out[k] := 100.0 - 100.0 / (1.0 + rs);
    }
  }

  /** One turn of `compute_rsi`'s loop at index `i`: smooth `up` and `down` with
      `deltas[i-1]` and compute the value to write. The new averages stay
      non-negative, and the value and the new averages are exactly the head and
      the state of `Rest` at `i`. */
  method SmoothStep(values: seq<real>, deltas: seq<real>, i: nat, up: real, down: real)
    returns (up': real, down': real, value: real)
    requires deltas == Deltas(values)
    requires Period <= i < |values|
    requires up >= 0.0 && down >= 0.0
    ensures up' >= 0.0 && down' >= 0.0
    ensures Rest(values, i, Averages(up, down)) == [value] + Rest(values, i + 1, Averages(up', down'))
  {
    var delta := deltas[i - 1];
    var upval := Gain(delta);
    var downval := Loss(delta);
    up' := (up * 13.0 + upval) / 14.0;
    down' := (down * 13.0 + downval) / 14.0;
    var rs := if down' != 0.0 then up' / down' else 0.0;
    LoopStep(values, i, up, down, upval, downval, up', down', rs);
    value := 100.0 - 100.0 / (1.0 + rs);
  }

  /** The loop of `compute_rsi`: for each index `i` from `period` on, smooth `up`
      and `down` and write `rsi[i]`. The slots below `period` are left as they were,
      and every slot from `period` on receives the value `Rest` gives it. */
  method SmoothTail(values: seq<real>, deltas: seq<real>, out: array<real>,
                    seedUp: real, seedDown: real)
    requires deltas == Deltas(values)
    requires out.Length == |values|
    requires seedUp >= 0.0 && seedDown >= 0.0
    modifies out
    ensures out[..] ==
      old(out[..Min(Period, |values|)]) + Rest(values, Period, Averages(seedUp, seedDown))
  {
    ghost var whole := out[..Min(Period, |values|)] + Rest(values, Period, Averages(seedUp, seedDown));
    var up, down := seedUp, seedDown;
    var i := Period;
    while i < |values|
      invariant Period <= i && (i <= |values| || i == Period)
      invariant up >= 0.0 && down >= 0.0
      invariant out[..Min(i, |values|)] + Rest(values, i, Averages(up, down)) == whole
    {
      ghost var (up0, down0) := (up, down);
      var value;
      up, down, value := SmoothStep(values, deltas, i, up, down);
      ghost var before := out[..i];
      out[i] := value;
      assert out[..i + 1] == before + [value];
      Reassociate(before, value, Rest(values, i + 1, Averages(up, down)),
                  Rest(values, i, Averages(up0, down0)), whole);
      i := i + 1;
    }
    assert out[..] == out[..Min(i, |values|)];
  }

  /** `compute_rsi`: seed the output, run the smoothing loop over the remaining
      indices, and return the output. */
  method ComputeRsi(values: seq<real>) returns (rsi: seq<real>)
    ensures rsi == Rsi(values)
  {
    var deltas := Deltas(values);
    var up, down, out := SeedOutput(values, deltas);
    SmoothTail(values, deltas, out, up, down);
    rsi := out[..];
    RsiSplit(values);
  }
}
