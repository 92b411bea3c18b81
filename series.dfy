/** Arithmetic over price and volume series, shared by the indicators. */
module Series {

  function Min(a: int, b: int): int { if a <= b then a else b }

  /** `s.sum()`: the sum of all entries. */
  function Sum(s: seq<real>): (r: real)
  {
    if |s| == 0 then 0.0 else s[0] + Sum(s[1..])
  }

  /** `s.mean()` of a non-empty series: the value that, taken `|s|` times, gives
      back the sum. */
  function Mean(s: seq<real>): (m: real)
    requires |s| > 0
    ensures m * |s| as real == Sum(s)
  {
    Sum(s) / |s| as real
  }

  /** Python's `s[-k:]` for a positive `k`: the last `k` entries, or all of `s`
      when it is shorter. (At `k = 0` Python's slice is all of `s`; no caller
      uses that case.) */
  function Tail<T>(s: seq<T>, k: nat): (r: seq<T>)
    requires k > 0
    ensures |r| == Min(k, |s|)
    ensures forall i :: 0 <= i < |r| ==> r[i] == s[|s| - |r| + i]
  {
    if k <= |s| then s[|s| - k..] else s
  }

  /** The last entry, Python's `s[-1]`. */
  function Last<T>(s: seq<T>): T
    requires |s| > 0
  {
    s[|s| - 1]
  }

  /** Entry-wise product of two series of equal length (numpy's `a * b`). */
  function Product(a: seq<real>, b: seq<real>): (r: seq<real>)
    requires |a| == |b|
    ensures |r| == |a|
    ensures forall i :: 0 <= i < |r| ==> r[i] == a[i] * b[i]
  {
    seq(|a|, i requires 0 <= i < |a| => a[i] * b[i])
  }

  /** Moving one element from the front of the rest of a sequence to the end of
      its prefix leaves the whole unchanged. */
  lemma Reassociate<T>(prefix: seq<T>, x: T, tail: seq<T>, rest: seq<T>, whole: seq<T>)
    requires prefix + rest == whole
    requires rest == [x] + tail
    ensures (prefix + [x]) + tail == whole
  {
    assert (prefix + [x]) + tail == prefix + ([x] + tail);
  }

  /** A suffix is its first element followed by the rest. */
  lemma DropFirst<T>(s: seq<T>, i: nat)
    requires i < |s|
    ensures s[i..] == [s[i]] + s[i + 1..]
  {
  }

  lemma {:induction false} SumConcat(a: seq<real>, b: seq<real>)
    ensures Sum(a + b) == Sum(a) + Sum(b)
  {
    if |a| == 0 {
      assert a + b == b;
    } else {
      assert (a + b)[1..] == a[1..] + b;
      SumConcat(a[1..], b);
    }
  }

  /** Appending one entry adds it to the sum. */
  lemma SumAppend(s: seq<real>, x: real)
    ensures Sum(s + [x]) == Sum(s) + x
  {
    SumConcat(s, [x]);
    assert [x][1..] == [];
  }

  /** A series whose entries all equal `c` sums to `|s| * c`. */
  lemma {:induction false} SumOfConstant(s: seq<real>, c: real)
    requires forall i :: 0 <= i < |s| ==> s[i] == c
    ensures Sum(s) == |s| as real * c
  {
    if |s| > 0 {
      SumOfConstant(s[1..], c);
    }
  }

  /** The mean of a constant series is that constant. */
  lemma MeanOfConstant(s: seq<real>, c: real)
    requires |s| > 0
    requires forall i :: 0 <= i < |s| ==> s[i] == c
    ensures Mean(s) == c
  {
    SumOfConstant(s, c);
  }

  /** Scaling every entry scales the sum. */
  lemma {:induction false} SumScaled(s: seq<real>, w: seq<real>, c: real)
    requires |w| == |s|
    requires forall i :: 0 <= i < |s| ==> w[i] == s[i] * c
    ensures Sum(w) == Sum(s) * c
  {
    if |s| > 0 {
      SumScaled(s[1..], w[1..], c);
    }
  }

  /** Entry-wise bounds carry over to the sum. */
  lemma {:induction false} SumBounds(s: seq<real>, lo: real, hi: real)
    requires forall i :: 0 <= i < |s| ==> lo <= s[i] <= hi
    ensures |s| as real * lo <= Sum(s) <= |s| as real * hi
  {
    if |s| > 0 {
      SumBounds(s[1..], lo, hi);
    }
  }

  /** Lower bound alone: every entry at least `m` keeps the sum at least `|s| * m`. */
  lemma {:induction false} SumAtLeast(s: seq<real>, m: real)
    requires forall i :: 0 <= i < |s| ==> m <= s[i]
    ensures |s| as real * m <= Sum(s)
  {
    if |s| > 0 {
      SumAtLeast(s[1..], m);
    }
  }

  /** Strict upper bound: every entry below `m` keeps a non-empty sum below `|s| * m`. */
  lemma {:induction false} SumBelow(s: seq<real>, m: real)
    requires |s| > 0
    requires forall i :: 0 <= i < |s| ==> s[i] < m
    ensures Sum(s) < |s| as real * m
  {
    if |s| > 1 {
      SumBelow(s[1..], m);
    }
  }

  /** The mean lies between the least and the greatest bound of the entries. */
  lemma MeanBounds(s: seq<real>, lo: real, hi: real)
    requires |s| > 0
    requires forall i :: 0 <= i < |s| ==> lo <= s[i] <= hi
    ensures lo <= Mean(s) <= hi
  {
    SumBounds(s, lo, hi);
    var n := |s| as real;
    assert Mean(s) - lo == (Sum(s) - n * lo) / n;
    assert hi - Mean(s) == (n * hi - Sum(s)) / n;
  }

  /** Prepending entries that all lie below every entry of `b` pulls the mean down:
      the mean of `a + b` is strictly below the mean of `b`. */
  lemma MeanDroppedByLowerPrefix(a: seq<real>, b: seq<real>, m: real)
    requires |a| > 0 && |b| > 0
    requires forall i :: 0 <= i < |a| ==> a[i] < m
    requires forall j :: 0 <= j < |b| ==> m <= b[j]
    ensures Mean(a + b) < Mean(b)
  {
    SumConcat(a, b);
    SumBelow(a, m);
    SumAtLeast(b, m);
    assert |a + b| == |a| + |b|;
    WeightedMeanBelow(Sum(a), Sum(b), |a| as real, |b| as real, m);
  }

  /** The real-number core of MeanDroppedByLowerPrefix. */
  lemma WeightedMeanBelow(sa: real, sb: real, na: real, nb: real, m: real)
    requires na > 0.0 && nb > 0.0
    requires sa < na * m && nb * m <= sb
    ensures (sa + sb) / (na + nb) < sb / nb
  {
    var mb := sb / nb;
    assert sb == nb * mb;
    assert nb * m <= nb * mb;
    assert m <= mb;
    assert na * m <= na * mb;
    assert sa + sb < (na + nb) * mb;
  }
}
