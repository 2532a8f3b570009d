/** Sums, means and the trailing simple moving average (`Series.rolling(p).mean()`). */
module Rolling {
  import opened Wrappers

  /** Sum of a sequence, accumulated from the oldest element to the newest. */
  function Sum(s: seq<real>): real
  {
    if s == [] then 0.0 else Sum(s[..|s| - 1]) + s[|s| - 1]
  }

  /** Arithmetic mean of a non-empty sequence. */
  function Mean(s: seq<real>): real
    requires s != []
  {
    Sum(s) / |s| as real
  }

  /** Every element of `s` lies in [lo, hi]. */
  predicate Within(s: seq<real>, lo: real, hi: real)
  {
    forall k :: 0 <= k < |s| ==> lo <= s[k] <= hi
  }

  /** Every element of `s` is non-negative. */
  predicate NonNegative(s: seq<real>)
  {
    forall k :: 0 <= k < |s| ==> s[k] >= 0.0
  }

  /** The trailing mean of window `p` at every position: `None` (NaN) until the window is full. */
  function RollingMean(xs: seq<real>, p: nat): (r: seq<Option<real>>)
    requires p >= 1
    ensures |r| == |xs|
    ensures NonNegative(xs) ==> forall i :: 0 <= i < |r| && r[i].Some? ==> r[i].value >= 0.0
  {
    var r := seq(|xs|, i requires 0 <= i < |xs| =>
               if i + 1 < p then None else Some(Mean(xs[i + 1 - p..i + 1])));
    assert NonNegative(xs) ==> forall i :: 0 <= i < |r| && r[i].Some? ==> r[i].value >= 0.0 by {
      if NonNegative(xs) {
        forall i | 0 <= i < |r| && r[i].Some? ensures r[i].value >= 0.0 {
          var w := xs[i + 1 - p..i + 1];
          SumNonNegative(w);
          DivNonNegative(Sum(w), |w| as real);
        }
      }
    }
    r
  }

  lemma DivNonNegative(a: real, b: real)
    requires a >= 0.0 && b > 0.0
    ensures a / b >= 0.0
  {
  }

  lemma {:induction false} SumConcat(a: seq<real>, b: seq<real>)
    ensures Sum(a + b) == Sum(a) + Sum(b)
  {
    if b == [] {
      assert a + b == a;
    } else {
      assert (a + b)[..|a + b| - 1] == a + b[..|b| - 1];
      SumConcat(a, b[..|b| - 1]);
    }
  }

  lemma {:induction false} SumNonNegative(s: seq<real>)
    requires NonNegative(s)
    ensures Sum(s) >= 0.0
  {
    if s != [] {
      SumNonNegative(s[..|s| - 1]);
    }
  }

  /** A sum of n values in [lo, hi] lies between n·lo and n·hi. */
  lemma {:induction false} SumWithin(s: seq<real>, lo: real, hi: real, n: real)
    requires Within(s, lo, hi) && n == |s| as real
    ensures n * lo <= Sum(s) <= n * hi
  {
    if s != [] {
      SumWithin(s[..|s| - 1], lo, hi, n - 1.0);
      StepWithin(Sum(s[..|s| - 1]), s[|s| - 1], lo, hi, n - 1.0);
    }
  }

  lemma StepWithin(s0: real, x: real, lo: real, hi: real, m: real)
    requires m * lo <= s0 <= m * hi && lo <= x <= hi
    ensures (m + 1.0) * lo <= s0 + x <= (m + 1.0) * hi
  {
  }

  /** A mean of values in [lo, hi] lies in [lo, hi]. */
  lemma MeanWithin(s: seq<real>, lo: real, hi: real)
    requires s != [] && Within(s, lo, hi)
    ensures lo <= Mean(s) <= hi
  {
    SumWithin(s, lo, hi, |s| as real);
    DivWithin(Sum(s), |s| as real, lo, hi);
  }

  lemma DivWithin(x: real, n: real, lo: real, hi: real)
    requires n > 0.0 && n * lo <= x <= n * hi
    ensures lo <= x / n <= hi
  {
  }

  /** Each element is strictly greater than the one before it. */
  predicate Rising(s: seq<real>)
  {
    forall i :: 1 <= i < |s| ==> s[i - 1] < s[i]
  }

  /** Each element is strictly smaller than the one before it. */
  predicate Falling(s: seq<real>)
  {
    forall i :: 1 <= i < |s| ==> s[i - 1] > s[i]
  }

  /** A non-negative sequence with one positive element has a positive sum. */
  lemma {:induction false} SumPositive(s: seq<real>, k: nat)
    requires NonNegative(s) && k < |s| && s[k] > 0.0
    ensures Sum(s) > 0.0
  {
    var init := s[..|s| - 1];
    if k == |s| - 1 {
      SumNonNegative(init);
    } else {
      SumPositive(init, k);
    }
  }

  /** The rolling mean at a full window holding a positive element of a non-negative series
      is positive. */
  lemma RollingMeanPositive(xs: seq<real>, p: nat, i: nat, k: nat)
    requires NonNegative(xs) && 1 <= p <= i + 1 <= |xs| && i + 1 - p <= k <= i && xs[k] > 0.0
    ensures RollingMean(xs, p)[i].Some? && RollingMean(xs, p)[i].value > 0.0
  {
    var w := xs[i + 1 - p..i + 1];
    assert w[k - (i + 1 - p)] == xs[k];
    SumPositive(w, k - (i + 1 - p));
  }

  /** Position i of the rolling mean is NaN before the window fills, else the window's mean. */
  lemma RollingMeanAt(xs: seq<real>, p: nat, i: nat)
    requires p >= 1 && i < |xs|
    ensures RollingMean(xs, p)[i] == if i + 1 < p then None else Some(Mean(xs[i + 1 - p..i + 1]))
  {
  }

  /** The rolling mean in prefix-sum form: NaN before the window fills, then the sum of the
      closes up to bar i less the sum of those before the window, divided by the window. */
  lemma RollingMeanPrefixSums(xs: seq<real>, p: nat, i: nat)
    requires p >= 1 && i < |xs|
    ensures i + 1 < p ==> RollingMean(xs, p)[i] == None
    ensures i + 1 >= p ==> RollingMean(xs, p)[i] == Some((Sum(xs[..i + 1]) - Sum(xs[..i + 1 - p])) / p as real)
  {
    if i + 1 >= p {
      var before, window := xs[..i + 1 - p], xs[i + 1 - p..i + 1];
      assert xs[..i + 1] == before + window;
      SumConcat(before, window);
      RollingMeanAt(xs, p, i);
    }
  }

  /** A series shorter than the window has no defined rolling mean at all. */
  lemma RollingMeanShortSeries(xs: seq<real>, p: nat)
    requires p >= 1 && |xs| < p
    ensures forall i :: 0 <= i < |xs| ==> RollingMean(xs, p)[i] == None
  {
  }

  /** The rolling mean is causal: values up to bar k depend only on closes up to bar k. */
  lemma RollingMeanCausal(xs: seq<real>, p: nat, k: nat)
    requires p >= 1 && k <= |xs|
    ensures RollingMean(xs[..k], p) == RollingMean(xs, p)[..k]
  {
    var a, b := RollingMean(xs[..k], p), RollingMean(xs, p)[..k];
    forall i | 0 <= i < k ensures a[i] == b[i] {
      if i + 1 >= p {
        assert xs[..k][i + 1 - p..i + 1] == xs[i + 1 - p..i + 1];
      }
    }
  }

  /** Sliding the window one bar adds the new close and drops the oldest, each weighted 1/p. */
  lemma RollingMeanSlide(xs: seq<real>, p: nat, i: nat)
    requires 1 <= p <= i < |xs|
    ensures RollingMean(xs, p)[i].Some? && RollingMean(xs, p)[i - 1].Some?
    ensures RollingMean(xs, p)[i].value
         == RollingMean(xs, p)[i - 1].value + (xs[i] - xs[i - p]) / p as real
  {
    var mid, now, before := xs[i + 1 - p..i], xs[i + 1 - p..i + 1], xs[i - p..i];
    assert now == mid + [xs[i]];
    assert before == [xs[i - p]] + mid;
    SumConcat(mid, [xs[i]]);
    SumConcat([xs[i - p]], mid);
    assert Sum([xs[i]]) == xs[i] by { assert [xs[i]][..0] == []; }
    assert Sum([xs[i - p]]) == xs[i - p] by { assert [xs[i - p]][..0] == []; }
    RollingMeanAt(xs, p, i);
    RollingMeanAt(xs, p, i - 1);
    assert Mean(now) == (Sum(mid) + xs[i]) / p as real;
    assert Mean(before) == (xs[i - p] + Sum(mid)) / p as real;
    SlideStep(Sum(mid), xs[i], xs[i - p], p as real);
  }

  lemma SlideStep(s: real, x: real, y: real, n: real)
    requires n > 0.0
    ensures (s + x) / n == (y + s) / n + (x - y) / n
  {
  }

  /** When every close of the window lies in [lo, hi], so does the rolling mean. */
  lemma RollingMeanWithin(xs: seq<real>, p: nat, i: nat, lo: real, hi: real)
    requires 1 <= p <= i + 1 <= |xs|
    requires Within(xs[i + 1 - p..i + 1], lo, hi)
    ensures RollingMean(xs, p)[i].Some?
    ensures lo <= RollingMean(xs, p)[i].value <= hi
  {
    MeanWithin(xs[i + 1 - p..i + 1], lo, hi);
  }

  /** On a rising series the shorter trailing mean is strictly above the longer one. */
  lemma TrailingMeanOrder(xs: seq<real>, p: nat, q: nat)
    requires Rising(xs) && 1 <= p < q <= |xs|
    ensures Mean(xs[|xs| - p..]) > Mean(xs[|xs| - q..])
  {
    var n := |xs|;
    var a, b := xs[n - q..n - p], xs[n - p..];
    RisingSliceWithin(xs, n - q, n - p);
    RisingSliceWithin(xs, n - p, n);
    RisingOrdered(xs, n - p - 1, n - p);
    assert xs[n - p..n] == b;
    assert xs[n - q..] == a + b;
    MeanOfConcat(a, b, xs[n - q], xs[n - p - 1], xs[n - p], xs[n - 1]);
    assert Mean(xs[n - q..]) == Mean(a + b);
  }

  /** When every value of `b` is above every value of `a`, the mean of `b` exceeds the mean
      of `a + b`. */
  lemma MeanOfConcat(a: seq<real>, b: seq<real>, lo: real, top: real, m: real, hi: real)
    requires a != [] && b != [] && Within(a, lo, top) && top < m && Within(b, m, hi)
    ensures Mean(b) > Mean(a + b)
  {
    var na, nb := |a| as real, |b| as real;
    assert na > 0.0;
    SumBelow(a, lo, top, m, na);
    SumAbove(b, m, hi, nb);
    MeanOfSplit(Sum(a), Sum(b), na, nb, m);
    SumConcat(a, b);
    assert |a + b| as real == na + nb;
  }

  lemma SumBelow(a: seq<real>, lo: real, top: real, m: real, na: real)
    requires Within(a, lo, top) && top < m && na == |a| as real && na > 0.0
    ensures Sum(a) < na * m
  {
    SumWithin(a, lo, top, na);
    MulStrict(na, top, m);
  }

  lemma SumAbove(b: seq<real>, m: real, hi: real, nb: real)
    requires Within(b, m, hi) && nb == |b| as real
    ensures Sum(b) >= nb * m
  {
    SumWithin(b, m, hi, nb);
  }

  /** A rising series is ordered: every earlier close is below every later one. */
  lemma {:induction false} RisingOrdered(xs: seq<real>, i: nat, j: nat)
    requires Rising(xs) && i < j < |xs|
    ensures xs[i] < xs[j]
  {
    if i + 1 < j {
      RisingOrdered(xs, i, j - 1);
    }
  }

  /** A slice of a rising series lies between its first and its last element. */
  lemma RisingSliceWithin(xs: seq<real>, i: nat, j: nat)
    requires Rising(xs) && i < j <= |xs|
    ensures Within(xs[i..j], xs[i], xs[j - 1])
  {
    var w := xs[i..j];
    forall k | 0 <= k < |w| ensures xs[i] <= w[k] <= xs[j - 1] {
      assert w[k] == xs[i + k];
      if 0 < k { RisingOrdered(xs, i, i + k); }
      if i + k < j - 1 { RisingOrdered(xs, i + k, j - 1); }
    }
  }

  lemma MulStrict(c: real, x: real, y: real)
    requires c > 0.0 && x < y
    ensures c * x < c * y
  {
  }

  /** If na values sum below na·m and nb values sum to at least nb·m, the mean of the nb
      values exceeds the mean of all na + nb. */
  lemma MeanOfSplit(sa: real, sb: real, na: real, nb: real, m: real)
    requires na > 0.0 && nb > 0.0
    requires sa < na * m && sb >= nb * m
    ensures sb / nb > (sa + sb) / (na + nb)
  {
    assert nb * sa < nb * (na * m);
    assert na * sb >= na * (nb * m);
    assert (na + nb) * sb > nb * (sa + sb);
  }
}
