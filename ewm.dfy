/** The adjusted exponential moving average, `Series.ewm(span=s).mean()` with pandas' defaults
    (adjust=True, no minimum period): the output at bar t is
    Σ w^i·x[t-i] / Σ w^i over i = 0..t, with decay w = 1 - α and α = 2/(s+1). */
module Ewm {
  import opened Rolling

  /** w = 1 - α for the smoothing factor α = 2/(span + 1). */
  function Decay(span: nat): (w: real)
    requires span >= 1
    ensures 0.0 <= w < 1.0
  {
    1.0 - 2.0 / (span as real + 1.0)
  }

  /** Numerator of the adjusted EMA after the first n inputs: the newest input plus w times
      the numerator one bar earlier (equal to Σ w^i·x[n-1-i], see ClosedForm). */
  function Numerator(xs: seq<real>, w: real, n: nat): real
    requires n <= |xs|
  {
    if n == 0 then 0.0 else xs[n - 1] + w * Numerator(xs, w, n - 1)
  }

  /** Denominator of the adjusted EMA after n inputs: 1 + w·(the previous one), i.e. Σ_{i<n} w^i. */
  function Denominator(w: real, n: nat): (r: real)
    ensures w >= 0.0 && n >= 1 ==> r >= 1.0
  {
    if n == 0 then 0.0 else 1.0 + w * Denominator(w, n - 1)
  }

  /** The adjusted EMA at bar t: every input up to t, weighted by w raised to its age. */
  function EmaAt(xs: seq<real>, w: real, t: nat): real
    requires t < |xs| && w >= 0.0
  {
    Numerator(xs, w, t + 1) / Denominator(w, t + 1)
  }

  /** The adjusted EMA column: one output per input, each from the inputs up to that bar. */
  function AdjustedEma(xs: seq<real>, span: nat): (r: seq<real>)
    requires span >= 1
    ensures |r| == |xs|
  {
    seq(|xs|, t requires 0 <= t < |xs| => EmaAt(xs, Decay(span), t))
  }

  /** A concrete value: with span 3 (α = 1/2, w = 1/2) the EMA of [1, 2] at bar 1 is
      (2 + 1/2·1) / (1 + 1/2) = 5/3. */
  lemma SpanThreeExample()
    ensures AdjustedEma([1.0, 2.0], 3)[1] == 5.0 / 3.0
  {
    assert Decay(3) == 0.5;
    Unfold([1.0, 2.0], Decay(3), 2);
    Unfold([1.0, 2.0], Decay(3), 1);
  }

  lemma Unfold(xs: seq<real>, w: real, n: nat)
    requires 0 < n <= |xs|
    ensures Numerator(xs, w, n) == xs[n - 1] + w * Numerator(xs, w, n - 1)
    ensures Denominator(w, n) == 1.0 + w * Denominator(w, n - 1)
  {
  }

  /** A blend e of x (weight 1) and e0 (weight a >= 0) stays inside any interval holding both. */
  lemma Blend(e: real, x: real, e0: real, a: real, lo: real, hi: real)
    requires a >= 0.0
    requires lo <= x <= hi
    requires lo <= e0 <= hi
    requires e == (x + a * e0) / (1.0 + a)
    ensures lo <= e <= hi
  {
    assert a * lo <= a * e0 <= a * hi;
    assert lo * (1.0 + a) <= x + a * e0 <= hi * (1.0 + a);
  }

  /** The EMA is a convex blend: when the inputs up to bar t lie in [lo, hi], so does EMA[t]. */
  lemma EmaWithin(xs: seq<real>, span: nat, t: nat, lo: real, hi: real)
    requires span >= 1 && t < |xs| && Within(xs[..t + 1], lo, hi)
    ensures lo <= AdjustedEma(xs, span)[t] <= hi
  {
    var w := Decay(span);
    assert forall k :: 0 <= k < t + 1 ==> lo <= xs[k] <= hi by {
      forall k | 0 <= k < t + 1 ensures lo <= xs[k] <= hi {
        assert xs[..t + 1][k] == xs[k];
      }
    }
    EmaAtWithin(xs, w, t, lo, hi);
  }

  lemma {:induction false} EmaAtWithin(xs: seq<real>, w: real, t: nat, lo: real, hi: real)
    requires w >= 0.0 && t < |xs| && forall k :: 0 <= k < t + 1 ==> lo <= xs[k] <= hi
    ensures lo <= EmaAt(xs, w, t) <= hi
  {
    if t == 0 {
      EmaAtFirst(xs, w);
    } else {
      EmaAtWithin(xs, w, t - 1, lo, hi);
      EmaAtStepWithin(xs, w, t, lo, hi);
    }
  }

  lemma EmaAtStepWithin(xs: seq<real>, w: real, t: nat, lo: real, hi: real)
    requires w >= 0.0 && 1 <= t < |xs|
    requires lo <= xs[t] <= hi && lo <= EmaAt(xs, w, t - 1) <= hi
    ensures lo <= EmaAt(xs, w, t) <= hi
  {
    var a := w * Denominator(w, t);
    EmaAtStep(xs, w, t);
    MulNonNegative(w, Denominator(w, t));
    Blend(EmaAt(xs, w, t), xs[t], EmaAt(xs, w, t - 1), a, lo, hi);
  }

  lemma MulNonNegative(a: real, b: real)
    requires a >= 0.0 && b >= 0.0
    ensures a * b >= 0.0
  {
  }

  lemma EmaAtFirst(xs: seq<real>, w: real)
    requires w >= 0.0 && xs != []
    ensures EmaAt(xs, w, 0) == xs[0]
  {
    Unfold(xs, w, 1);
    assert Numerator(xs, w, 0) == 0.0 && Denominator(w, 0) == 0.0;
  }

  /** The adjusted EMA starts at the first input. */
  lemma EmaFirst(xs: seq<real>, span: nat)
    requires span >= 1 && xs != []
    ensures AdjustedEma(xs, span)[0] == xs[0]
  {
    EmaWithin(xs, span, 0, xs[0], xs[0]);
  }

  /** A constant input yields that constant at every bar. */
  lemma EmaConstant(xs: seq<real>, span: nat, c: real)
    requires span >= 1 && Within(xs, c, c)
    ensures forall t :: 0 <= t < |xs| ==> AdjustedEma(xs, span)[t] == c
  {
    forall t | 0 <= t < |xs| ensures AdjustedEma(xs, span)[t] == c {
      assert Within(xs[..t + 1], c, c);
      EmaWithin(xs, span, t, c, c);
    }
  }

  /** The first n numerators only read the first n inputs. */
  lemma {:induction false} NumeratorPrefix(xs: seq<real>, w: real, n: nat, k: nat)
    requires n <= k <= |xs|
    ensures Numerator(xs[..k], w, n) == Numerator(xs, w, n)
  {
    if n > 0 {
      NumeratorPrefix(xs, w, n - 1, k);
    }
  }

  /** The EMA is causal: outputs up to bar k depend only on inputs up to bar k. */
  lemma EmaCausal(xs: seq<real>, span: nat, k: nat)
    requires span >= 1 && k <= |xs|
    ensures AdjustedEma(xs[..k], span) == AdjustedEma(xs, span)[..k]
  {
    forall t | 0 <= t < k ensures AdjustedEma(xs[..k], span)[t] == AdjustedEma(xs, span)[t] {
      NumeratorPrefix(xs, Decay(span), t + 1, k);
    }
  }

  /** The recursive form pandas evaluates: the new output blends the new input (weight 1) with
      the previous output (weight w times the previous total weight). */
  lemma EmaRecurrence(xs: seq<real>, span: nat, t: nat)
    requires span >= 1 && 1 <= t < |xs|
    ensures var w := Decay(span);
            var oldWeight := w * Denominator(w, t);
            AdjustedEma(xs, span)[t]
              == (xs[t] + oldWeight * AdjustedEma(xs, span)[t - 1]) / (1.0 + oldWeight)
  {
    var w := Decay(span);
    assert AdjustedEma(xs, span)[t] == EmaAt(xs, w, t);
    assert AdjustedEma(xs, span)[t - 1] == EmaAt(xs, w, t - 1);
    EmaAtStep(xs, w, t);
  }

  lemma EmaAtStep(xs: seq<real>, w: real, t: nat)
    requires w >= 0.0 && 1 <= t < |xs|
    ensures EmaAt(xs, w, t)
              == (xs[t] + (w * Denominator(w, t)) * EmaAt(xs, w, t - 1)) / (1.0 + w * Denominator(w, t))
  {
    Unfold(xs, w, t + 1);
    Rescale(w, Numerator(xs, w, t), Denominator(w, t));
  }

  lemma Rescale(w: real, s0: real, d0: real)
    requires d0 > 0.0
    ensures w * s0 == (w * d0) * (s0 / d0)
  {
  }

  // The closed form Σ w^i·x[t-i] / Σ w^i, stated independently of the recurrence.

  function Pow(w: real, i: nat): real
  {
    if i == 0 then 1.0 else w * Pow(w, i - 1)
  }

  /** Σ_{i<k} w^i. */
  function Weights(w: real, k: nat): real
  {
    if k == 0 then 0.0 else Weights(w, k - 1) + Pow(w, k - 1)
  }

  /** Σ_{i<k} w^i·xs[n-1-i]: the k most recent of the first n inputs, the newest with weight 1. */
  function Weighted(xs: seq<real>, w: real, n: nat, k: nat): real
    requires k <= n <= |xs|
  {
    if k == 0 then 0.0 else Weighted(xs, w, n, k - 1) + Pow(w, k - 1) * xs[n - k]
  }

  /** Adding one input ages every earlier weight by w. */
  lemma {:induction false} WeightedStep(xs: seq<real>, w: real, n: nat, k: nat)
    requires k < n <= |xs|
    ensures Weighted(xs, w, n, k + 1) == xs[n - 1] + w * Weighted(xs, w, n - 1, k)
  {
    if k > 0 {
      WeightedStep(xs, w, n, k - 1);
      AgeStep(Weighted(xs, w, n, k + 1), Weighted(xs, w, n, k), Weighted(xs, w, n - 1, k),
              Weighted(xs, w, n - 1, k - 1), Pow(w, k), Pow(w, k - 1), xs[n - 1], xs[n - 1 - k], w);
    }
  }

  /** The algebra of WeightedStep: from s1 = s0 + p1·y, s0 = x + w·t0, t1 = t0 + p0·y and
      p1 = w·p0 it follows that s1 = x + w·t1. */
  lemma AgeStep(s1: real, s0: real, t1: real, t0: real, p1: real, p0: real, x: real, y: real, w: real)
    requires s1 == s0 + p1 * y && s0 == x + w * t0 && t1 == t0 + p0 * y && p1 == w * p0
    ensures s1 == x + w * t1
  {
  }

  lemma {:induction false} WeightsStep(w: real, k: nat)
    ensures Weights(w, k + 1) == 1.0 + w * Weights(w, k)
  {
    if k > 0 {
      WeightsStep(w, k - 1);
      AgeStep(Weights(w, k + 1), Weights(w, k), Weights(w, k), Weights(w, k - 1),
              Pow(w, k), Pow(w, k - 1), 1.0, 1.0, w);
    }
  }

  /** The recurrence computes exactly the exponentially weighted sums over the whole history. */
  lemma ClosedForm(xs: seq<real>, w: real, n: nat)
    requires n <= |xs|
    ensures Numerator(xs, w, n) == Weighted(xs, w, n, n)
    ensures Denominator(w, n) == Weights(w, n)
  {
    NumeratorClosedForm(xs, w, n);
    DenominatorClosedForm(w, n);
  }

  lemma {:induction false} NumeratorClosedForm(xs: seq<real>, w: real, n: nat)
    requires n <= |xs|
    ensures Numerator(xs, w, n) == Weighted(xs, w, n, n)
  {
    if n > 0 {
      NumeratorClosedForm(xs, w, n - 1);
      WeightedStep(xs, w, n, n - 1);
      SameStep(xs[n - 1], w, Numerator(xs, w, n - 1), Weighted(xs, w, n - 1, n - 1));
    }
  }

  lemma {:induction false} DenominatorClosedForm(w: real, n: nat)
    ensures Denominator(w, n) == Weights(w, n)
  {
    if n > 0 {
      DenominatorClosedForm(w, n - 1);
      WeightsStep(w, n - 1);
      SameStep(1.0, w, Denominator(w, n - 1), Weights(w, n - 1));
    }
  }

  lemma SameStep(x: real, w: real, s: real, t: real)
    requires s == t
    ensures x + w * s == x + w * t
  {
  }

  /** The EMA at bar t is the closed-form ratio Σ w^i·x[t-i] / Σ w^i. */
  lemma EmaClosedForm(xs: seq<real>, span: nat, t: nat)
    requires span >= 1 && t < |xs|
    ensures var w := Decay(span);
            Weights(w, t + 1) >= 1.0 &&
            AdjustedEma(xs, span)[t] == Weighted(xs, w, t + 1, t + 1) / Weights(w, t + 1)
  {
    ClosedForm(xs, Decay(span), t + 1);
  }
}
