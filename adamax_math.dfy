/** The per-element arithmetic of one AdaMax step (Kingma and Ba, "Adam: a
    method for stochastic optimization", section 7.1), as the updater
    computes it, and what it guarantees. */
module AdaMaxMath {

  /** The constant added to every element of `u` on each step, so that the
      final division never divides by zero. */
  const Delta: real := 0.00000000000000000000000000000001

  function Abs(x: real): real
  {
    if x < 0.0 then -x else x
  }

  function Max(x: real, y: real): real
  {
    if x >= y then x else y
  }

  /** `b` raised to the power `n`. */
  function Pow(b: real, n: nat): real
  {
    if n == 0 then 1.0 else b * Pow(b, n - 1)
  }

  lemma {:induction false} PowOfOne(n: nat)
    ensures Pow(1.0, n) == 1.0
  {
    if n > 0 {
      PowOfOne(n - 1);
    }
  }

  /** A decay rate in [0, 1) raised to a positive power stays in [0, b]. */
  lemma {:induction false} PowInUnitInterval(b: real, n: nat)
    requires 0.0 <= b < 1.0 && n >= 1
    ensures 0.0 <= Pow(b, n) <= b
  {
    if n > 1 {
      PowInUnitInterval(b, n - 1);
      var p := Pow(b, n - 1);
      assert b * p <= b * 1.0 by {
        assert 0.0 <= b && p <= 1.0;
      }
      assert 0.0 <= b * p;
    }
  }

  /** New first moment: the moving average of the gradient. */
  function MomentStep(beta1: real, m: real, g: real): real
  {
    m * beta1 + g * (1.0 - beta1)
  }

  /** With a decay rate in [0, 1] the new first moment is a weighted average
      of the old one and the gradient, so it lies between the two. */
  lemma MomentBetween(beta1: real, m: real, g: real)
    requires 0.0 <= beta1 <= 1.0
    ensures Max(m, g) >= MomentStep(beta1, m, g) >= (if m <= g then m else g)
  {
    var r := MomentStep(beta1, m, g);
    var d, c := g - m, 1.0 - beta1;
    assert r == m + d * c && r == g - d * beta1;
    if d >= 0.0 {
      NonNegativeProduct(d, c);
      NonNegativeProduct(d, beta1);
    } else {
      NonNegativeProduct(-d, c);
      NonNegativeProduct(-d, beta1);
    }
  }

  lemma NonNegativeProduct(x: real, y: real)
    requires x >= 0.0 && y >= 0.0
    ensures x * y >= 0.0
  {
  }

  /** New infinity-norm estimate, with `Delta` already added. */
  function NormStep(beta2: real, u: real, g: real): (r: real)
    ensures r >= Abs(g) + Delta && r >= u * beta2 + Delta
    ensures r == Abs(g) + Delta || r == u * beta2 + Delta
    ensures r > 0.0
  {
    Max(u * beta2, Abs(g)) + Delta
  }

  /** The step size: the learning rate divided by the bias correction
      `1 - beta1^(iteration + 1)`, replaced by `epsilon` when it is zero or
      when the correction is exactly zero, and only then. */
  function Alpha(lr: real, beta1: real, epsilon: real, iteration: nat): (r: real)
    ensures r == epsilon || r * (1.0 - Pow(beta1, iteration + 1)) == lr
    ensures r != epsilon ==> r != 0.0 && 1.0 - Pow(beta1, iteration + 1) != 0.0
    ensures epsilon != 0.0 ==> r != 0.0
    ensures 1.0 - Pow(beta1, iteration + 1) != 0.0 && lr != 0.0 ==> r == lr / (1.0 - Pow(beta1, iteration + 1))
  {
    var beta1t := Pow(beta1, iteration + 1);
    if 1.0 - beta1t == 0.0 then epsilon
    else
      var alphat := lr / (1.0 - beta1t);
      if alphat == 0.0 then epsilon else alphat
  }

  /** The value written back into the gradient for one element. */
  function ParameterDelta(m: real, alpha: real, u: real): real
    requires u != 0.0
  {
    m * alpha / u
  }

  /** For a decay rate in [0, 1) the fallback fires exactly when the
      learning rate is zero, and otherwise the bias correction only
      enlarges the step: |alpha| >= |lr|, with the same sign. */
  lemma AlphaBiasCorrected(lr: real, beta1: real, epsilon: real, iteration: nat)
    requires 0.0 <= beta1 < 1.0
    ensures 0.0 < 1.0 - Pow(beta1, iteration + 1) <= 1.0
    ensures lr == 0.0 ==> Alpha(lr, beta1, epsilon, iteration) == epsilon
    ensures lr != 0.0 ==> Alpha(lr, beta1, epsilon, iteration) == lr / (1.0 - Pow(beta1, iteration + 1))
    ensures lr > 0.0 ==> Alpha(lr, beta1, epsilon, iteration) >= lr
    ensures lr < 0.0 ==> Alpha(lr, beta1, epsilon, iteration) <= lr
  {
    PowInUnitInterval(beta1, iteration + 1);
    var c := 1.0 - Pow(beta1, iteration + 1);
    assert 0.0 < c <= 1.0;
    if lr > 0.0 {
      assert lr / c >= lr by {
        assert (lr / c) * c == lr;
        assert lr / c > 0.0;
      }
    } else if lr < 0.0 {
      assert lr / c <= lr by {
        assert (lr / c) * c == lr;
        assert lr / c < 0.0;
      }
    }
  }

  /** A decay rate of exactly 1 makes the bias correction vanish; the step
      size falls back to epsilon instead of becoming infinite. */
  lemma AlphaDegenerate(lr: real, epsilon: real, iteration: nat)
    ensures Alpha(lr, 1.0, epsilon, iteration) == epsilon
  {
    PowOfOne(iteration + 1);
  }

  /** From an all-zero state, one step gives m = (1 - beta1) g and
      u = |g| + Delta. */
  lemma FirstStepFromZero(beta1: real, beta2: real, g: real)
    ensures MomentStep(beta1, 0.0, g) == (1.0 - beta1) * g
    ensures NormStep(beta2, 0.0, g) == Abs(g) + Delta
  {
  }

  /** From an all-zero state, with a decay rate in [0, 1) and a positive
      learning rate, the first update is strictly smaller in magnitude than
      the learning rate: the bias correction exactly cancels the (1 - beta1)
      factor of the moving average, and |g| < |g| + Delta. */
  lemma {:induction false} FirstUpdateBelowLearningRate(beta1: real, beta2: real, epsilon: real, lr: real, g: real)
    requires 0.0 <= beta1 < 1.0 && lr > 0.0
    ensures Abs(ParameterDelta(MomentStep(beta1, 0.0, g), Alpha(lr, beta1, epsilon, 0), NormStep(beta2, 0.0, g))) < lr
  {
    var c := 1.0 - beta1;
    assert Pow(beta1, 1) == beta1;
    AlphaBiasCorrected(lr, beta1, epsilon, 0);
    var alpha := Alpha(lr, beta1, epsilon, 0);
    assert alpha == lr / c;
    var m := MomentStep(beta1, 0.0, g);
    var u := NormStep(beta2, 0.0, g);
    assert m == c * g;
    assert u == Abs(g) + Delta;
    assert m * alpha == g * lr by {
      assert alpha * c == lr;
      calc {
        m * alpha;
        (c * g) * alpha;
        g * (alpha * c);
        g * lr;
      }
    }
    var d := ParameterDelta(m, alpha, u);
    assert d * u == g * lr;
    assert Abs(d) * u == Abs(g) * lr by {
      if d < 0.0 {
        assert g * lr < 0.0;
        assert g < 0.0;
      } else {
        assert g * lr >= 0.0;
        assert g >= 0.0;
      }
    }
    assert Abs(g) * lr < u * lr;
    assert Abs(d) * u < lr * u;
  }

  /** The worked example of a first step: beta1 = 0.9, learning rate 0.001,
      iteration 0 gives the step size 0.001 / (1 - 0.9) = 0.01. */
  lemma FirstStepSize()
    ensures Alpha(0.001, 0.9, 0.00000001, 0) == 0.01
  {
  }
}
