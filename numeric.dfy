/** Option type shared by the modules of this model. */
module Wrappers {
  datatype Option<+T> = None | Some(value: T)
}

/**
 * Real-number helpers shared by the camera, the mouse influence and the
 * roll decay: absolute value, the clamp written as `Math.max(lo, Math.min(hi, v))`,
 * powers, and the bound that makes every "multiply by (1 - d) per tick" decay converge.
 */
module Numeric {

  function Abs(v: real): (r: real)
    ensures r >= 0.0
  {
    if v < 0.0 then -v else v
  }

  /** `Math.max(lo, Math.min(hi, v))`. */
  function Clamp(v: real, lo: real, hi: real): (r: real)
    requires lo <= hi
    ensures lo <= r <= hi
    ensures lo <= v <= hi ==> r == v
    ensures v < lo ==> r == lo
    ensures hi < v ==> r == hi
  {
    if v < lo then lo else if hi < v then hi else v
  }

  /** A non-negative factor comes out of the absolute value. */
  lemma AbsScale(k: real, v: real)
    requires k >= 0.0
    ensures Abs(k * v) == k * Abs(v)
  {
    if v < 0.0 {
      assert k * v <= 0.0;
    } else {
      assert k * v >= 0.0;
    }
  }

  function Pow(b: real, n: nat): real
  {
    if n == 0 then 1.0 else b * Pow(b, n - 1)
  }

  lemma {:induction false} PowInUnit(b: real, n: nat)
    requires 0.0 < b <= 1.0
    ensures 0.0 < Pow(b, n) <= 1.0
  {
    if n > 0 {
      PowInUnit(b, n - 1);
      assert b * Pow(b, n - 1) <= 1.0 * Pow(b, n - 1);
    }
  }

  /**
   * Bernoulli-style bound: repeating a shrink by the factor `1 - d` for n
   * steps leaves at most `1 / (1 + n*d)` of the original amount.
   */
  lemma {:induction false} PowDecayBound(d: real, n: nat)
    requires 0.0 < d < 1.0
    ensures 0.0 < Pow(1.0 - d, n)
    ensures Pow(1.0 - d, n) * (1.0 + (n as real) * d) <= 1.0
  {
    if n > 0 {
      PowDecayBound(d, n - 1);
      var p, q := Pow(1.0 - d, n - 1), Pow(1.0 - d, n);
      assert q == (1.0 - d) * p;
      BernoulliStep(d, p, q, (n - 1) as real);
      assert (n as real) == ((n - 1) as real) + 1.0;
    }
  }

  /** One step of the bound: from `p * (1 + m*d) <= 1` to `q * (1 + (m+1)*d) <= 1` for `q = (1 - d) * p`. */
  lemma BernoulliStep(d: real, p: real, q: real, m: real)
    requires 0.0 < d < 1.0 && p > 0.0 && m >= 0.0 && q == (1.0 - d) * p
    requires p * (1.0 + m * d) <= 1.0
    ensures q > 0.0
    ensures q * (1.0 + (m + 1.0) * d) <= 1.0
  {
    MulPos(1.0 - d, p);
    var loss := p * (d * d * (m + 1.0));
    MulNonNeg(d * d, m + 1.0);
    MulNonNeg(p, d * d * (m + 1.0));
    assert (1.0 - d) * (1.0 + (m + 1.0) * d) == (1.0 + m * d) - d * d * (m + 1.0);
    assert (1.0 - d) * p * (1.0 + (m + 1.0) * d) == p * ((1.0 - d) * (1.0 + (m + 1.0) * d));
    assert p * ((1.0 + m * d) - d * d * (m + 1.0)) == p * (1.0 + m * d) - loss;
  }

  lemma MulPos(a: real, b: real)
    requires a > 0.0 && b > 0.0
    ensures a * b > 0.0
  {
  }

  lemma MulNonNeg(a: real, b: real)
    requires a >= 0.0 && b >= 0.0
    ensures a * b >= 0.0
  {
  }

  /**
   * Convergence of a geometric decay: after at least `|g| / (d * eps)` steps
   * an amount `g` that shrinks by `1 - d` per step is within `eps` of zero.
   */
  lemma GeometricConverges(d: real, g: real, eps: real, n: nat)
    requires 0.0 < d < 1.0 && eps > 0.0
    requires (n as real) * d * eps >= Abs(g)
    ensures Pow(1.0 - d, n) * Abs(g) <= eps
  {
    PowDecayBound(d, n);
    var p := Pow(1.0 - d, n);
    var k := 1.0 + (n as real) * d;
    assert k > 0.0;
    assert p * k * Abs(g) <= Abs(g) by {
      assert p * k <= 1.0;
      assert (p * k) * Abs(g) <= 1.0 * Abs(g);
    }
    assert Abs(g) <= k * eps by {
      assert (n as real) * d * eps <= k * eps;
    }
    assert k * (p * Abs(g)) <= k * eps;
  }
}
