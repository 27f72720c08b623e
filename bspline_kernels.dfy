/**
 The centred B-spline kernels the interpolation weight functions evaluate, over
 exact reals: the hat function beta1, the quadratic beta2 and the cubic beta3,
 and the two derived kernels the derivative weight functions use,
 beta2(t + 1/2) - beta2(t - 1/2) and beta1(t + 1) - 2 beta1(t) + beta1(t - 1).
 */
module BSplineKernels {

  function Abs(t: real): real
  {
    if t < 0.0 then -t else t
  }

  /** beta1: the linear B-spline, 1 - |t| on (-1, 1). */
  function Beta1(t: real): (r: real)
    ensures 0.0 <= r <= 1.0
    ensures Abs(t) >= 1.0 ==> r == 0.0
  {
    var a := Abs(t);
    if a < 1.0 then 1.0 - a else 0.0
  }

  /** beta2: the quadratic B-spline, supported on (-3/2, 3/2). */
  function Beta2(t: real): (r: real)
    ensures 0.0 <= r <= 0.75
    ensures Abs(t) >= 1.5 ==> r == 0.0
  {
    var a := Abs(t);
    if a < 0.5 then
      QuadraticInnerBounds(a);
      0.75 - a * a
    else if a < 1.5 then
      var b := 1.5 - a;
      QuadraticOuterBounds(b);
      b * b / 2.0
    else 0.0
  }

  /** beta3: the cubic B-spline, supported on (-2, 2). */
  function Beta3(t: real): (r: real)
    ensures 0.0 <= r <= 2.0 / 3.0
    ensures Abs(t) >= 2.0 ==> r == 0.0
  {
    var a := Abs(t);
    if a < 1.0 then
      CubicInnerBounds(a);
      2.0 / 3.0 - a * a + a * a * a / 2.0
    else if a < 2.0 then
      var b := 2.0 - a;
      CubicOuterBounds(b);
      b * b * b / 6.0
    else 0.0
  }

  lemma CubicInnerBounds(a: real)
    requires 0.0 <= a < 1.0
    ensures 0.0 < 2.0 / 3.0 - a * a + a * a * a / 2.0 <= 2.0 / 3.0
  {
    // a^2 (1 - a/2) <= a (1 - a/2) == (1 - (1 - a)^2) / 2 <= 1/2
    var h := 1.0 - a / 2.0;
    assert a * a <= a;
    assert a * a * h <= a * h;
    assert a * h == a - a * a / 2.0;
    assert (1.0 - a) * (1.0 - a) >= 0.0;
    assert a * a * h >= 0.0;
    assert a * a * a / 2.0 == a * a - a * a * h;
  }

  lemma CubicOuterBounds(b: real)
    requires 0.0 < b <= 1.0
    ensures 0.0 < b * b * b / 6.0 <= 1.0 / 6.0
  {
    PowersPositive(b);
    ProductBelowFirst(b, b);
    ProductBelowFirst(b * b, b);
  }

  lemma PowersPositive(b: real)
    requires b > 0.0
    ensures b * b > 0.0 && b * b * b > 0.0
  {
  }

  lemma QuadraticOuterBounds(b: real)
    requires 0.0 < b <= 1.0
    ensures 0.0 < b * b / 2.0 <= 0.5
  {
    PowersPositive(b);
    ProductBelowFirst(b, b);
  }

  lemma QuadraticInnerBounds(a: real)
    requires 0.0 <= a < 0.5
    ensures 0.5 < 0.75 - a * a <= 0.75
  {
    ProductBelowFirst(a, a);
    assert a * a <= a * 0.5 by { ProductBelowFirst(a, 2.0 * a); }
  }

  /** Multiplying by a factor in [0, 1] does not increase a non-negative value. */
  lemma ProductBelowFirst(x: real, y: real)
    requires x >= 0.0 && 0.0 <= y <= 1.0
    ensures 0.0 <= x * y <= x
  {
    assert x * (1.0 - y) >= 0.0;
  }

  /**
   The first-derivative kernel: beta2(t + 1/2) - beta2(t - 1/2). It is bounded
   by the maximum of beta2 and vanishes outside the support of beta3.
   */
  function DerivativeKernel(t: real): (r: real)
    ensures -0.75 <= r <= 0.75
    ensures Abs(t) >= 2.0 ==> r == 0.0
  {
    Beta2(t + 0.5) - Beta2(t - 0.5)
  }

  /**
   The same-axis second-derivative kernel: beta1(t + 1) - 2 beta1(t) + beta1(t - 1).
   It lies in [-2, 1], and vanishes outside the support of beta3.
   */
  function SecondOrderDerivativeKernel(t: real): (r: real)
    ensures -2.0 <= r <= 1.0
    ensures Abs(t) >= 2.0 ==> r == 0.0
  {
    Beta1(t + 1.0) - 2.0 * Beta1(t) + Beta1(t - 1.0)
  }

  /**
   Partition of unity of the cubic B-spline: the four samples at
   u, u - 1, u - 2, u - 3 sum to one when 1 <= u <= 2.
   */
  lemma Beta3PartitionOfUnity(u: real)
    requires 1.0 <= u <= 2.0
    ensures Beta3(u) + Beta3(u - 1.0) + Beta3(u - 2.0) + Beta3(u - 3.0) == 1.0
  {
    var f := u - 1.0;
    var g := 2.0 - u;
    assert f + g == 1.0;
    if u == 1.0 {
      assert Beta3(u) == 1.0 / 6.0;
      assert Beta3(u - 1.0) == 2.0 / 3.0;
      assert Beta3(u - 2.0) == 1.0 / 6.0;
      assert Beta3(u - 3.0) == 0.0;
    } else if u == 2.0 {
      assert Beta3(u) == 0.0;
      assert Beta3(u - 1.0) == 1.0 / 6.0;
      assert Beta3(u - 2.0) == 2.0 / 3.0;
      assert Beta3(u - 3.0) == 1.0 / 6.0;
    } else {
      assert Beta3(u) == g * g * g / 6.0;
      assert Beta3(u - 1.0) == 2.0 / 3.0 - f * f + f * f * f / 2.0;
      assert Beta3(u - 2.0) == 2.0 / 3.0 - g * g + g * g * g / 2.0;
      assert Beta3(u - 3.0) == f * f * f / 6.0;
      CubicSumIdentity(f, g);
    }
  }

  /** The polynomial identity behind the partition of unity, with f + g == 1. */
  lemma CubicSumIdentity(f: real, g: real)
    requires f + g == 1.0
    ensures g * g * g / 6.0 + (2.0 / 3.0 - f * f + f * f * f / 2.0)
          + (2.0 / 3.0 - g * g + g * g * g / 2.0) + f * f * f / 6.0 == 1.0
  {
    // f^3 + g^3 == 1 - 3fg and f^2 + g^2 == 1 - 2fg
    assert f * f + g * g == 1.0 - 2.0 * f * g by {
      assert (f + g) * (f + g) == 1.0;
    }
    assert f * f * f + g * g * g == 1.0 - 3.0 * f * g by {
      assert (f + g) * (f * f - f * g + g * g) == f * f * f + g * g * g;
    }
  }

  /**
   The first-derivative samples telescope: their sum over u, u - 1, u - 2, u - 3
   is zero when 1 <= u <= 2.
   */
  lemma DerivativeKernelSumsToZero(u: real)
    requires 1.0 <= u <= 2.0
    ensures DerivativeKernel(u) + DerivativeKernel(u - 1.0)
          + DerivativeKernel(u - 2.0) + DerivativeKernel(u - 3.0) == 0.0
  {
    assert Beta2(u + 0.5) == 0.0;
    assert Beta2(u - 3.0 - 0.5) == 0.0;
    assert u - 1.0 + 0.5 == u - 0.5;
    assert u - 2.0 + 0.5 == u - 1.0 - 0.5;
    assert u - 3.0 + 0.5 == u - 2.0 - 0.5;
  }

  /**
   The second-derivative samples telescope as well: their sum over
   u, u - 1, u - 2, u - 3 is zero when 1 <= u <= 2.
   */
  lemma SecondOrderDerivativeKernelSumsToZero(u: real)
    requires 1.0 <= u <= 2.0
    ensures SecondOrderDerivativeKernel(u) + SecondOrderDerivativeKernel(u - 1.0)
          + SecondOrderDerivativeKernel(u - 2.0) + SecondOrderDerivativeKernel(u - 3.0) == 0.0
  {
    assert Beta1(u + 1.0) == 0.0 && Beta1(u) == 0.0;
    assert Beta1(u - 3.0) == 0.0 && Beta1(u - 4.0) == 0.0;
    assert u - 1.0 + 1.0 == u && u - 2.0 + 1.0 == u - 1.0 && u - 3.0 + 1.0 == u - 2.0;
    assert u - 1.0 - 1.0 == u - 2.0 && u - 2.0 - 1.0 == u - 3.0 && u - 3.0 - 1.0 == u - 4.0;
  }
}
