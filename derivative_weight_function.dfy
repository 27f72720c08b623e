/**
 The first-order derivative B-spline weight function
 (BSplineInterpolationDerivativeWeightFunction): its only state is the
 derivative direction; Compute1DWeights uses beta2(t + 1/2) - beta2(t - 1/2)
 on that axis and beta3 on every other axis.
 */
module DerivativeWeightFunction {
  import opened BSplineKernels
  import opened WeightFunctionBase

  /**
   The kernel the first-order derivative weight function selects for `axis`:
   the first-derivative kernel on the derivative direction, beta3 elsewhere,
   and never the same-axis second-derivative kernel.
   */
  function KernelForAxis(derivativeDirection: nat, axis: nat): (r: KernelKind)
    ensures r != SecondDerivative
    ensures r == FirstDerivative <==> axis == derivativeDirection
  {
    if axis == derivativeDirection then FirstDerivative else Value
  }

  class BSplineInterpolationDerivativeWeightFunction {
    /** SpaceDimension, a template parameter of the source. */
    const spaceDimension: nat
    /** m_DerivativeDirection */
    var derivativeDirection: nat

    ghost predicate Valid()
      reads this
    {
      derivativeDirection < spaceDimension
    }

    constructor (spaceDimension: nat)
      requires spaceDimension >= 1
      ensures Valid()
      ensures this.spaceDimension == spaceDimension && derivativeDirection == 0
    {
      this.spaceDimension := spaceDimension;
      derivativeDirection := 0;
    }

    /** Stores dir as the derivative direction; a direction outside the space is refused. */
    method SetDerivativeDirection(dir: nat) returns (ok: bool)
      requires Valid()
      modifies this
      ensures Valid()
      ensures ok <==> dir < spaceDimension
      ensures derivativeDirection == if ok then dir else old(derivativeDirection)
    {
      ok := dir < spaceDimension;
      if ok {
        derivativeDirection := dir;
      }
    }

    /**
     Fills weights1D[i, k] for every axis i and k in [0, SupportSize) with the
     kernel of axis i at x[i] - startIndex[i] - k. Changes nothing but weights1D.
     On every axis whose window covers the kernel support, the filled row sums
     to zero on the derivative axis and to one elsewhere.
     */
    method Compute1DWeights(cindex: seq<real>, startIndex: seq<int>, weights1D: array2<real>)
      requires Valid()
      requires |cindex| == spaceDimension && |startIndex| == spaceDimension
      requires weights1D.Length0 == spaceDimension && weights1D.Length1 == SupportSize
      modifies weights1D
      ensures forall i, k :: 0 <= i < spaceDimension && 0 <= k < SupportSize ==>
        weights1D[i, k] == (if i == derivativeDirection
                            then DerivativeKernel(SamplePosition(cindex[i], startIndex[i], k))
                            else Beta3(SamplePosition(cindex[i], startIndex[i], k)))
      ensures forall i :: 0 <= i < spaceDimension && WindowCoversSupport(cindex[i], startIndex[i]) ==>
        weights1D[i, 0] + weights1D[i, 1] + weights1D[i, 2] + weights1D[i, 3]
        == if i == derivativeDirection then 0.0 else 1.0
    {
      for i := 0 to spaceDimension
        invariant forall i', k :: 0 <= i' < i && 0 <= k < SupportSize ==>
          weights1D[i', k] == Evaluate(KernelForAxis(derivativeDirection, i'), SamplePosition(cindex[i'], startIndex[i'], k))
      {
        var kind := KernelForAxis(derivativeDirection, i);
        var x := cindex[i] - startIndex[i] as real;
        for k := 0 to SupportSize
          invariant x == SamplePosition(cindex[i], startIndex[i], k)
          invariant forall i', k' :: 0 <= i' < i && 0 <= k' < SupportSize ==>
            weights1D[i', k'] == Evaluate(KernelForAxis(derivativeDirection, i'), SamplePosition(cindex[i'], startIndex[i'], k'))
          invariant forall k' :: 0 <= k' < k ==>
            weights1D[i, k'] == Evaluate(kind, SamplePosition(cindex[i], startIndex[i], k'))
        {
          weights1D[i, k] := Evaluate(kind, x);
          x := x - 1.0;
        }
      }
      forall i | 0 <= i < spaceDimension && WindowCoversSupport(cindex[i], startIndex[i])
        ensures weights1D[i, 0] + weights1D[i, 1] + weights1D[i, 2] + weights1D[i, 3]
             == if i == derivativeDirection then 0.0 else 1.0
      {
        FilledWeightsSumPerAxis(derivativeDirection, cindex, startIndex, weights1D, i);
      }
    }
  }

  /** The derivative-axis weights sum to zero, the others to one, over a covering window. */
  lemma WeightsSumPerAxis(derivativeDirection: nat, axis: nat, x: real, start: int)
    requires WindowCoversSupport(x, start)
    ensures Sum(OneDWeights(KernelForAxis(derivativeDirection, axis), x, start))
         == if axis == derivativeDirection then 0.0 else 1.0
  {
    if axis == derivativeDirection {
      DerivativeWeightsSumToZero(FirstDerivative, x, start);
    } else {
      ValueWeightsSumToOne(x, start);
    }
  }

  /**
   A row of weights1D filled as Compute1DWeights fills it sums to zero on the
   derivative axis and to one on every other axis, when its window covers the
   kernel support.
   */
  lemma FilledWeightsSumPerAxis(derivativeDirection: nat, cindex: seq<real>, startIndex: seq<int>,
                                weights1D: array2<real>, axis: nat)
    requires |cindex| == |startIndex| == weights1D.Length0 && weights1D.Length1 == SupportSize
    requires axis < weights1D.Length0
    requires forall k :: 0 <= k < SupportSize ==>
      weights1D[axis, k] == Evaluate(KernelForAxis(derivativeDirection, axis), SamplePosition(cindex[axis], startIndex[axis], k))
    requires WindowCoversSupport(cindex[axis], startIndex[axis])
    ensures weights1D[axis, 0] + weights1D[axis, 1] + weights1D[axis, 2] + weights1D[axis, 3]
         == if axis == derivativeDirection then 0.0 else 1.0
  {
    var w := OneDWeights(KernelForAxis(derivativeDirection, axis), cindex[axis], startIndex[axis]);
    WeightsSumPerAxis(derivativeDirection, axis, cindex[axis], startIndex[axis]);
    SumOfFour(w);
    assert weights1D[axis, 0] == w[0] && weights1D[axis, 1] == w[1];
    assert weights1D[axis, 2] == w[2] && weights1D[axis, 3] == w[3];
  }
}
