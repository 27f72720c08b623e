/**
 The second-order derivative B-spline weight function
 (BSplineInterpolationSecondOrderDerivativeWeightFunction): it holds two
 derivative directions and a cached flag saying whether they are equal.
 Compute1DWeights uses, per axis,
   beta1(t + 1) - 2 beta1(t) + beta1(t - 1)  on an axis that is both directions,
   beta2(t + 1/2) - beta2(t - 1/2)           on an axis that is one of two distinct directions,
   beta3(t)                                   on every other axis.
 */
module SecondOrderDerivativeWeightFunction {
  import opened BSplineKernels
  import opened WeightFunctionBase
  import DerivativeWeightFunction

  /**
   The kernel selection as the weight function makes it, from the two
   directions and the cached equality flag: beta3 exactly on the axes that are
   neither direction, and a derivative kernel on the others.
   */
  function KernelForAxis(dir0: nat, dir1: nat, equalDirections: bool, axis: nat): (r: KernelKind)
    ensures r == Value <==> axis != dir0 && axis != dir1
  {
    if axis != dir0 && axis != dir1 then Value
    else if equalDirections then SecondDerivative
    else FirstDerivative
  }

  class BSplineInterpolationSecondOrderDerivativeWeightFunction {
    /** SpaceDimension, a template parameter of the source. */
    const spaceDimension: nat
    /** m_DerivativeDirections */
    var derivativeDirections: (nat, nat)
    /** m_EqualDerivativeDirections, cached so that Compute1DWeights need not compare. */
    var equalDerivativeDirections: bool

    ghost predicate Valid()
      reads this
    {
      && derivativeDirections.0 < spaceDimension
      && derivativeDirections.1 < spaceDimension
      && equalDerivativeDirections == (derivativeDirections.0 == derivativeDirections.1)
    }

    constructor (spaceDimension: nat)
      requires spaceDimension >= 1
      ensures Valid()
      ensures this.spaceDimension == spaceDimension
      ensures derivativeDirections == (0, 0) && equalDerivativeDirections
    {
      this.spaceDimension := spaceDimension;
      derivativeDirections := (0, 0);
      equalDerivativeDirections := true;
    }

    /**
     Stores both directions and refreshes the equality flag; a direction
     outside the space is refused and nothing changes.
     */
    method SetDerivativeDirections(dir0: nat, dir1: nat) returns (ok: bool)
      requires Valid()
      modifies this
      ensures Valid()
      ensures ok <==> dir0 < spaceDimension && dir1 < spaceDimension
      ensures derivativeDirections == if ok then (dir0, dir1) else old(derivativeDirections)
      ensures ok ==> (equalDerivativeDirections <==> dir0 == dir1)
      ensures !ok ==> equalDerivativeDirections == old(equalDerivativeDirections)
    {
      ok := dir0 < spaceDimension && dir1 < spaceDimension;
      if ok {
        derivativeDirections := (dir0, dir1);
        equalDerivativeDirections := false;
        if dir0 == dir1 {
          equalDerivativeDirections := true;
        }
      }
    }

    /**
     Fills weights1D[i, k] for every axis i and k in [0, SupportSize) with the
     kernel selected for axis i at x[i] - startIndex[i] - k. Changes nothing
     but weights1D. On every axis whose window covers the kernel support, the
     filled row sums to zero on a derivative axis and to one elsewhere.
     */
    method Compute1DWeights(cindex: seq<real>, startIndex: seq<int>, weights1D: array2<real>)
      requires Valid()
      requires |cindex| == spaceDimension && |startIndex| == spaceDimension
      requires weights1D.Length0 == spaceDimension && weights1D.Length1 == SupportSize
      modifies weights1D
      ensures forall i, k :: 0 <= i < spaceDimension && 0 <= k < SupportSize ==>
        var t := SamplePosition(cindex[i], startIndex[i], k);
        weights1D[i, k] == (if i == derivativeDirections.0 && i == derivativeDirections.1 then SecondOrderDerivativeKernel(t)
                            else if i == derivativeDirections.0 || i == derivativeDirections.1 then DerivativeKernel(t)
                            else Beta3(t))
      ensures forall i :: 0 <= i < spaceDimension && WindowCoversSupport(cindex[i], startIndex[i]) ==>
        weights1D[i, 0] + weights1D[i, 1] + weights1D[i, 2] + weights1D[i, 3]
        == if i == derivativeDirections.0 || i == derivativeDirections.1 then 0.0 else 1.0
    {
      var dir0, dir1 := derivativeDirections.0, derivativeDirections.1;
      for i := 0 to spaceDimension
        invariant forall i', k :: 0 <= i' < i && 0 <= k < SupportSize ==>
          weights1D[i', k] == Evaluate(KernelForAxis(dir0, dir1, equalDerivativeDirections, i'), SamplePosition(cindex[i'], startIndex[i'], k))
      {
        var kind := KernelForAxis(dir0, dir1, equalDerivativeDirections, i);
        var x := cindex[i] - startIndex[i] as real;
        for k := 0 to SupportSize
          invariant x == SamplePosition(cindex[i], startIndex[i], k)
          invariant forall i', k' :: 0 <= i' < i && 0 <= k' < SupportSize ==>
            weights1D[i', k'] == Evaluate(KernelForAxis(dir0, dir1, equalDerivativeDirections, i'), SamplePosition(cindex[i'], startIndex[i'], k'))
          invariant forall k' :: 0 <= k' < k ==>
            weights1D[i, k'] == Evaluate(kind, SamplePosition(cindex[i], startIndex[i], k'))
        {
          weights1D[i, k] := Evaluate(kind, x);
          x := x - 1.0;
        }
      }
      forall i | 0 <= i < spaceDimension && WindowCoversSupport(cindex[i], startIndex[i])
        ensures weights1D[i, 0] + weights1D[i, 1] + weights1D[i, 2] + weights1D[i, 3]
             == if i == dir0 || i == dir1 then 0.0 else 1.0
      {
        FilledWeightsSumPerAxis(dir0, dir1, cindex, startIndex, weights1D, i);
      }
    }
  }

  /**
   With a flag that is correct, the selection follows axis membership alone:
   the same-axis kernel exactly on an axis equal to both directions, the
   first-derivative kernel exactly on an axis equal to one of two distinct
   directions, beta3 exactly on the other axes.
   */
  lemma SelectionRule(dir0: nat, dir1: nat, axis: nat)
    ensures KernelForAxis(dir0, dir1, dir0 == dir1, axis) == SecondDerivative
        <==> axis == dir0 && axis == dir1
    ensures KernelForAxis(dir0, dir1, dir0 == dir1, axis) == FirstDerivative
        <==> dir0 != dir1 && (axis == dir0 || axis == dir1)
    ensures KernelForAxis(dir0, dir1, dir0 == dir1, axis) == Value
        <==> axis != dir0 && axis != dir1
  {
  }

  /** Swapping the two directions selects the same kernel on every axis. */
  lemma DirectionSwapSymmetry(dir0: nat, dir1: nat, axis: nat)
    ensures KernelForAxis(dir0, dir1, dir0 == dir1, axis) == KernelForAxis(dir1, dir0, dir1 == dir0, axis)
  {
  }

  /**
   On an axis that is one of two distinct directions, the weights are those
   the first-order derivative weight function computes along that axis.
   */
  lemma AgreesWithFirstOrderOnDerivativeAxis(dir0: nat, dir1: nat, axis: nat, x: real, start: int)
    requires dir0 != dir1
    requires axis == dir0 || axis == dir1
    ensures OneDWeights(KernelForAxis(dir0, dir1, false, axis), x, start)
         == OneDWeights(DerivativeWeightFunction.KernelForAxis(axis, axis), x, start)
  {
  }

  /**
   Over a covering window the weights of a derivative axis sum to zero and
   those of every other axis to one.
   */
  lemma WeightsSumPerAxis(dir0: nat, dir1: nat, axis: nat, x: real, start: int)
    requires WindowCoversSupport(x, start)
    ensures Sum(OneDWeights(KernelForAxis(dir0, dir1, dir0 == dir1, axis), x, start))
         == if axis == dir0 || axis == dir1 then 0.0 else 1.0
  {
    var kind := KernelForAxis(dir0, dir1, dir0 == dir1, axis);
    if axis == dir0 || axis == dir1 {
      DerivativeWeightsSumToZero(kind, x, start);
    } else {
      ValueWeightsSumToOne(x, start);
    }
  }

  /**
   A row of weights1D filled as Compute1DWeights fills it sums to zero on an
   axis that is a derivative direction and to one on every other axis, when
   its window covers the kernel support.
   */
  lemma FilledWeightsSumPerAxis(dir0: nat, dir1: nat, cindex: seq<real>, startIndex: seq<int>,
                                weights1D: array2<real>, axis: nat)
    requires |cindex| == |startIndex| == weights1D.Length0 && weights1D.Length1 == SupportSize
    requires axis < weights1D.Length0
    requires forall k :: 0 <= k < SupportSize ==>
      weights1D[axis, k] == Evaluate(KernelForAxis(dir0, dir1, dir0 == dir1, axis), SamplePosition(cindex[axis], startIndex[axis], k))
    requires WindowCoversSupport(cindex[axis], startIndex[axis])
    ensures weights1D[axis, 0] + weights1D[axis, 1] + weights1D[axis, 2] + weights1D[axis, 3]
         == if axis == dir0 || axis == dir1 then 0.0 else 1.0
  {
    var w := OneDWeights(KernelForAxis(dir0, dir1, dir0 == dir1, axis), cindex[axis], startIndex[axis]);
    WeightsSumPerAxis(dir0, dir1, axis, cindex[axis], startIndex[axis]);
    SumOfFour(w);
    assert weights1D[axis, 0] == w[0] && weights1D[axis, 1] == w[1];
    assert weights1D[axis, 2] == w[2] && weights1D[axis, 3] == w[3];
  }

  /**
   Two instances configured with swapped directions fill identical 1-D
   weights for the same query.
   */
  method SwappedDirectionsGiveSameWeights(
    f: BSplineInterpolationSecondOrderDerivativeWeightFunction,
    g: BSplineInterpolationSecondOrderDerivativeWeightFunction,
    dir0: nat, dir1: nat, cindex: seq<real>, startIndex: seq<int>,
    wf: array2<real>, wg: array2<real>)
    requires f.Valid() && g.Valid() && f.spaceDimension == g.spaceDimension
    requires dir0 < f.spaceDimension && dir1 < f.spaceDimension
    requires |cindex| == f.spaceDimension && |startIndex| == f.spaceDimension
    requires wf.Length0 == f.spaceDimension && wf.Length1 == SupportSize
    requires wg.Length0 == f.spaceDimension && wg.Length1 == SupportSize
    requires wf != wg
    modifies f, g, wf, wg
    ensures f != g ==> f.derivativeDirections == (dir0, dir1) && g.derivativeDirections == (dir1, dir0)
    ensures f == g ==> f.derivativeDirections == (dir1, dir0)
    ensures forall i, k :: 0 <= i < f.spaceDimension && 0 <= k < SupportSize ==> wf[i, k] == wg[i, k]
  {
    var okF := f.SetDerivativeDirections(dir0, dir1);
    var okG := g.SetDerivativeDirections(dir1, dir0);
    f.Compute1DWeights(cindex, startIndex, wf);
    g.Compute1DWeights(cindex, startIndex, wg);
  }
}
