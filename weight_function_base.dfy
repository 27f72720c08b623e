/**
 What the derivative weight functions share with their base class, for the
 cubic case: the support width, the three 1-D kernels a weight function can
 select per axis, the sample positions x - start - k, and the placement of the
 start index that makes the four samples cover the kernel support.
 The base class itself (support-region placement, N-D outer product) is not
 part of this model; only the placement condition is assumed here.
 */
module WeightFunctionBase {
  import opened BSplineKernels

  /** The spline order the weight functions are instantiated with. */
  const SplineOrder: nat := 3

  /** Number of 1-D weights per axis. */
  const SupportSize: nat := SplineOrder + 1

  /** The 1-D kernel a weight function selects for one axis. */
  datatype KernelKind = Value | FirstDerivative | SecondDerivative

  function Evaluate(kind: KernelKind, t: real): real
  {
    match kind
    case Value => Beta3(t)
    case FirstDerivative => DerivativeKernel(t)
    case SecondDerivative => SecondOrderDerivativeKernel(t)
  }

  /** The k-th sample position of an axis whose continuous index is x and start index is start. */
  function SamplePosition(x: real, start: int, k: nat): real
  {
    x - start as real - k as real
  }

  /** The 1-D weights of one axis: the selected kernel at the SupportSize sample positions. */
  function OneDWeights(kind: KernelKind, x: real, start: int): seq<real>
  {
    seq(SupportSize, k requires 0 <= k < SupportSize => Evaluate(kind, SamplePosition(x, start, k)))
  }

  function Sum(s: seq<real>): real
  {
    if s == [] then 0.0 else s[0] + Sum(s[1..])
  }

  /**
   The start index places the window so that it covers the support of every
   kernel: 1 <= x - start <= 2. For an odd order the base class takes
   start = floor(x) - 1, which satisfies it (see FloorPlacementCoversSupport).
   */
  predicate WindowCoversSupport(x: real, start: int)
  {
    1.0 <= x - start as real <= 2.0
  }

  /** The start index of the odd-order placement. */
  function StartIndex(x: real): int
  {
    x.Floor - 1
  }

  lemma FloorPlacementCoversSupport(x: real)
    ensures WindowCoversSupport(x, StartIndex(x))
  {
  }

  lemma {:induction false} SumOfFour(w: seq<real>)
    requires |w| == 4
    ensures Sum(w) == w[0] + w[1] + w[2] + w[3]
  {
    assert w[1..][1..][1..][1..] == [];
    assert Sum(w[1..][1..][1..]) == w[3];
    assert Sum(w[1..][1..]) == w[2] + w[3];
    assert Sum(w[1..]) == w[1] + w[2] + w[3];
  }

  /** Partition of unity: plain value weights sum to one over a covering window. */
  lemma ValueWeightsSumToOne(x: real, start: int)
    requires WindowCoversSupport(x, start)
    ensures Sum(OneDWeights(Value, x, start)) == 1.0
  {
    var u := x - start as real;
    var w := OneDWeights(Value, x, start);
    SumOfFour(w);
    assert w[0] == Beta3(u) && w[1] == Beta3(u - 1.0) && w[2] == Beta3(u - 2.0) && w[3] == Beta3(u - 3.0);
    Beta3PartitionOfUnity(u);
  }

  /** Weights of a derivative kernel, first or second order, sum to zero over a covering window. */
  lemma DerivativeWeightsSumToZero(kind: KernelKind, x: real, start: int)
    requires kind != Value
    requires WindowCoversSupport(x, start)
    ensures Sum(OneDWeights(kind, x, start)) == 0.0
  {
    var u := x - start as real;
    var w := OneDWeights(kind, x, start);
    SumOfFour(w);
    assert w[0] == Evaluate(kind, u) && w[1] == Evaluate(kind, u - 1.0);
    assert w[2] == Evaluate(kind, u - 2.0) && w[3] == Evaluate(kind, u - 3.0);
    if kind == FirstDerivative {
      DerivativeKernelSumsToZero(u);
    } else {
      SecondOrderDerivativeKernelSumsToZero(u);
    }
  }

  /**
   The same-axis second-derivative weights are not the squares of the
   first-derivative weights: at the window of x = 2.5 the sample at t = 0.5
   is -1/2 for the former and 25/64 for the latter.
   */
  lemma SameAxisFormulaIsNotSquaredFirstDerivative()
    ensures OneDWeights(SecondDerivative, 2.5, 1)[1]
         != OneDWeights(FirstDerivative, 2.5, 1)[1] * OneDWeights(FirstDerivative, 2.5, 1)[1]
  {
    assert OneDWeights(SecondDerivative, 2.5, 1)[1] == SecondOrderDerivativeKernel(0.5) == -0.5;
    assert OneDWeights(FirstDerivative, 2.5, 1)[1] == DerivativeKernel(0.5) == -0.625;
  }

  /**
   The concrete query x = 2.5: the start index is 1 and the sample positions
   are 1.5, 0.5, -0.5, -1.5. The next three lemmas give the weights there.
   */
  lemma StartIndexAtTwoAndAHalf()
    ensures StartIndex(2.5) == 1
    ensures WindowCoversSupport(2.5, 1)
  {
    assert 2.5.Floor == 2;
  }

  lemma ValueWeightsAtTwoAndAHalf()
    ensures OneDWeights(Value, 2.5, 1) == [1.0 / 48.0, 23.0 / 48.0, 23.0 / 48.0, 1.0 / 48.0]
  {
    var v := OneDWeights(Value, 2.5, 1);
    assert v[0] == Beta3(1.5) == 1.0 / 48.0;
    assert v[1] == Beta3(0.5) == 23.0 / 48.0;
    assert v[2] == Beta3(-0.5) == 23.0 / 48.0;
    assert v[3] == Beta3(-1.5) == 1.0 / 48.0;
  }

  lemma DerivativeWeightsAtTwoAndAHalf()
    ensures OneDWeights(FirstDerivative, 2.5, 1) == [-0.125, -0.625, 0.625, 0.125]
  {
    var d := OneDWeights(FirstDerivative, 2.5, 1);
    assert d[0] == DerivativeKernel(1.5) == -0.125;
    assert d[1] == DerivativeKernel(0.5) == -0.625;
    assert d[2] == DerivativeKernel(-0.5) == 0.625;
    assert d[3] == DerivativeKernel(-1.5) == 0.125;
  }

  lemma SecondOrderWeightsAtTwoAndAHalf()
    ensures OneDWeights(SecondDerivative, 2.5, 1) == [0.5, -0.5, -0.5, 0.5]
  {
    var s := OneDWeights(SecondDerivative, 2.5, 1);
    assert s[0] == SecondOrderDerivativeKernel(1.5) == 0.5;
    assert s[1] == SecondOrderDerivativeKernel(0.5) == -0.5;
    assert s[2] == SecondOrderDerivativeKernel(-0.5) == -0.5;
    assert s[3] == SecondOrderDerivativeKernel(-1.5) == 0.5;
  }
}
