# Translation transform and B-spline derivative weight functions, in Dafny

This project models two small pieces of the elastix registration library:

- **The advanced translation transform** (`AdvancedTranslationTransform`),
  T(p) = p + offset. Its parameters are the offset components.
  `SetParameters` copies them and calls `Modified()` only when a component
  really changed. `Translate` and `Compose` add offsets. `GetInverse` writes
  the negated offset into another transform. `SetIdentity` zeroes the offset.
  The Jacobian with respect to the parameters (the identity), the spatial
  Jacobian (the identity), the zero spatial Hessians and the nonzero-Jacobian
  indices 0..P-1 are constants. The constructor builds them, and the
  `Get*Jacobian` / `Get*Hessian` queries return them whatever the point.
  `Modified()` is modelled by a modification counter `mtime`.
- **The per-axis kernel selection of the B-spline derivative weight
  functions.** `Compute1DWeights` fills, for every axis i and k = 0..3, the
  weight at t = x[i] - startIndex[i] - k. On a plain axis it uses beta3(t).
  The first-order function uses beta2(t + 1/2) - beta2(t - 1/2) on its
  derivative direction. The second-order function uses that same kernel on an
  axis that is one of two distinct directions. On the axis of two equal
  directions it uses beta1(t + 1) - 2 beta1(t) + beta1(t - 1). It decides this
  from a cached flag `m_EqualDerivativeDirections`.

Coordinates, offsets and weights are exact reals. The kernels beta1, beta2
and beta3 are the centred B-splines, written as piecewise polynomials.

Files:

- `vectors.dfy`: component-wise vector helpers and the constant matrices.
- `translation_transform.dfy`: module `TranslationTransform`, the class and
  the lemmas and client methods about it.
- `bspline_kernels.dfy`: module `BSplineKernels`, the kernels, their bounds
  and supports, partition of unity and the telescoping zero sums.
- `weight_function_base.dfy`: module `WeightFunctionBase`, what both weight
  functions share: the support width 4, the kernel kinds, the sample positions
  and the covering-window condition.
- `derivative_weight_function.dfy`: module `DerivativeWeightFunction`.
- `second_order_derivative_weight_function.dfy`: module
  `SecondOrderDerivativeWeightFunction`.

The weight-function base class is not part of this model. It owns
start-index placement and the N-D outer product. The model assumes its
odd-order placement start = floor(x) - 1 (`WeightFunctionBase.StartIndex`).
The sum properties need only the weaker condition that the window covers
the kernel support, 1 <= x - start <= 2 (`WindowCoversSupport`), and
`WeightFunctionBase.FloorPlacementCoversSupport` proves that the assumed
placement meets it.

The `.hxx` bodies of the two weight functions are not part of this model.
Their `Compute1DWeights` is modelled from the header doc comments. The
headers declare the direction setters but do not say what happens to a
direction outside [0, SpaceDimension). The model makes a choice here: its
setters refuse such a direction, leave the state unchanged and return
`ok == false`. The model also starts the directions at 0 (the flag at true),
so that the class invariant holds from construction.

## Model

| member | source | states |
|---|---|---|
| `TranslationTransform.AdvancedTranslationTransform.constructor` | Common/Transforms/itkAdvancedTranslationTransform.hxx:44-77 | the offset starts all zeros; the local Jacobian is the SpaceDimension x ParametersDimension identity (zero fill, then ones on the diagonal); the nonzero Jacobian indices are exactly 0..P-1 in order; the spatial Jacobian is the identity; the Hessian constants are zero; both "has non-zero spatial Hessian" flags are false |
| `TranslationTransform.AdvancedTranslationTransform.SetParameters` | Common/Transforms/itkAdvancedTranslationTransform.hxx:91-106 | afterwards offset[i] == p[i] for every i < SpaceDimension; `Modified()` fires exactly when some component differed, so re-setting identical parameters leaves the modification time unchanged |
| `TranslationTransform.AdvancedTranslationTransform.GetParameters` | Common/Transforms/itkAdvancedTranslationTransform.hxx:112-119 | refreshes the parameter buffer from the offset and returns exactly the current offset; nothing else changes |
| `TranslationTransform.AdvancedTranslationTransform.Translate` | Common/Transforms/itkAdvancedTranslationTransform.hxx:145-154 | the new offset is the old offset plus v component-wise; it counts as a modification exactly when some component of v is non-zero; the flag argument has no effect |
| `TranslationTransform.AdvancedTranslationTransform.Compose` | Common/Transforms/itkAdvancedTranslationTransform.hxx:135-139 | the same effect as `Translate(other.offset)`, also when other is this transform |
| `TranslationTransform.AdvancedTranslationTransform.TransformPoint` | Common/Transforms/itkAdvancedTranslationTransform.hxx:160-163 | the image of p is p + offset, component by component |
| `TranslationTransform.AdvancedTranslationTransform.TransformVector` | Common/Transforms/itkAdvancedTranslationTransform.hxx:169-181 | vectors (both overloads) are returned unchanged |
| `TranslationTransform.AdvancedTranslationTransform.TransformCovariantVector` | Common/Transforms/itkAdvancedTranslationTransform.hxx:187-191 | covariant vectors are returned unchanged |
| `TranslationTransform.AdvancedTranslationTransform.GetInverse` | Common/Transforms/itkAdvancedTranslationTransform.hxx:197-206 | with no target object it returns false and changes nothing; otherwise the target's offset becomes the negated offset (without a `Modified()` on the target) and it returns true |
| `TranslationTransform.AdvancedTranslationTransform.GetJacobian` | Common/Transforms/itkAdvancedTranslationTransform.hxx:215-222 | at every point the Jacobian is the identity and the nonzero indices are 0..P-1 |
| `TranslationTransform.AdvancedTranslationTransform.GetSpatialJacobian` | Common/Transforms/itkAdvancedTranslationTransform.hxx:231-236 | at every point the spatial Jacobian is the identity |
| `TranslationTransform.AdvancedTranslationTransform.GetSpatialHessian` | Common/Transforms/itkAdvancedTranslationTransform.hxx:245-250 | at every point the spatial Hessian is SpaceDimension zero matrices |
| `TranslationTransform.AdvancedTranslationTransform.GetJacobianOfSpatialJacobian` | Common/Transforms/itkAdvancedTranslationTransform.hxx:259-266 | at every point one zero matrix per parameter, with the indices 0..P-1 |
| `TranslationTransform.AdvancedTranslationTransform.GetJacobianOfSpatialHessian` | Common/Transforms/itkAdvancedTranslationTransform.hxx:293-301 | at every point one zero spatial Hessian per parameter, with the indices 0..P-1 |
| `TranslationTransform.AdvancedTranslationTransform.SetIdentity` | Common/Transforms/itkAdvancedTranslationTransform.hxx:327-330 | the offset becomes all zeros; the modification time is not advanced |
| `TranslationTransform.TranslateTwice` | Common/Transforms/itkAdvancedTranslationTransform.hxx:145-154 | translation is additive: after `Translate(a)` and then `Translate(b)` the offset is the old offset plus (a + b) |
| `TranslationTransform.InverseUndoesTransform` | Common/Transforms/itkAdvancedTranslationTransform.hxx:197-206 | a transform holding the negated offset undoes the transform, applied after it or before it |
| `TranslationTransform.IdentityLeavesPointsUnchanged` | Common/Transforms/itkAdvancedTranslationTransform.hxx:327-330 | with the zero offset of `SetIdentity`, every point maps to itself |
| `TranslationTransform.VectorsAreDifferencesOfPoints` | Common/Transforms/itkAdvancedTranslationTransform.hxx:160-172 | the unchanged image of a vector q - p is the difference of the images of q and p |
| `TranslationTransform.SetGetRoundTrip` | Common/Transforms/itkAdvancedTranslationTransform.hxx:91-119 | after `SetParameters(p)` and `GetParameters` the transform's offset and the returned parameters are both p's first SpaceDimension entries |
| `TranslationTransform.ReapplyingParametersIsNotAModification` | Common/Transforms/itkAdvancedTranslationTransform.hxx:93-105 | setting the parameters `GetParameters` returned changes neither the offset nor the modification time |
| `TranslationTransform.TranslateShiftsEveryImage` | Common/Transforms/itkAdvancedTranslationTransform.hxx:145-163 | after `Translate(v)` the transform's image of p is its image of p before the call plus v |
| `TranslationTransform.InverseRoundTrip` | Common/Transforms/itkAdvancedTranslationTransform.hxx:197-206 | `GetInverse` into a distinct transform succeeds, and afterwards the inverse maps T(p) back to p and T maps the inverse's image of p back to p |
| `BSplineKernels.Beta1` | Common/Transforms/itkBSplineInterpolationSecondOrderDerivativeWeightFunction.h:93 | beta1 lies in [0, 1] and vanishes for abs(t) >= 1 |
| `BSplineKernels.Beta2` | Common/Transforms/itkBSplineInterpolationDerivativeWeightFunction.h:90 | beta2 lies in [0, 3/4] and vanishes for abs(t) >= 3/2 |
| `BSplineKernels.Beta3` | Common/Transforms/itkBSplineInterpolationDerivativeWeightFunction.h:91-92 | beta3 lies in [0, 2/3] and vanishes for abs(t) >= 2 |
| `BSplineKernels.DerivativeKernel` | Common/Transforms/itkBSplineInterpolationDerivativeWeightFunction.h:90 | beta2(t+1/2) - beta2(t-1/2) lies in [-3/4, 3/4] and vanishes for abs(t) >= 2, the support of beta3 |
| `BSplineKernels.SecondOrderDerivativeKernel` | Common/Transforms/itkBSplineInterpolationSecondOrderDerivativeWeightFunction.h:93 | beta1(t+1) - 2 beta1(t) + beta1(t-1) lies in [-2, 1] and vanishes for abs(t) >= 2 |
| `BSplineKernels.Beta3PartitionOfUnity` | Common/Transforms/itkBSplineInterpolationDerivativeWeightFunction.h:87-92 | the four beta3 samples at u, u-1, u-2, u-3 sum to one for 1 <= u <= 2 |
| `BSplineKernels.DerivativeKernelSumsToZero` | Common/Transforms/itkBSplineInterpolationDerivativeWeightFunction.h:87-91 | the four samples of beta2(t+1/2) - beta2(t-1/2) sum to zero for 1 <= u <= 2 |
| `BSplineKernels.SecondOrderDerivativeKernelSumsToZero` | Common/Transforms/itkBSplineInterpolationSecondOrderDerivativeWeightFunction.h:88-94 | the four samples of beta1(t+1) - 2 beta1(t) + beta1(t-1) sum to zero for 1 <= u <= 2 |
| `WeightFunctionBase.ValueWeightsSumToOne` | Common/Transforms/itkBSplineInterpolationDerivativeWeightFunction.h:87-93 | the plain-axis weights sum to one over a covering window |
| `WeightFunctionBase.DerivativeWeightsSumToZero` | Common/Transforms/itkBSplineInterpolationSecondOrderDerivativeWeightFunction.h:88-94 | the weights of either derivative kernel sum to zero over a covering window |
| `WeightFunctionBase.SameAxisFormulaIsNotSquaredFirstDerivative` | Common/Transforms/itkBSplineInterpolationSecondOrderDerivativeWeightFunction.h:91-94 | the equal-directions kernel differs from squaring the first-derivative weights; at x = 2.5 the second weight is -1/2 against 25/64 |
| `WeightFunctionBase.StartIndexAtTwoAndAHalf` | Common/Transforms/itkBSplineInterpolationDerivativeWeightFunction.h:94-97 | about the assumed base-class placement that supplies `startIndex`: for x = 2.5 it gives start index 1, so the samples sit at 1.5, 0.5, -0.5, -1.5 and the window covers the support |
| `WeightFunctionBase.ValueWeightsAtTwoAndAHalf` | Common/Transforms/itkBSplineInterpolationSecondOrderDerivativeWeightFunction.h:95 | at x = 2.5 the plain weights are 1/48, 23/48, 23/48, 1/48 |
| `WeightFunctionBase.DerivativeWeightsAtTwoAndAHalf` | Common/Transforms/itkBSplineInterpolationSecondOrderDerivativeWeightFunction.h:91-92 | at x = 2.5 the first-derivative weights are -1/8, -5/8, 5/8, 1/8 |
| `WeightFunctionBase.SecondOrderWeightsAtTwoAndAHalf` | Common/Transforms/itkBSplineInterpolationSecondOrderDerivativeWeightFunction.h:93-94 | at x = 2.5 the same-axis second-derivative weights are 1/2, -1/2, -1/2, 1/2 |
| `DerivativeWeightFunction.BSplineInterpolationDerivativeWeightFunction.constructor` | Common/Transforms/itkBSplineInterpolationDerivativeWeightFunction.h:77 | a new instance holds a valid derivative direction (0) |
| `DerivativeWeightFunction.BSplineInterpolationDerivativeWeightFunction.SetDerivativeDirection` | Common/Transforms/itkBSplineInterpolationDerivativeWeightFunction.h:73-74 | stores dir as the single piece of state when dir < SpaceDimension; otherwise reports failure and keeps the old direction |
| `DerivativeWeightFunction.BSplineInterpolationDerivativeWeightFunction.Compute1DWeights` | Common/Transforms/itkBSplineInterpolationDerivativeWeightFunction.h:87-97 | for every axis i and k = 0..3, weights1D[i, k] is the kernel at x[i] - startIndex[i] - k: beta2(t+1/2) - beta2(t-1/2) on the derivative axis and beta3(t) on every other axis; on each axis whose window covers the support, the four weights sum to zero on the derivative axis and to one elsewhere; only weights1D changes |
| `DerivativeWeightFunction.KernelForAxis` | Common/Transforms/itkBSplineInterpolationDerivativeWeightFunction.h:90-92 | selects the first-derivative kernel exactly on the derivative direction and beta3 on every other axis; it never selects the same-axis second-derivative kernel |
| `DerivativeWeightFunction.FilledWeightsSumPerAxis` | Common/Transforms/itkBSplineInterpolationDerivativeWeightFunction.h:87-92 | a row of `weights1D` filled as `Compute1DWeights` fills it sums to zero on the derivative axis and to one on every other axis, when the window covers the kernel support |
| `DerivativeWeightFunction.WeightsSumPerAxis` | Common/Transforms/itkBSplineInterpolationDerivativeWeightFunction.h:87-92 | over a covering window the derivative axis's weights sum to zero and every other axis's to one |
| `SecondOrderDerivativeWeightFunction.BSplineInterpolationSecondOrderDerivativeWeightFunction.constructor` | Common/Transforms/itkBSplineInterpolationSecondOrderDerivativeWeightFunction.h:78 | a new instance holds valid directions (0, 0) with the equality flag set |
| `SecondOrderDerivativeWeightFunction.BSplineInterpolationSecondOrderDerivativeWeightFunction.SetDerivativeDirections` | Common/Transforms/itkBSplineInterpolationSecondOrderDerivativeWeightFunction.h:73-75 | stores both directions when both are valid axes, and then the cached flag equals (dir0 == dir1); otherwise reports failure and changes nothing |
| `SecondOrderDerivativeWeightFunction.BSplineInterpolationSecondOrderDerivativeWeightFunction.Compute1DWeights` | Common/Transforms/itkBSplineInterpolationSecondOrderDerivativeWeightFunction.h:88-100 | for every axis i and k = 0..3, weights1D[i, k] is, at t = x[i] - startIndex[i] - k: beta1(t+1) - 2 beta1(t) + beta1(t-1) on an axis equal to both directions, beta2(t+1/2) - beta2(t-1/2) on an axis equal to exactly one, beta3(t) elsewhere; the flag-based choice agrees with this rule; on each axis whose window covers the support, the four weights sum to zero on a derivative axis and to one elsewhere; only weights1D changes |
| `SecondOrderDerivativeWeightFunction.KernelForAxis` | Common/Transforms/itkBSplineInterpolationSecondOrderDerivativeWeightFunction.h:91-95 | the flag-based choice: beta3 exactly on the axes that are neither direction, a derivative kernel on the others; which one follows the flag (see `SelectionRule`) |
| `SecondOrderDerivativeWeightFunction.SelectionRule` | Common/Transforms/itkBSplineInterpolationSecondOrderDerivativeWeightFunction.h:91-95 | with a correct flag, each of the three kernels is selected exactly on its class of axes (both directions / one of two distinct directions / neither) |
| `SecondOrderDerivativeWeightFunction.DirectionSwapSymmetry` | Common/Transforms/itkBSplineInterpolationSecondOrderDerivativeWeightFunction.h:88-96 | swapping the two directions selects the same kernel on every axis |
| `SecondOrderDerivativeWeightFunction.AgreesWithFirstOrderOnDerivativeAxis` | Common/Transforms/itkBSplineInterpolationSecondOrderDerivativeWeightFunction.h:91-92 | on an axis that is one of two distinct directions the weights equal the first-order function's weights along that axis |
| `SecondOrderDerivativeWeightFunction.WeightsSumPerAxis` | Common/Transforms/itkBSplineInterpolationSecondOrderDerivativeWeightFunction.h:88-95 | over a covering window a derivative axis's weights sum to zero and every other axis's to one |
| `SecondOrderDerivativeWeightFunction.FilledWeightsSumPerAxis` | Common/Transforms/itkBSplineInterpolationSecondOrderDerivativeWeightFunction.h:88-95 | a row of `weights1D` filled as `Compute1DWeights` fills it sums to zero on an axis that is a derivative direction and to one on every other axis, when the window covers the kernel support |
| `SecondOrderDerivativeWeightFunction.SwappedDirectionsGiveSameWeights` | Common/Transforms/itkBSplineInterpolationSecondOrderDerivativeWeightFunction.h:88-100 | two distinct instances end up holding (a, b) and (b, a), and they fill identical weights for the same query |

## Left out

- Floating point: all arithmetic is over exact reals. In double precision,
  a non-zero but tiny translation can leave the offset unchanged, and then
  no `Modified()` is called. NaN is not modelled.
- `Modified()` advances one global ITK time stamp. Here it advances a
  per-object counter by one.
- Spline orders other than 3: the doc comments describe only the cubic case
  (beta3, four samples per axis).
- The weight-function base class: the N-D outer product of the per-axis
  weights, `ComputeWeights`, and the kernel objects and lookup tables it
  evaluates through. Its odd-order start-index placement is assumed as
  `StartIndex(x) = floor(x) - 1`, not taken from its code; the even-order
  placement is not modelled.
- The `.hxx` bodies of the two weight functions are not part of this model.
  Any `Modified()` call in their direction setters is not modelled.
- The direction setters are `void` in the source. The `ok` result, and the
  refusal of a direction outside the space, exist only in the model.
- `m_DerivativeDirections` is stored as two doubles in the source. Here it is
  a pair of naturals.
- The overloads `GetJacobianOfSpatialJacobian(p, sj, jsj, indices)` and
  `GetJacobianOfSpatialHessian(p, sh, jsh, indices)` return the same stored
  constants as the single queries together. They are not modelled separately.
- `PrintSelf` (stream output) and the destructor.
- Thread safety of shared instances.
- The other files of the repository: the optimizers, the GPU factories and
  filter, log-row output, and the elastix component wrappers. None of them is
  part of this model.
