/** Component-wise vector arithmetic and the constant matrices the translation transform stores. */
module Vectors {

  function Add(a: seq<real>, b: seq<real>): seq<real>
    requires |a| == |b|
  {
    seq(|a|, i requires 0 <= i < |a| => a[i] + b[i])
  }

  function Subtract(a: seq<real>, b: seq<real>): seq<real>
    requires |a| == |b|
  {
    seq(|a|, i requires 0 <= i < |a| => a[i] - b[i])
  }

  function Negate(a: seq<real>): seq<real>
  {
    seq(|a|, i requires 0 <= i < |a| => -a[i])
  }

  function Zeros(n: nat): seq<real>
  {
    seq(n, i => 0.0)
  }

  /** The n x n identity matrix, as a sequence of rows. */
  function IdentityMatrix(n: nat): seq<seq<real>>
  {
    seq(n, i => seq(n, j => if i == j then 1.0 else 0.0))
  }

  function ZeroMatrix(n: nat): seq<seq<real>>
  {
    seq(n, i => Zeros(n))
  }

  /** n matrices of size n x n, all zero: the shape of a spatial Hessian. */
  function ZeroHessian(n: nat): seq<seq<seq<real>>>
  {
    seq(n, i => ZeroMatrix(n))
  }

  /** The indices 0, 1, ..., n - 1 in order. */
  function Indices(n: nat): seq<nat>
  {
    seq(n, i => i)
  }
}
