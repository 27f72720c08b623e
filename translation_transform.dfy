/**
 The advanced translation transform: T(p) = p + offset. Its parameters are the
 offset components; its Jacobian with respect to the parameters, its spatial
 Jacobian and its (zero) spatial Hessians are constants set up once by the
 constructor and returned unchanged by the Get*Jacobian / Get*Hessian queries.
 Modified() is modelled by a modification counter, mtime.
 */
module TranslationTransform {
  import opened Vectors

  class AdvancedTranslationTransform {
    /** NDimensions; ParametersDimension is the same number for a translation. */
    const spaceDimension: nat
    /** m_Offset */
    var offset: seq<real>
    /** m_Parameters, the buffer GetParameters refreshes and returns. */
    var parameters: seq<real>
    /** The modification time, advanced by Modified(). */
    var mtime: nat

    /** m_LocalJacobian: SpaceDimension x ParametersDimension. */
    const localJacobian: seq<seq<real>>
    /** m_NonZeroJacobianIndices */
    const nonZeroJacobianIndices: seq<nat>
    /** m_SpatialJacobian */
    const spatialJacobian: seq<seq<real>>
    /** m_SpatialHessian */
    const spatialHessian: seq<seq<seq<real>>>
    /** m_JacobianOfSpatialJacobian: one SpaceDimension x SpaceDimension matrix per parameter. */
    const jacobianOfSpatialJacobian: seq<seq<seq<real>>>
    /** m_JacobianOfSpatialHessian: one spatial Hessian per parameter. */
    const jacobianOfSpatialHessian: seq<seq<seq<seq<real>>>>
    /** m_HasNonZeroSpatialHessian */
    const hasNonZeroSpatialHessian: bool
    /** m_HasNonZeroJacobianOfSpatialHessian */
    const hasNonZeroJacobianOfSpatialHessian: bool

    ghost predicate Valid()
      reads this
    {
      && |offset| == spaceDimension
      && |parameters| == spaceDimension
      && localJacobian == IdentityMatrix(spaceDimension)
      && nonZeroJacobianIndices == Indices(spaceDimension)
      && spatialJacobian == IdentityMatrix(spaceDimension)
      && spatialHessian == ZeroHessian(spaceDimension)
      && jacobianOfSpatialJacobian == seq(spaceDimension, i => ZeroMatrix(spaceDimension))
      && jacobianOfSpatialHessian == seq(spaceDimension, i => ZeroHessian(spaceDimension))
    }

    constructor (spaceDimension: nat)
      ensures Valid()
      ensures this.spaceDimension == spaceDimension
      ensures offset == Zeros(spaceDimension)
      ensures !hasNonZeroSpatialHessian && !hasNonZeroJacobianOfSpatialHessian
    {
      var n := spaceDimension;
      this.spaceDimension := n;
      offset := Zeros(n);
      parameters := Zeros(n);

      // The local Jacobian: filled with zeros, then ones on the diagonal.
      var jacobian := ZeroMatrix(n);
      for i := 0 to n
        invariant |jacobian| == n
        invariant forall r :: 0 <= r < n ==> |jacobian[r]| == n
        invariant forall r, c :: 0 <= r < n && 0 <= c < n ==>
          jacobian[r][c] == if r == c && r < i then 1.0 else 0.0
      {
        jacobian := jacobian[i := jacobian[i][i := 1.0]];
      }
      assert forall r :: 0 <= r < n ==> jacobian[r] == IdentityMatrix(n)[r];
      localJacobian := jacobian;

      spatialJacobian := IdentityMatrix(n);

      // The nonzero Jacobian indices: resized to ParametersDimension, then 0, 1, ..., n - 1.
      var indices: seq<nat> := seq(n, i => 0);
      for i := 0 to n
        invariant |indices| == n
        invariant forall j :: 0 <= j < i ==> indices[j] == j
      {
        indices := indices[i := i];
      }
      nonZeroJacobianIndices := indices;

      jacobianOfSpatialJacobian := seq(n, i => ZeroMatrix(n));
      jacobianOfSpatialHessian := seq(n, i => ZeroHessian(n));
      spatialHessian := ZeroHessian(n);
      hasNonZeroSpatialHessian := false;
      hasNonZeroJacobianOfSpatialHessian := false;
    }

    /** Advances the modification time. */
    method Modified()
      modifies this`mtime
      ensures mtime == old(mtime) + 1
    {
      mtime := mtime + 1;
    }

    /**
     Copies the first SpaceDimension parameters into the offset, and calls
     Modified() exactly when some component differed.
     */
    method SetParameters(p: seq<real>)
      requires Valid()
      requires |p| >= spaceDimension
      modifies this
      ensures Valid()
      ensures offset == p[..spaceDimension]
      ensures parameters == old(parameters)
      ensures mtime == if exists i :: 0 <= i < spaceDimension && old(offset)[i] != p[i]
                       then old(mtime) + 1 else old(mtime)
    {
      var modified := false;
      for i := 0 to spaceDimension
        invariant |offset| == spaceDimension
        invariant parameters == old(parameters) && mtime == old(mtime)
        invariant forall j :: 0 <= j < i ==> offset[j] == p[j]
        invariant forall j :: i <= j < spaceDimension ==> offset[j] == old(offset)[j]
        invariant modified <==> exists j :: 0 <= j < i && old(offset)[j] != p[j]
      {
        if offset[i] != p[i] {
          offset := offset[i := p[i]];
          modified := true;
        }
      }
      if modified {
        Modified();
      }
    }

    /** Refreshes the parameters buffer from the offset and returns it. */
    method GetParameters() returns (params: seq<real>)
      requires Valid()
      modifies this`parameters
      ensures Valid()
      ensures params == offset && parameters == offset
    {
      for i := 0 to spaceDimension
        invariant |parameters| == spaceDimension
        invariant forall j :: 0 <= j < i ==> parameters[j] == offset[j]
      {
        parameters := parameters[i := offset[i]];
      }
      params := parameters;
    }

    /**
     Adds v to the offset through SetParameters, so that a zero v is not a
     modification. The flag of the source has no effect.
     */
    method Translate(v: seq<real>, preCompose: bool)
      requires Valid()
      requires |v| == spaceDimension
      modifies this
      ensures Valid()
      ensures offset == Add(old(offset), v)
      ensures parameters == old(parameters)
      ensures mtime == if exists i :: 0 <= i < spaceDimension && v[i] != 0.0
                       then old(mtime) + 1 else old(mtime)
    {
      var newOffset := Zeros(spaceDimension);
      for i := 0 to spaceDimension
        invariant |newOffset| == spaceDimension
        invariant forall j :: 0 <= j < i ==> newOffset[j] == offset[j] + v[j]
      {
        newOffset := newOffset[i := offset[i] + v[i]];
      }
      assert newOffset == Add(offset, v);
      assert forall i :: 0 <= i < spaceDimension ==> (offset[i] != newOffset[i] <==> v[i] != 0.0);
      SetParameters(newOffset);
    }

    /** Composes with other, a translation: the same as Translate(other's offset). */
    method Compose(other: AdvancedTranslationTransform, preCompose: bool)
      requires Valid() && other.Valid()
      requires other.spaceDimension == spaceDimension
      modifies this
      ensures Valid()
      ensures offset == Add(old(offset), old(other.offset))
      ensures parameters == old(parameters)
      ensures mtime == if exists i :: 0 <= i < spaceDimension && old(other.offset)[i] != 0.0
                       then old(mtime) + 1 else old(mtime)
    {
      Translate(other.offset, preCompose);
    }

    function TransformPoint(point: seq<real>): (r: seq<real>)
      reads this
      requires Valid() && |point| == spaceDimension
      ensures |r| == spaceDimension
      ensures forall i :: 0 <= i < spaceDimension ==> r[i] == point[i] + offset[i]
    {
      Add(point, offset)
    }

    /** A translation leaves vectors unchanged (both TransformVector overloads). */
    function TransformVector(vect: seq<real>): (r: seq<real>)
      ensures r == vect
    {
      vect
    }

    /** A translation leaves covariant vectors unchanged. */
    function TransformCovariantVector(vect: seq<real>): (r: seq<real>)
      ensures r == vect
    {
      vect
    }

    /**
     Writes the negated offset into inverse and reports true; with no inverse
     object it reports false and changes nothing.
     */
    method GetInverse(inverse: AdvancedTranslationTransform?) returns (ok: bool)
      requires Valid()
      requires inverse != null ==> inverse.Valid() && inverse.spaceDimension == spaceDimension
      modifies inverse
      ensures ok <==> inverse != null
      ensures inverse != null ==> inverse.Valid() && inverse.offset == Negate(old(offset))
      ensures inverse != null ==> inverse.parameters == old(inverse.parameters) && inverse.mtime == old(inverse.mtime)
      ensures inverse != this ==> offset == old(offset)
      ensures Valid()
    {
      if inverse == null {
        return false;
      }
      inverse.offset := Negate(offset);
      return true;
    }

    /** The Jacobian with respect to the parameters, the same at every point. */
    method GetJacobian(point: seq<real>) returns (j: seq<seq<real>>, nonZeroIndices: seq<nat>)
      requires Valid()
      ensures |j| == spaceDimension
      ensures forall r, c :: 0 <= r < spaceDimension && 0 <= c < |j[r]| ==> j[r][c] == if r == c then 1.0 else 0.0
      ensures forall r :: 0 <= r < spaceDimension ==> |j[r]| == spaceDimension
      ensures |nonZeroIndices| == spaceDimension
      ensures forall i :: 0 <= i < spaceDimension ==> nonZeroIndices[i] == i
    {
      j := localJacobian;
      nonZeroIndices := nonZeroJacobianIndices;
    }

    /** The spatial Jacobian, the identity at every point. */
    method GetSpatialJacobian(point: seq<real>) returns (sj: seq<seq<real>>)
      requires Valid()
      ensures |sj| == spaceDimension
      ensures forall r :: 0 <= r < spaceDimension ==> |sj[r]| == spaceDimension
      ensures forall r, c :: 0 <= r < spaceDimension && 0 <= c < |sj[r]| ==> sj[r][c] == if r == c then 1.0 else 0.0
    {
      sj := spatialJacobian;
    }

    /** The spatial Hessian: SpaceDimension matrices, all zero. */
    method GetSpatialHessian(point: seq<real>) returns (sh: seq<seq<seq<real>>>)
      requires Valid()
      ensures |sh| == spaceDimension
      ensures forall a :: 0 <= a < spaceDimension ==> sh[a] == ZeroMatrix(spaceDimension)
    {
      sh := spatialHessian;
    }

    /** The Jacobian of the spatial Jacobian: one zero matrix per parameter. */
    method GetJacobianOfSpatialJacobian(point: seq<real>)
      returns (jsj: seq<seq<seq<real>>>, nonZeroIndices: seq<nat>)
      requires Valid()
      ensures |jsj| == spaceDimension
      ensures forall m :: 0 <= m < spaceDimension ==> jsj[m] == ZeroMatrix(spaceDimension)
      ensures nonZeroIndices == Indices(spaceDimension)
    {
      jsj := jacobianOfSpatialJacobian;
      nonZeroIndices := nonZeroJacobianIndices;
    }

    /** The Jacobian of the spatial Hessian: one zero Hessian per parameter. */
    method GetJacobianOfSpatialHessian(point: seq<real>)
      returns (jsh: seq<seq<seq<seq<real>>>>, nonZeroIndices: seq<nat>)
      requires Valid()
      ensures |jsh| == spaceDimension
      ensures forall m :: 0 <= m < spaceDimension ==> jsh[m] == ZeroHessian(spaceDimension)
      ensures nonZeroIndices == Indices(spaceDimension)
    {
      jsh := jacobianOfSpatialHessian;
      nonZeroIndices := nonZeroJacobianIndices;
    }

    /** Resets the offset to zero; the source does not call Modified() here. */
    method SetIdentity()
      requires Valid()
      modifies this`offset
      ensures Valid()
      ensures offset == Zeros(spaceDimension)
    {
      offset := Zeros(spaceDimension);
    }
  }

  /** Translating by a and then by b is translating by a + b. */
  lemma TranslationsCompose(p: seq<real>, a: seq<real>, b: seq<real>)
    requires |p| == |a| == |b|
    ensures Add(Add(p, a), b) == Add(p, Add(a, b))
  {
  }

  /** A transform holding the negated offset undoes the transform, in both orders. */
  lemma InverseUndoesTransform(t: AdvancedTranslationTransform, inverse: AdvancedTranslationTransform, p: seq<real>)
    requires t.Valid() && inverse.Valid() && inverse.spaceDimension == t.spaceDimension
    requires inverse.offset == Negate(t.offset)
    requires |p| == t.spaceDimension
    ensures inverse.TransformPoint(t.TransformPoint(p)) == p
    ensures t.TransformPoint(inverse.TransformPoint(p)) == p
  {
  }

  /** With a zero offset the transform maps every point to itself. */
  lemma IdentityLeavesPointsUnchanged(t: AdvancedTranslationTransform, p: seq<real>)
    requires t.Valid() && t.offset == Zeros(t.spaceDimension)
    requires |p| == t.spaceDimension
    ensures t.TransformPoint(p) == p
  {
  }

  /** The image of a difference vector is the difference of the images of its end points. */
  lemma VectorsAreDifferencesOfPoints(t: AdvancedTranslationTransform, p: seq<real>, q: seq<real>)
    requires t.Valid() && |p| == t.spaceDimension && |q| == t.spaceDimension
    ensures t.TransformVector(Subtract(q, p)) == Subtract(t.TransformPoint(q), t.TransformPoint(p))
  {
  }

  /** GetParameters after SetParameters(p) yields p's first SpaceDimension entries. */
  method SetGetRoundTrip(t: AdvancedTranslationTransform, p: seq<real>) returns (q: seq<real>)
    requires t.Valid() && |p| >= t.spaceDimension
    modifies t
    ensures t.Valid()
    ensures t.offset == p[..t.spaceDimension]
    ensures q == p[..t.spaceDimension]
  {
    t.SetParameters(p);
    q := t.GetParameters();
  }

  /** After Translate(v) every point lands v further than before. */
  method TranslateShiftsEveryImage(t: AdvancedTranslationTransform, v: seq<real>, p: seq<real>)
    requires t.Valid() && |v| == t.spaceDimension && |p| == t.spaceDimension
    modifies t
    ensures t.Valid()
    ensures t.TransformPoint(p) == Add(old(t.TransformPoint(p)), v)
  {
    t.Translate(v, false);
    TranslationsCompose(p, old(t.offset), v);
  }

  /** Translating by a and then by b moves the offset as translating once by a + b does. */
  method TranslateTwice(t: AdvancedTranslationTransform, a: seq<real>, b: seq<real>)
    requires t.Valid() && |a| == t.spaceDimension && |b| == t.spaceDimension
    modifies t
    ensures t.Valid()
    ensures t.offset == Add(old(t.offset), Add(a, b))
  {
    t.Translate(a, false);
    t.Translate(b, false);
    TranslationsCompose(old(t.offset), a, b);
  }

  /** Setting the parameters the transform already has is not a modification. */
  method ReapplyingParametersIsNotAModification(t: AdvancedTranslationTransform)
    requires t.Valid()
    modifies t
    ensures t.Valid()
    ensures t.offset == old(t.offset) && t.mtime == old(t.mtime)
  {
    var p := t.GetParameters();
    t.SetParameters(p);
  }

  /** GetInverse into another transform succeeds, and the inverse maps every image back to its point. */
  method InverseRoundTrip(t: AdvancedTranslationTransform, inverse: AdvancedTranslationTransform, p: seq<real>)
    returns (ok: bool)
    requires t != inverse
    requires t.Valid() && inverse.Valid() && inverse.spaceDimension == t.spaceDimension
    requires |p| == t.spaceDimension
    modifies inverse
    ensures ok && t.Valid() && inverse.Valid()
    ensures inverse.TransformPoint(t.TransformPoint(p)) == p
    ensures t.TransformPoint(inverse.TransformPoint(p)) == p
  {
    ok := t.GetInverse(inverse);
    InverseUndoesTransform(t, inverse, p);
  }
}
