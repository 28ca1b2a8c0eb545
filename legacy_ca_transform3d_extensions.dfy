/**
 * The `CATransform3D` adapter of the older `CoreAnimationUtils` copy. The
 * entries map to matrix entries as in `CATransform3DExtensions`, and
 * translating, scaling, skewing and applying a perspective are that
 * module's builders; the properties are read through this copy's
 * decomposition, and rotating multiplies by the quaternion's rotation matrix
 * whatever the quaternion. Two members behave differently from what their
 * names promise: the `perspective` setter recomposes a fresh decomposition
 * and so discards the value assigned to it, and
 * `applyingPerspective(m31:m32:m33:m34:)` fills an omitted argument from
 * the entries `m31`...`m34` of row 3 instead of the perspective entries
 * `m14`...`m44`. Both are modelled as written, next to the intended
 * behaviour.
 */
module LegacyCATransform3DExtensions {
  import opened Simd
  import opened Optional
  import CA = CATransform3DExtensions
  import Matrix = SimdDecomposed
  import Props = DecompositionProperties
  import Legacy = LegacyTransformationMatrix
  import LegacyLerp = LegacyLERPExtensions

  type CATransform3D = CA.CATransform3D

  // ----- decomposition and recomposition -----

  /** `_decomposed()`: this copy's decomposition of the transform's matrix. */
  function Decomposed(num: Numerics, t: CATransform3D): Legacy.Decomposed {
    Legacy.Decomposition(num, CA.MatrixOf(t))
  }

  /** `Decomposed.recomposed()`: the transform of this copy's recomposition. */
  function Recomposed(num: Numerics, d: Legacy.Decomposed): CATransform3D {
    CA.FromMatrix(Legacy.Recomposition(num, d))
  }

  /**
   * With `m44 != 0` the decomposition is the engine's, renamed; a zero `m44`
   * gives every default, where the engine goes on without normalising.
   */
  lemma DecomposedAsEngine(num: Numerics, t: CATransform3D)
    ensures t.m44 != 0.0 ==> Decomposed(num, t) == Legacy.FromEngine(CA.Decomposed(num, t))
    ensures t.m44 == 0.0 ==> Decomposed(num, t) == Legacy.Default()
  {
    if t.m44 != 0.0 {
      Legacy.DecompositionAsEngine(num, CA.MatrixOf(t));
    }
  }

  // ----- the property setters -----

  /** The `translation`, `scale`, `rotation` and `skew` setters: replace one field and recompose. */
  function WithTranslation(num: Numerics, t: CATransform3D, v: Vec3): CATransform3D {
    Recomposed(num, Decomposed(num, t).(translation := v))
  }

  function WithScale(num: Numerics, t: CATransform3D, s: Vec3): CATransform3D {
    Recomposed(num, Decomposed(num, t).(scale := s))
  }

  function WithRotation(num: Numerics, t: CATransform3D, q: Quat): CATransform3D {
    Recomposed(num, Decomposed(num, t).(quaternion := q))
  }

  function WithSkew(num: Numerics, t: CATransform3D, s: Vec3): CATransform3D {
    Recomposed(num, Decomposed(num, t).(skew := s))
  }

  /**
   * Where this copy decomposes like the engine (`m44 != 0`) and the
   * decomposed quaternion has an axis, the `translation`, `scale` and `skew`
   * setters give what the engine's setters give.
   */
  lemma TranslationSetterAsEngine(num: Numerics, t: CATransform3D, v: Vec3)
    requires t.m44 != 0.0 && !Matrix.AxisIsNaN(Decomposed(num, t).quaternion)
    ensures WithTranslation(num, t, v) == CA.WithTranslation(num, t, v)
  {
    DecomposedAsEngine(num, t);
    Legacy.RecompositionAsEngine(num, Decomposed(num, t).(translation := v));
  }

  lemma ScaleSetterAsEngine(num: Numerics, t: CATransform3D, s: Vec3)
    requires t.m44 != 0.0 && !Matrix.AxisIsNaN(Decomposed(num, t).quaternion)
    ensures WithScale(num, t, s) == CA.WithScale(num, t, s)
  {
    DecomposedAsEngine(num, t);
    Legacy.RecompositionAsEngine(num, Decomposed(num, t).(scale := s));
  }

  lemma SkewSetterAsEngine(num: Numerics, t: CATransform3D, s: Vec3)
    requires t.m44 != 0.0 && !Matrix.AxisIsNaN(Decomposed(num, t).quaternion)
    ensures WithSkew(num, t, s) == CA.WithSkew(num, t, s)
  {
    DecomposedAsEngine(num, t);
    Legacy.RecompositionAsEngine(num, Decomposed(num, t).(skew := s));
  }

  /** The same for the `rotation` setter, when the new quaternion has an axis. */
  lemma RotationSetterAsEngine(num: Numerics, t: CATransform3D, q: Quat)
    requires t.m44 != 0.0 && !Matrix.AxisIsNaN(q)
    ensures WithRotation(num, t, q) == CA.WithRotation(num, t, q)
  {
    DecomposedAsEngine(num, t);
    Legacy.RecompositionAsEngine(num, Decomposed(num, t).(quaternion := q));
  }

  /**
   * The `perspective` setter as written: the modified copy of the
   * decomposition is dropped and a fresh one is recomposed, so the result
   * does not depend on the assigned value.
   */
  function AsWrittenWithPerspective(num: Numerics, t: CATransform3D, p: Vec4): CATransform3D {
    Recomposed(num, Decomposed(num, t))
  }

  /** Two different values assigned to the `perspective` of the same transform give the same transform. */
  lemma PerspectiveSetterIgnoresValue(num: Numerics, t: CATransform3D, p: Vec4, q: Vec4)
    ensures AsWrittenWithPerspective(num, t, p) == AsWrittenWithPerspective(num, t, q)
  {
  }

  /** The `perspective` setter as intended, like the other four: replace the field and recompose. */
  function CorrectedWithPerspective(num: Numerics, t: CATransform3D, p: Vec4): CATransform3D {
    Recomposed(num, Decomposed(num, t).(perspective := p))
  }

  /**
   * Assigning any perspective to the identity leaves the identity, when the
   * square root of 1 is 1 and the quaternion conversions are exact.
   */
  lemma {:induction false} PerspectiveSetterLeavesIdentity(num: Numerics, p: Vec4)
    requires num.sqrt(1.0) == 1.0 && Props.ExactRotations(num)
    ensures AsWrittenWithPerspective(num, CA.IdentityTransform(), p) == CA.IdentityTransform()
  {
    Legacy.IdentityRoundTrip(num);
    IdentityDecomposed(num);
    CA.TransformRoundTrip(CA.IdentityTransform());
  }

  /**
   * The intended setter puts the assigned perspective into `m14`, `m24`,
   * `m34`, `m44` of the identity, under the same hypotheses.
   */
  lemma {:induction false} CorrectedPerspectiveOnIdentity(num: Numerics, p: Vec4)
    requires num.sqrt(1.0) == 1.0 && Props.ExactRotations(num)
    ensures CorrectedWithPerspective(num, CA.IdentityTransform(), p)
         == CA.IdentityTransform().(m14 := p.x, m24 := p.y, m34 := p.z, m44 := p.w)
  {
    Legacy.IdentityWithPerspective(num, p);
    IdentityDecomposed(num);
    IdentityWithPerspectiveEntries(p);
  }

  lemma IdentityDecomposed(num: Numerics)
    ensures Decomposed(num, CA.IdentityTransform()) == Legacy.Decomposition(num, Identity())
  {
  }

  lemma IdentityWithPerspectiveEntries(p: Vec4)
    ensures CA.FromMatrix(Matrix.ApplyingPerspective(Identity(), p))
         == CA.IdentityTransform().(m14 := p.x, m24 := p.y, m34 := p.z, m44 := p.w)
  {
  }

  // ----- the builders -----

  /** `rotated(by:)`: the legacy matrix rotation, which skips nothing. */
  function Rotated(num: Numerics, t: CATransform3D, q: Quat): (r: CATransform3D)
    ensures !Matrix.AxisIsNaN(q) ==> r == CA.Rotated(num, t, q)
    ensures num.rotationMatrix(q) == Identity() ==> r == t
  {
    CA.TransformRoundTrip(t);
    CA.FromMatrix(Legacy.Rotated(num, CA.MatrixOf(t), q))
  }

  /**
   * `rotatedBy(angle:x:y:z:)`: `Quaternion(angle:axis:)`, which here does not
   * normalise the axis, with every omitted argument 0.
   */
  function RotatedBy(num: Numerics, t: CATransform3D, angle: Option<real>, x: Option<real>, y: Option<real>, z: Option<real>): CATransform3D {
    Rotated(num, t, FromAngleAxis(num, angle.GetOr(0.0), Vec3(x.GetOr(0.0), y.GetOr(0.0), z.GetOr(0.0))))
  }

  /**
   * With the axis omitted the quaternion has no imaginary part; the engine
   * would skip it, this copy multiplies by its rotation matrix, which leaves
   * the transform when that matrix is the identity.
   */
  lemma RotatedByWithoutAxis(num: Numerics, t: CATransform3D, angle: Option<real>)
    ensures var q := FromAngleAxis(num, angle.GetOr(0.0), Zero3());
      && Matrix.AxisIsNaN(q)
      && CA.Rotated(num, t, q) == t
      && (num.rotationMatrix(q) == Identity() ==> RotatedBy(num, t, angle, None, None, None) == t)
  {
    var q := FromAngleAxis(num, angle.GetOr(0.0), Zero3());
    assert Imag(q) == Zero3();
    CA.TransformRoundTrip(t);
  }

  /** `skewedBy(XY:XZ:YZ:)`: an omitted component is taken from this copy's decomposed skew. */
  function SkewedBy(num: Numerics, t: CATransform3D, xy: Option<real>, xz: Option<real>, yz: Option<real>): CATransform3D {
    var current := Decomposed(num, t).skew;
    CA.Skewed(t, Vec3(xy.GetOr(current.x), xz.GetOr(current.y), yz.GetOr(current.z)))
  }

  /** With `m44 != 0` it is the engine's `skewedBy`, which skews by the current skew once more. */
  lemma SkewedByAsEngine(num: Numerics, t: CATransform3D, xy: Option<real>, xz: Option<real>, yz: Option<real>)
    requires t.m44 != 0.0
    ensures SkewedBy(num, t, xy, xz, yz) == CA.SkewedBy(num, t, xy, xz, yz)
  {
    DecomposedAsEngine(num, t);
  }

  /**
   * `applyingPerspective(m31:m32:m33:m34:)` as written: the perspective
   * `(m31, m32, m33, m34)`, each omitted argument read from the entry of row
   * 3 with that name, is applied to the perspective column.
   */
  function AsWrittenApplyingPerspectiveBy(t: CATransform3D, m31: Option<real>, m32: Option<real>, m33: Option<real>, m34: Option<real>): (r: CATransform3D)
    ensures r.m14 == m31.GetOr(t.m31) && r.m24 == m32.GetOr(t.m32)
    ensures r.m34 == m33.GetOr(t.m33) && r.m44 == m34.GetOr(t.m34)
    ensures r.(m14 := t.m14, m24 := t.m24, m34 := t.m34, m44 := t.m44) == t
  {
    CA.ApplyingPerspective(t, Vec4(m31.GetOr(t.m31), m32.GetOr(t.m32), m33.GetOr(t.m33), m34.GetOr(t.m34)))
  }

  /**
   * With every argument omitted it copies row 3 into the perspective column:
   * the identity gets `m34 = 1` and `m44 = 0`, a singular transform, where
   * the intended builder leaves the identity as it is.
   */
  lemma AsWrittenPerspectiveByOnIdentity()
    ensures AsWrittenApplyingPerspectiveBy(CA.IdentityTransform(), None, None, None, None)
         == CA.IdentityTransform().(m34 := 1.0, m44 := 0.0)
    ensures CA.ApplyingPerspectiveBy(CA.IdentityTransform(), None, None, None, None) == CA.IdentityTransform()
  {
    CA.ApplyingPerspectiveByDefaults(CA.IdentityTransform());
  }

  // ----- interpolation -----

  /** `CATransform3D.lerp(to:fraction:)`: the legacy matrix lerp on the transforms' matrices. */
  function Lerp(num: Numerics, a: CATransform3D, b: CATransform3D, fraction: real): CATransform3D {
    CA.FromMatrix(LegacyLerp.MatrixLerp(num, CA.MatrixOf(a), CA.MatrixOf(b), fraction))
  }

  /**
   * Between affine, non-degenerate transforms with non-zero scales, fraction
   * 0 gives the start and fraction 1 the end, with no hypothesis about
   * `simd_slerp`.
   */
  lemma {:induction false} LerpEndpoints(num: Numerics, a: CATransform3D, b: CATransform3D)
    requires ExactSqrt(num) && Props.ExactRotations(num)
    requires a.m14 == 0.0 && a.m24 == 0.0 && a.m34 == 0.0 && a.m44 == 1.0
    requires b.m14 == 0.0 && b.m24 == 0.0 && b.m34 == 0.0 && b.m44 == 1.0
    requires !Matrix.Degenerate(CA.MatrixOf(a)) && !Matrix.Degenerate(CA.MatrixOf(b))
    requires Props.NonZeroScale(Matrix.GramSchmidt(num, Matrix.RotationLocal(CA.MatrixOf(a))))
    requires Props.NonZeroScale(Matrix.GramSchmidt(num, Matrix.RotationLocal(CA.MatrixOf(b))))
    ensures Lerp(num, a, b, 0.0) == a && Lerp(num, a, b, 1.0) == b
  {
    Props.NormalizedByOne(CA.MatrixOf(a));
    Props.NormalizedByOne(CA.MatrixOf(b));
    LegacyLerp.MatrixLerpEndpoints(num, CA.MatrixOf(a), CA.MatrixOf(b));
    CA.TransformRoundTrip(a);
    CA.TransformRoundTrip(b);
  }

  // ----- a transform variable -----

  /** The `translation` setter on a transform variable. */
  method SetTranslation(num: Numerics, t: CA.Transform, v: Vec3)
    modifies t
    ensures t.value == WithTranslation(num, old(t.value), v)
  {
    var decomposed := Decomposed(num, t.value);
    decomposed := decomposed.(translation := v);
    t.value := Recomposed(num, decomposed);
  }

  /** The `scale` setter. */
  method SetScale(num: Numerics, t: CA.Transform, s: Vec3)
    modifies t
    ensures t.value == WithScale(num, old(t.value), s)
  {
    var decomposed := Decomposed(num, t.value);
    decomposed := decomposed.(scale := s);
    t.value := Recomposed(num, decomposed);
  }

  /** The `rotation` setter, which writes the `quaternion` field. */
  method SetRotation(num: Numerics, t: CA.Transform, q: Quat)
    modifies t
    ensures t.value == WithRotation(num, old(t.value), q)
  {
    var decomposed := Decomposed(num, t.value);
    decomposed := decomposed.(quaternion := q);
    t.value := Recomposed(num, decomposed);
  }

  /** The `skew` setter. */
  method SetSkew(num: Numerics, t: CA.Transform, s: Vec3)
    modifies t
    ensures t.value == WithSkew(num, old(t.value), s)
  {
    var decomposed := Decomposed(num, t.value);
    decomposed := decomposed.(skew := s);
    t.value := Recomposed(num, decomposed);
  }

  /** The `perspective` setter as written: the modified copy is never read. */
  method SetPerspective(num: Numerics, t: CA.Transform, p: Vec4)
    modifies t
    ensures t.value == AsWrittenWithPerspective(num, old(t.value), p)
  {
    var decomposed := Decomposed(num, t.value);
    decomposed := decomposed.(perspective := p);
    t.value := Recomposed(num, Decomposed(num, t.value));
  }

  /** `rotate(by:)` */
  method Rotate(num: Numerics, t: CA.Transform, q: Quat)
    modifies t
    ensures t.value == Rotated(num, old(t.value), q)
  {
    t.AssignMatrix(Legacy.Rotated(num, CA.MatrixOf(t.value), q));
  }

  // ----- the decomposed wrapper -----

  /** `CATransform3D.Decomposed`: a wrapper whose setters write one field of the stored decomposition. */
  class DecomposedTransform {
    var storage: Legacy.Decomposed

    /** `init(_ decomposed:)` */
    constructor(decomposed: Legacy.Decomposed)
      ensures storage == decomposed
    {
      storage := decomposed;
    }

    method SetTranslation(v: Vec3)
      modifies this
      ensures storage == old(storage).(translation := v)
    {
      storage := storage.(translation := v);
    }

    method SetScale(s: Vec3)
      modifies this
      ensures storage == old(storage).(scale := s)
    {
      storage := storage.(scale := s);
    }

    /** The `rotation` setter writes the quaternion. */
    method SetRotation(q: Quat)
      modifies this
      ensures storage == old(storage).(quaternion := q)
    {
      storage := storage.(quaternion := q);
    }

    method SetSkew(s: Vec3)
      modifies this
      ensures storage == old(storage).(skew := s)
    {
      storage := storage.(skew := s);
    }

    method SetPerspective(p: Vec4)
      modifies this
      ensures storage == old(storage).(perspective := p)
    {
      storage := storage.(perspective := p);
    }

    /** `recomposed()` */
    function RecomposedTransform(num: Numerics): CATransform3D
      reads this
    {
      Recomposed(num, storage)
    }

    /** `lerp(to:fraction:)`: the storage lerp, which interpolates the quaternion linearly. */
    method Lerp(to: DecomposedTransform, fraction: real) returns (r: DecomposedTransform)
      ensures fresh(r) && r.storage == LegacyLerp.Lerp(storage, to.storage, fraction)
    {
      r := new DecomposedTransform(LegacyLerp.Lerp(storage, to.storage, fraction));
    }
  }

  /** `decomposed()`: a fresh wrapper around the decomposition. */
  method Decompose(num: Numerics, t: CATransform3D) returns (r: DecomposedTransform)
    ensures fresh(r) && r.storage == Decomposed(num, t)
  {
    var d := Legacy.Decompose(num, CA.MatrixOf(t));
    r := new DecomposedTransform(d);
  }
}
