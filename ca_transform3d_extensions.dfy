/**
 * The `CATransform3D` adapter: sixteen named entries `m11`...`m44`, row `i`
 * of which is column `i - 1` of the `matrix_double4x4` the engine works on.
 * Every property of the transform is read through the decomposition of that
 * matrix; the property setters decompose, replace one field and recompose;
 * the builders run the matrix builders and convert back.
 *
 * `CATransform3D` values are a datatype and the copying forms are functions
 * on it; a transform variable, whose mutating methods reassign `self` entry
 * by entry, is the class `Transform`.
 */
module CATransform3DExtensions {
  import opened Simd
  import opened Interpolatable
  import opened Optional
  import opened SimdConvenienceExtensions
  import Matrix = SimdDecomposed
  import Props = DecompositionProperties
  import CGFloatVectorTypes
  import Convenience = CATransform3DConvenienceExtensions

  datatype CATransform3D = CATransform3D(
    m11: real, m12: real, m13: real, m14: real,
    m21: real, m22: real, m23: real, m24: real,
    m31: real, m32: real, m33: real, m34: real,
    m41: real, m42: real, m43: real, m44: real)

  /** Rows 1 to 4 of the transform as four-vectors. */
  function Row1(t: CATransform3D): Vec4 { Vec4(t.m11, t.m12, t.m13, t.m14) }
  function Row2(t: CATransform3D): Vec4 { Vec4(t.m21, t.m22, t.m23, t.m24) }
  function Row3(t: CATransform3D): Vec4 { Vec4(t.m31, t.m32, t.m33, t.m34) }
  function Row4(t: CATransform3D): Vec4 { Vec4(t.m41, t.m42, t.m43, t.m44) }

  // ----- conversions -----

  /** `matrix_double4x4(transform)`: row `i` of the transform becomes column `i - 1`. */
  function MatrixOf(t: CATransform3D): (m: Mat4)
    ensures m.c0 == Row1(t) && m.c1 == Row2(t) && m.c2 == Row3(t) && m.c3 == Row4(t)
  {
    Mat4(Vec4(t.m11, t.m12, t.m13, t.m14), Vec4(t.m21, t.m22, t.m23, t.m24),
         Vec4(t.m31, t.m32, t.m33, t.m34), Vec4(t.m41, t.m42, t.m43, t.m44))
  }

  /** `CATransform3D(matrix)`: `m(i+1)(j+1)` is `matrix[i][j]`; converting back gives the matrix again. */
  function FromMatrix(m: Mat4): (r: CATransform3D)
    ensures MatrixOf(r) == m
  {
    CATransform3D(
      m.c0.x, m.c0.y, m.c0.z, m.c0.w,
      m.c1.x, m.c1.y, m.c1.z, m.c1.w,
      m.c2.x, m.c2.y, m.c2.z, m.c2.w,
      m.c3.x, m.c3.y, m.c3.z, m.c3.w)
  }

  /** Converting a transform to a matrix and back gives every entry back. */
  lemma TransformRoundTrip(t: CATransform3D)
    ensures FromMatrix(MatrixOf(t)) == t
  {
  }

  /** `CATransform3D.identity` */
  function IdentityTransform(): (r: CATransform3D)
    ensures MatrixOf(r) == Identity()
  {
    CATransform3D(1.0, 0.0, 0.0, 0.0, 0.0, 1.0, 0.0, 0.0, 0.0, 0.0, 1.0, 0.0, 0.0, 0.0, 0.0, 1.0)
  }

  /** `CATransform3D.zero` */
  function ZeroTransform(): (r: CATransform3D)
    ensures Row1(r) == Zero4() && Row2(r) == Zero4() && Row3(r) == Zero4() && Row4(r) == Zero4()
  {
    FromMatrix(ZeroMatrix())
  }

  /** `_decomposed()`: the decomposition of the transform's matrix. */
  function Decomposed(num: Numerics, t: CATransform3D): Matrix.DecomposedTransform {
    Matrix.Decomposition(num, MatrixOf(t))
  }

  /** `DecomposedTransform.recomposed()`: the recomposed matrix as a transform. */
  function Recomposed(num: Numerics, d: Matrix.DecomposedTransform): CATransform3D {
    FromMatrix(Matrix.Recomposition(num, d))
  }

  // ----- the property setters -----

  /** The `translation` setter. */
  function WithTranslation(num: Numerics, t: CATransform3D, v: Vec3): CATransform3D {
    Recomposed(num, Decomposed(num, t).(translation := v))
  }

  /** The `scale` setter. */
  function WithScale(num: Numerics, t: CATransform3D, s: Vec3): CATransform3D {
    Recomposed(num, Decomposed(num, t).(scale := s))
  }

  /** The `rotation` setter. */
  function WithRotation(num: Numerics, t: CATransform3D, q: Quat): CATransform3D {
    Recomposed(num, Decomposed(num, t).(rotation := q))
  }

  /** The `eulerAngles` setter: the assignment runs the observer that recomputes the quaternion. */
  function WithEulerAngles(num: Numerics, t: CATransform3D, e: Vec3): CATransform3D {
    Recomposed(num, Matrix.WithEulerAngles(num, Decomposed(num, t), e))
  }

  /** The `skew` setter. */
  function WithSkew(num: Numerics, t: CATransform3D, s: Vec3): CATransform3D {
    Recomposed(num, Decomposed(num, t).(skew := s))
  }

  /** The `perspective` setter. */
  function WithPerspective(num: Numerics, t: CATransform3D, p: Vec4): CATransform3D {
    Recomposed(num, Decomposed(num, t).(perspective := p))
  }

  /** The recomposition never reads the Euler angles: only the quaternion carries the rotation. */
  lemma RecompositionIgnoresEulerAngles(num: Numerics, d: Matrix.DecomposedTransform, e: Vec3)
    ensures Matrix.Recomposition(num, d.(eulerAngles := e)) == Matrix.Recomposition(num, d)
  {
  }

  /** Assigning Euler angles is assigning their quaternion to `rotation`. */
  lemma EulerAnglesSetterRotates(num: Numerics, t: CATransform3D, e: Vec3)
    ensures WithEulerAngles(num, t, e) == WithRotation(num, t, QuatFromEuler(num, e))
  {
    var r := Decomposed(num, t).(rotation := QuatFromEuler(num, e));
    assert Matrix.WithEulerAngles(num, Decomposed(num, t), e) == r.(eulerAngles := e);
    RecompositionIgnoresEulerAngles(num, r, e);
  }

  // ----- the copying builders -----

  /** `translated(by:)`: row 4 becomes `v.x·row1 + v.y·row2 + v.z·row3 + row4`; rows 1 to 3 are kept. */
  function Translated(t: CATransform3D, v: Vec3): (r: CATransform3D)
    ensures Row1(r) == Row1(t) && Row2(r) == Row2(t) && Row3(r) == Row3(t)
    ensures Row4(r) == Add4(Add4(Add4(Scale4(v.x, Row1(t)), Scale4(v.y, Row2(t))), Scale4(v.z, Row3(t))), Row4(t))
  {
    Matrix.TranslatedColumns(MatrixOf(t), v);
    FromMatrix(Matrix.Translated(MatrixOf(t), v))
  }

  /** `scaled(by:)`: rows 1, 2, 3 times `s.x`, `s.y`, `s.z`; row 4 is kept. */
  function Scaled(t: CATransform3D, s: Vec3): (r: CATransform3D)
    ensures Row1(r) == Scale4(s.x, Row1(t)) && Row2(r) == Scale4(s.y, Row2(t)) && Row3(r) == Scale4(s.z, Row3(t))
    ensures Row4(r) == Row4(t)
  {
    FromMatrix(Matrix.Scaled(MatrixOf(t), s))
  }

  /** `rotated(by: CGQuaternion)`: a quaternion without an axis leaves the transform as it is. */
  function Rotated(num: Numerics, t: CATransform3D, q: Quat): (r: CATransform3D)
    ensures Matrix.AxisIsNaN(q) ==> r == t
  {
    FromMatrix(Matrix.Rotated(num, MatrixOf(t), q))
  }

  /** `rotated(by: eulerAngles)` */
  function RotatedEuler(num: Numerics, t: CATransform3D, e: Vec3): CATransform3D {
    FromMatrix(Matrix.RotatedEuler(num, MatrixOf(t), e))
  }

  /** Rotating by Euler angles is rotating by their quaternion, so angles whose quaternion has no axis leave the transform. */
  lemma RotatedEulerIsRotated(num: Numerics, t: CATransform3D, e: Vec3)
    ensures RotatedEuler(num, t, e) == Rotated(num, t, QuatFromEuler(num, e))
    ensures Matrix.AxisIsNaN(QuatFromEuler(num, e)) ==> RotatedEuler(num, t, e) == t
  {
  }

  /** `skewed(by:)`: row 2 gains `xy·row1`, row 3 gains `yz·row2 + xz·row1`; rows 1 and 4 are kept. */
  function Skewed(t: CATransform3D, s: Vec3): (r: CATransform3D)
    ensures Row1(r) == Row1(t) && Row4(r) == Row4(t)
    ensures Row2(r) == Add4(Row2(t), Scale4(XY(s), Row1(t)))
    ensures Row3(r) == Add4(Add4(Row3(t), Scale4(YZ(s), Row2(t))), Scale4(XZ(s), Row1(t)))
  {
    Matrix.SkewedColumns(MatrixOf(t), s);
    FromMatrix(Matrix.Skewed(MatrixOf(t), s))
  }

  /** `applyingPerspective(_:)`: `m14`, `m24`, `m34`, `m44` become `p`, the other twelve entries are kept. */
  function ApplyingPerspective(t: CATransform3D, p: Vec4): (r: CATransform3D)
    ensures r.m14 == p.x && r.m24 == p.y && r.m34 == p.z && r.m44 == p.w
    ensures r.(m14 := t.m14, m24 := t.m24, m34 := t.m34, m44 := t.m44) == t
  {
    FromMatrix(Matrix.ApplyingPerspective(MatrixOf(t), p))
  }

  // ----- the builders with omitted arguments -----

  /** `translatedBy(x:y:z:)`: an omitted component is 0. */
  function TranslatedBy(t: CATransform3D, x: Option<real>, y: Option<real>, z: Option<real>): CATransform3D {
    Translated(t, Vec3(x.GetOr(0.0), y.GetOr(0.0), z.GetOr(0.0)))
  }

  /** `translated(by: CGPoint)` and `translate(by: CGPoint)`: the point with `z = 0`. */
  function TranslatedByPoint(t: CATransform3D, p: Vec2): CATransform3D {
    Translated(t, Vec3(p.x, p.y, 0.0))
  }

  /** `scaledBy(x:y:z:)`: an omitted component is 1. */
  function ScaledBy(t: CATransform3D, x: Option<real>, y: Option<real>, z: Option<real>): CATransform3D {
    Scaled(t, Vec3(x.GetOr(1.0), y.GetOr(1.0), z.GetOr(1.0)))
  }

  /** `scaled(by: CGPoint)` and `scale(by: CGPoint)`: the point with a `z` scale of 0. */
  function ScaledByPoint(t: CATransform3D, p: Vec2): CATransform3D {
    Scaled(t, Vec3(p.x, p.y, 0.0))
  }

  /** `rotatedBy(angle:x:y:z:)`: the quaternion `CGQuaternion(angle:axis:)` builds, every omitted argument 0. */
  function RotatedBy(num: Numerics, t: CATransform3D, angle: Option<real>, x: Option<real>, y: Option<real>, z: Option<real>): CATransform3D {
    Rotated(num, t, CGFloatVectorTypes.AngleAxisStorage(num, angle.GetOr(0.0), Vec3(x.GetOr(0.0), y.GetOr(0.0), z.GetOr(0.0))))
  }

  /** `rotatedBy(x:y:z:)`: Euler angles, every omitted one 0. */
  function RotatedByEuler(num: Numerics, t: CATransform3D, x: Option<real>, y: Option<real>, z: Option<real>): CATransform3D {
    RotatedEuler(num, t, Vec3(x.GetOr(0.0), y.GetOr(0.0), z.GetOr(0.0)))
  }

  /** `skewedBy(xy:xz:yz:)`: an omitted component is taken from the current decomposed skew. */
  function SkewedBy(num: Numerics, t: CATransform3D, xy: Option<real>, xz: Option<real>, yz: Option<real>): CATransform3D {
    var current := Decomposed(num, t).skew;
    Skewed(t, Vec3(xy.GetOr(XY(current)), xz.GetOr(XZ(current)), yz.GetOr(YZ(current))))
  }

  /** `applyingPerspective(m14:m24:m34:m44:)`: an omitted entry is taken from the transform itself. */
  function ApplyingPerspectiveBy(t: CATransform3D, m14: Option<real>, m24: Option<real>, m34: Option<real>, m44: Option<real>): CATransform3D {
    ApplyingPerspective(t, Convenience.PerspectiveInit(
      Some(m14.GetOr(t.m14)), Some(m24.GetOr(t.m24)), Some(m34.GetOr(t.m34)), Some(m44.GetOr(t.m44))))
  }

  // ----- interpolation -----

  /** `CATransform3D.lerp(to:fraction:)`: interpolates the decompositions and recomposes. */
  function Lerp(num: Numerics, a: CATransform3D, b: CATransform3D, fraction: real): CATransform3D {
    Recomposed(num, Matrix.Lerp(num, Decomposed(num, a), Decomposed(num, b), fraction))
  }

  // ----- properties of the builders -----

  /** Translating the identity by `v` puts `v` into `m41`, `m42`, `m43`. */
  lemma TranslatedIdentity(v: Vec3)
    ensures Translated(IdentityTransform(), v) == IdentityTransform().(m41 := v.x, m42 := v.y, m43 := v.z)
  {
    var i := IdentityTransform();
    var r := Translated(i, v);
    assert Row1(r) == Vec4(1.0, 0.0, 0.0, 0.0) && Row2(r) == Vec4(0.0, 1.0, 0.0, 0.0) && Row3(r) == Vec4(0.0, 0.0, 1.0, 0.0);
    BasisCombination(v, Row1(i), Row2(i), Row3(i), Row4(i));
    FromRows(r);
  }

  lemma BasisCombination(v: Vec3, e1: Vec4, e2: Vec4, e3: Vec4, e4: Vec4)
    requires e1 == Vec4(1.0, 0.0, 0.0, 0.0) && e2 == Vec4(0.0, 1.0, 0.0, 0.0)
    requires e3 == Vec4(0.0, 0.0, 1.0, 0.0) && e4 == Vec4(0.0, 0.0, 0.0, 1.0)
    ensures Add4(Add4(Add4(Scale4(v.x, e1), Scale4(v.y, e2)), Scale4(v.z, e3)), e4) == Vec4(v.x, v.y, v.z, 1.0)
  {
  }

  /** A transform is determined by its four rows. */
  lemma FromRows(t: CATransform3D)
    ensures t == CATransform3D(
      Row1(t).x, Row1(t).y, Row1(t).z, Row1(t).w, Row2(t).x, Row2(t).y, Row2(t).z, Row2(t).w,
      Row3(t).x, Row3(t).y, Row3(t).z, Row3(t).w, Row4(t).x, Row4(t).y, Row4(t).z, Row4(t).w)
  {
  }

  /** `translatedBy()` with every component omitted leaves the transform as it is. */
  lemma TranslatedByDefaults(t: CATransform3D)
    ensures TranslatedBy(t, None, None, None) == t
  {
    var r := TranslatedBy(t, None, None, None);
    assert Row4(r) == Row4(t);
  }

  /** The point overloads are `translatedBy` and `scaledBy` with `z` given as 0. */
  lemma PointOverloads(t: CATransform3D, p: Vec2)
    ensures TranslatedByPoint(t, p) == TranslatedBy(t, Some(p.x), Some(p.y), None)
    ensures ScaledByPoint(t, p) == ScaledBy(t, Some(p.x), Some(p.y), Some(0.0))
  {
  }

  /** `scaledBy()` with every component omitted leaves the transform as it is. */
  lemma ScaledByDefaults(t: CATransform3D)
    ensures ScaledBy(t, None, None, None) == t
  {
    var r := ScaledBy(t, None, None, None);
    assert Row1(r) == Row1(t) && Row2(r) == Row2(t) && Row3(r) == Row3(t);
  }

  /** Scaling by a point zeroes the third row, unlike `scaledBy(x:y:)`, which keeps it. */
  lemma ScaledByPointFlattens(t: CATransform3D, p: Vec2)
    ensures Row3(ScaledByPoint(t, p)) == Zero4()
    ensures Row3(ScaledBy(t, Some(p.x), Some(p.y), None)) == Row3(t)
  {
  }

  /** `rotatedBy(angle:)` without an axis builds a quaternion without an axis, which leaves the transform as it is. */
  lemma RotatedByWithoutAxis(num: Numerics, t: CATransform3D, angle: Option<real>)
    ensures RotatedBy(num, t, angle, None, None, None) == t
  {
    CGFloatVectorTypes.ZeroAxisStorage(num, angle.GetOr(0.0));
  }

  /** `rotatedBy(x:y:z:)` with every angle omitted leaves the transform as it is. */
  lemma RotatedByEulerDefaults(num: Numerics, t: CATransform3D)
    requires TrigAtZero(num)
    ensures RotatedByEuler(num, t, None, None, None) == t
  {
    Matrix.RotatedByZeroEuler(num, MatrixOf(t));
    TransformRoundTrip(t);
  }

  /** `applyingPerspective(m14:m24:m34:m44:)` writes each given entry and keeps each omitted one. */
  lemma ApplyingPerspectiveByFills(t: CATransform3D, m14: Option<real>, m24: Option<real>, m34: Option<real>, m44: Option<real>)
    ensures var r := ApplyingPerspectiveBy(t, m14, m24, m34, m44);
      && r.m14 == m14.GetOr(t.m14) && r.m24 == m24.GetOr(t.m24)
      && r.m34 == m34.GetOr(t.m34) && r.m44 == m44.GetOr(t.m44)
      && r.(m14 := t.m14, m24 := t.m24, m34 := t.m34, m44 := t.m44) == t
  {
  }

  /** With every argument omitted it leaves the transform as it is. */
  lemma ApplyingPerspectiveByDefaults(t: CATransform3D)
    ensures ApplyingPerspectiveBy(t, None, None, None, None) == t
  {
    ApplyingPerspectiveByFills(t, None, None, None, None);
  }

  /**
   * `skewedBy()` with every component omitted skews by the current skew
   * once more: whenever the decomposed `xy` is non-zero and row 1 is not
   * zero, the transform changes.
   */
  lemma SkewedByReappliesSkew(num: Numerics, t: CATransform3D)
    requires XY(Decomposed(num, t).skew) != 0.0 && Row1(t) != Zero4()
    ensures SkewedBy(num, t, None, None, None) != t
  {
    var k := XY(Decomposed(num, t).skew);
    var r := SkewedBy(num, t, None, None, None);
    if r == t {
      assert Scale4(k, Row1(t)) == Zero4();
      ScaledToZero(k, Row1(t));
      assert false;
    }
  }

  lemma ScaledToZero(k: real, v: Vec4)
    requires k != 0.0 && Scale4(k, v) == Zero4()
    ensures v == Zero4()
  {
    assert v.x == (1.0 / k) * (k * v.x);
    assert v.y == (1.0 / k) * (k * v.y);
    assert v.z == (1.0 / k) * (k * v.z);
    assert v.w == (1.0 / k) * (k * v.w);
  }

  /** `skewedBy(xy:xz:yz:)` with an omitted component skewing by 0, like the other `...By` builders. */
  function CorrectedSkewedBy(t: CATransform3D, xy: Option<real>, xz: Option<real>, yz: Option<real>): (r: CATransform3D)
    ensures xy.None? && xz.None? && yz.None? ==> r == t
    ensures Row2(r) == Add4(Row2(t), Scale4(xy.GetOr(0.0), Row1(t)))
  {
    Matrix.SkewedByZero(MatrixOf(t));
    Skewed(t, Convenience.SkewVectorInit(xy, xz, yz))
  }

  // ----- the property setters and the round trip -----

  /**
   * An affine transform (`m14 = m24 = m34 = 0`, `m44 = 1`) that is not
   * degenerate and has non-zero scales is its own recomposed decomposition,
   * given exact square roots and rotations.
   */
  lemma RecomposedDecomposedAffine(num: Numerics, t: CATransform3D)
    requires Props.ExactRotations(num) && ExactSqrt(num)
    requires t.m14 == 0.0 && t.m24 == 0.0 && t.m34 == 0.0 && t.m44 == 1.0
    requires !Matrix.Degenerate(MatrixOf(t))
    requires Props.NonZeroScale(Matrix.GramSchmidt(num, Matrix.RotationLocal(MatrixOf(t))))
    ensures Recomposed(num, Decomposed(num, t)) == t
  {
    Props.NormalizedByOne(MatrixOf(t));
    Props.RecomposeDecomposeRoundTrip(num, MatrixOf(t));
    TransformRoundTrip(t);
  }

  /** For such a transform, assigning any property its current value leaves the transform as it is. */
  lemma SettersAtCurrentValue(num: Numerics, t: CATransform3D)
    requires Props.ExactRotations(num) && ExactSqrt(num)
    requires t.m14 == 0.0 && t.m24 == 0.0 && t.m34 == 0.0 && t.m44 == 1.0
    requires !Matrix.Degenerate(MatrixOf(t))
    requires Props.NonZeroScale(Matrix.GramSchmidt(num, Matrix.RotationLocal(MatrixOf(t))))
    ensures var d := Decomposed(num, t);
      && WithTranslation(num, t, d.translation) == t
      && WithScale(num, t, d.scale) == t
      && WithRotation(num, t, d.rotation) == t
      && WithSkew(num, t, d.skew) == t
      && WithPerspective(num, t, d.perspective) == t
  {
    RecomposedDecomposedAffine(num, t);
    var d := Decomposed(num, t);
    UnchangedFields(d);
    TranslationKept(num, t, d);
    ScaleKept(num, t, d);
    RotationKept(num, t, d);
    SkewKept(num, t, d);
    PerspectiveKept(num, t, d);
  }

  // One setter per lemma: unfolding all five setters at once is beyond the solver's budget.

  /** Only unfolds the `translation` setter: its requires is its ensures once `With` is expanded. */
  lemma TranslationKept(num: Numerics, t: CATransform3D, d: Matrix.DecomposedTransform)
    requires d == Decomposed(num, t) && Recomposed(num, d.(translation := d.translation)) == t
    ensures WithTranslation(num, t, d.translation) == t
  {
  }

  /** Only unfolds the `scale` setter: its requires is its ensures once `With` is expanded. */
  lemma ScaleKept(num: Numerics, t: CATransform3D, d: Matrix.DecomposedTransform)
    requires d == Decomposed(num, t) && Recomposed(num, d.(scale := d.scale)) == t
    ensures WithScale(num, t, d.scale) == t
  {
  }

  /** Only unfolds the `rotation` setter: its requires is its ensures once `With` is expanded. */
  lemma RotationKept(num: Numerics, t: CATransform3D, d: Matrix.DecomposedTransform)
    requires d == Decomposed(num, t) && Recomposed(num, d.(rotation := d.rotation)) == t
    ensures WithRotation(num, t, d.rotation) == t
  {
  }

  /** Only unfolds the `skew` setter: its requires is its ensures once `With` is expanded. */
  lemma SkewKept(num: Numerics, t: CATransform3D, d: Matrix.DecomposedTransform)
    requires d == Decomposed(num, t) && Recomposed(num, d.(skew := d.skew)) == t
    ensures WithSkew(num, t, d.skew) == t
  {
  }

  /** Only unfolds the `perspective` setter: its requires is its ensures once `With` is expanded. */
  lemma PerspectiveKept(num: Numerics, t: CATransform3D, d: Matrix.DecomposedTransform)
    requires d == Decomposed(num, t) && Recomposed(num, d.(perspective := d.perspective)) == t
    ensures WithPerspective(num, t, d.perspective) == t
  {
  }

  /** Replacing a field of a decomposition by its own value gives the same decomposition. */
  lemma UnchangedFields(d: Matrix.DecomposedTransform)
    ensures && d.(translation := d.translation) == d
            && d.(scale := d.scale) == d
            && d.(rotation := d.rotation) == d
            && d.(skew := d.skew) == d
            && d.(perspective := d.perspective) == d
  {
  }

  /**
   * The `translation` setter reads back: for a transform without
   * perspective, whose rotation matrix leaves the origin fixed, the new
   * transform decomposes with the translation assigned, unless it is
   * degenerate.
   */
  lemma TranslationSetterReadsBack(num: Numerics, t: CATransform3D, v: Vec3)
    requires Decomposed(num, t).perspective == Vec4(0.0, 0.0, 0.0, 1.0)
    requires num.rotationMatrix(Decomposed(num, t).rotation).c3 == Vec4(0.0, 0.0, 0.0, 1.0)
    requires !Matrix.Degenerate(MatrixOf(WithTranslation(num, t, v)))
    ensures Decomposed(num, WithTranslation(num, t, v)).translation == v
  {
    Props.TranslationReadsBack(num, Decomposed(num, t).(translation := v));
  }

  // ----- interpolation -----

  /** The transform lerp is the matrix lerp on the transform's matrices. */
  lemma LerpIsMatrixLerp(num: Numerics, a: CATransform3D, b: CATransform3D, fraction: real)
    ensures MatrixOf(Lerp(num, a, b, fraction)) == Matrix.MatrixLerp(num, MatrixOf(a), MatrixOf(b), fraction)
  {
  }

  /** Between affine transforms as above, fraction 0 gives the start and fraction 1 the end. */
  lemma LerpEndpoints(num: Numerics, a: CATransform3D, b: CATransform3D)
    requires Props.ExactRotations(num) && ExactSqrt(num) && SlerpEndpoints(num)
    requires a.m14 == 0.0 && a.m24 == 0.0 && a.m34 == 0.0 && a.m44 == 1.0
    requires b.m14 == 0.0 && b.m24 == 0.0 && b.m34 == 0.0 && b.m44 == 1.0
    requires !Matrix.Degenerate(MatrixOf(a)) && !Matrix.Degenerate(MatrixOf(b))
    requires Props.NonZeroScale(Matrix.GramSchmidt(num, Matrix.RotationLocal(MatrixOf(a))))
    requires Props.NonZeroScale(Matrix.GramSchmidt(num, Matrix.RotationLocal(MatrixOf(b))))
    ensures Lerp(num, a, b, 0.0) == a && Lerp(num, a, b, 1.0) == b
  {
    RecomposedDecomposedAffine(num, a);
    RecomposedDecomposedAffine(num, b);
  }

  // ----- a transform variable -----

  /** A `CATransform3D` variable, which the initialiser and the mutating members reassign. */
  class Transform {
    var value: CATransform3D

    /** `init(_ matrix:)`: starts from the identity and assigns the sixteen entries one by one. */
    constructor(matrix: Mat4)
      ensures MatrixOf(value) == matrix
    {
      new;
      AssignMatrix(matrix);
    }

    /** `self = CATransform3D(matrix)`: the identity with its sixteen entries overwritten one by one. */
    method AssignMatrix(matrix: Mat4)
      modifies this
      ensures value == FromMatrix(matrix)
    {
      var t := IdentityTransform();
      t := t.(m11 := matrix.c0.x);
      t := t.(m12 := matrix.c0.y);
      t := t.(m13 := matrix.c0.z);
      t := t.(m14 := matrix.c0.w);
      t := t.(m21 := matrix.c1.x);
      t := t.(m22 := matrix.c1.y);
      t := t.(m23 := matrix.c1.z);
      t := t.(m24 := matrix.c1.w);
      t := t.(m31 := matrix.c2.x);
      t := t.(m32 := matrix.c2.y);
      t := t.(m33 := matrix.c2.z);
      t := t.(m34 := matrix.c2.w);
      t := t.(m41 := matrix.c3.x);
      t := t.(m42 := matrix.c3.y);
      t := t.(m43 := matrix.c3.z);
      t := t.(m44 := matrix.c3.w);
      value := t;
    }

    /** The `translation` setter. */
    method SetTranslation(num: Numerics, v: Vec3)
      modifies this
      ensures value == WithTranslation(num, old(value), v)
    {
      var decomposed := Decomposed(num, value);
      decomposed := decomposed.(translation := v);
      value := Recomposed(num, decomposed);
    }

    /** The `scale` setter. */
    method SetScale(num: Numerics, s: Vec3)
      modifies this
      ensures value == WithScale(num, old(value), s)
    {
      var decomposed := Decomposed(num, value);
      decomposed := decomposed.(scale := s);
      value := Recomposed(num, decomposed);
    }

    /** The `rotation` setter. */
    method SetRotation(num: Numerics, q: Quat)
      modifies this
      ensures value == WithRotation(num, old(value), q)
    {
      var decomposed := Decomposed(num, value);
      decomposed := decomposed.(rotation := q);
      value := Recomposed(num, decomposed);
    }

    /** The `eulerAngles` setter. */
    method SetEulerAngles(num: Numerics, e: Vec3)
      modifies this
      ensures value == WithEulerAngles(num, old(value), e)
    {
      var decomposed := Decomposed(num, value);
      decomposed := Matrix.WithEulerAngles(num, decomposed, e);
      value := Recomposed(num, decomposed);
    }

    /** The `skew` setter. */
    method SetSkew(num: Numerics, s: Vec3)
      modifies this
      ensures value == WithSkew(num, old(value), s)
    {
      var decomposed := Decomposed(num, value);
      decomposed := decomposed.(skew := s);
      value := Recomposed(num, decomposed);
    }

    /** The `perspective` setter. */
    method SetPerspective(num: Numerics, p: Vec4)
      modifies this
      ensures value == WithPerspective(num, old(value), p)
    {
      var decomposed := Decomposed(num, value);
      decomposed := decomposed.(perspective := p);
      value := Recomposed(num, decomposed);
    }

    /** `translate(by:)`; `translate(by: CGPoint)` passes `z = 0`. */
    method Translate(v: Vec3)
      modifies this
      ensures value == Translated(old(value), v)
    {
      AssignMatrix(Matrix.Translated(MatrixOf(value), v));
    }

    /** `scale(by:)`; `scale(by: CGPoint)` passes a `z` scale of 0. */
    method Scale(s: Vec3)
      modifies this
      ensures value == Scaled(old(value), s)
    {
      AssignMatrix(Matrix.Scaled(MatrixOf(value), s));
    }

    /** `rotate(by: CGQuaternion)` */
    method Rotate(num: Numerics, q: Quat)
      modifies this
      ensures value == Rotated(num, old(value), q)
    {
      AssignMatrix(Matrix.Rotated(num, MatrixOf(value), q));
    }

    /** `rotate(by: eulerAngles)` */
    method RotateEuler(num: Numerics, e: Vec3)
      modifies this
      ensures value == RotatedEuler(num, old(value), e)
    {
      AssignMatrix(Matrix.RotatedEuler(num, MatrixOf(value), e));
    }

    /** `skew(by:)` */
    method Skew(s: Vec3)
      modifies this
      ensures value == Skewed(old(value), s)
    {
      AssignMatrix(Matrix.Skewed(MatrixOf(value), s));
    }

    /** `applyPerspective(_:)` */
    method ApplyPerspective(p: Vec4)
      modifies this
      ensures value == ApplyingPerspective(old(value), p)
    {
      AssignMatrix(Matrix.ApplyingPerspective(MatrixOf(value), p));
    }
  }

  /**
   * `CATransform3D.DecomposedTransform`: a wrapper whose setters write one
   * field of the stored decomposition.
   */
  class DecomposedTransform {
    var storage: Matrix.DecomposedTransform

    /** `init(_ decomposed:)` */
    constructor(decomposed: Matrix.DecomposedTransform)
      ensures storage == decomposed
    {
      storage := decomposed;
    }

    method SetTranslation(v: Vec3)
      modifies this
      ensures storage == old(storage).(translation := v)
    {
      storage := storage.(translation := v);
    }

    method SetScale(s: Vec3)
      modifies this
      ensures storage == old(storage).(scale := s)
    {
      storage := storage.(scale := s);
    }

    method SetRotation(q: Quat)
      modifies this
      ensures storage == old(storage).(rotation := q)
    {
      storage := storage.(rotation := q);
    }

    method SetSkew(s: Vec3)
      modifies this
      ensures storage == old(storage).(skew := s)
    {
      storage := storage.(skew := s);
    }

    method SetPerspective(p: Vec4)
      modifies this
      ensures storage == old(storage).(perspective := p)
    {
      storage := storage.(perspective := p);
    }

    /** `recomposed()` */
    function RecomposedTransform(num: Numerics): CATransform3D
      reads this
    {
      Recomposed(num, storage)
    }

    /** `lerp(to:fraction:)`: the storage lerp. */
    method Lerp(num: Numerics, to: DecomposedTransform, fraction: real) returns (r: DecomposedTransform)
      ensures fresh(r) && r.storage == Matrix.Lerp(num, storage, to.storage, fraction)
    {
      r := new DecomposedTransform(Matrix.Lerp(num, storage, to.storage, fraction));
    }
  }

  /** `decomposed()`: a fresh wrapper around the decomposition. */
  method Decompose(num: Numerics, t: CATransform3D) returns (r: DecomposedTransform)
    ensures fresh(r) && r.storage == Decomposed(num, t)
  {
    var d := Matrix.Decompose(num, MatrixOf(t));
    r := new DecomposedTransform(d);
  }
}
