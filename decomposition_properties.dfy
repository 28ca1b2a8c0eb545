/**
 * What the decomposition of `DecomposedTransform.init(_ matrix:)` achieves:
 * the perspective it solves for, the orthonormal columns and the
 * factorisation of the Gram-Schmidt pass, the sign after the reflection
 * flip, and the recomposition of an affine matrix giving the matrix back.
 */
module DecompositionProperties {
  import opened Simd
  import opened Interpolatable
  import opened SimdConvenienceExtensions
  import opened SimdDecomposed

  // ----- three-vector algebra -----

  lemma Dot3Symmetric(a: Vec3, b: Vec3)
    ensures Dot3(a, b) == Dot3(b, a)
  {
  }

  lemma Dot3Scale(u: Vec3, k: real, a: Vec3)
    ensures Dot3(u, Scale3(k, a)) == k * Dot3(u, a)
    ensures Dot3(Scale3(k, a), u) == k * Dot3(a, u)
  {
  }

  /** `simd_linear_combination(1, a, -k, b)` is `a - k·b`. */
  lemma LinearCombinationSubtracts(a: Vec3, k: real, b: Vec3)
    ensures LinearCombination(1.0, a, -k, b) == Sub3(a, Scale3(k, b))
  {
  }

  lemma Dot3Subtract(u: Vec3, a: Vec3, k: real, b: Vec3)
    ensures Dot3(u, LinearCombination(1.0, a, -k, b)) == Dot3(u, a) - k * Dot3(u, b)
  {
    LinearCombinationSubtracts(a, k, b);
  }

  /** Subtracting from `a` its component along a unit vector `u` leaves a vector orthogonal to `u`. */
  lemma ProjectionRemoved(u: Vec3, a: Vec3)
    requires Dot3(u, u) == 1.0
    ensures Dot3(u, LinearCombination(1.0, a, -Dot3(u, a), u)) == 0.0
  {
    Dot3Subtract(u, a, Dot3(u, a), u);
  }

  /** A vector of non-zero length is its length times its normalisation. */
  lemma NormalizeRescales(num: Numerics, v: Vec3)
    requires Length(num, v) != 0.0
    ensures Scale3(Length(num, v), Normalize(num, v)) == v
  {
    var l := Length(num, v);
    assert l * (1.0 / l) == 1.0;
    assert l * (1.0 / l * v.x) == v.x;
    assert l * (1.0 / l * v.y) == v.y;
    assert l * (1.0 / l * v.z) == v.z;
  }

  /** Normalising a vector orthogonal to `u` keeps it orthogonal to `u`. */
  lemma NormalizeKeepsOrthogonal(num: Numerics, u: Vec3, v: Vec3)
    requires Dot3(u, v) == 0.0
    ensures Dot3(u, Normalize(num, v)) == 0.0
  {
    var l := Length(num, v);
    if l != 0.0 {
      Dot3Scale(u, 1.0 / l, v);
    }
  }

  // ----- the Gram-Schmidt pass -----

  /** Columns of unit length, pairwise orthogonal. */
  predicate Orthonormal(r: Mat3) {
    && Dot3(r.c0, r.c0) == 1.0 && Dot3(r.c1, r.c1) == 1.0 && Dot3(r.c2, r.c2) == 1.0
    && Dot3(r.c0, r.c1) == 0.0 && Dot3(r.c0, r.c2) == 0.0 && Dot3(r.c1, r.c2) == 0.0
  }

  /** The three lengths the pass divides by are non-zero. */
  predicate NonZeroScale(f: ScaleAndShear) {
    f.scale.x != 0.0 && f.scale.y != 0.0 && f.scale.z != 0.0
  }

  /**
   * The 3x3 matrix `rotation · skew · scale` as recomposition builds it:
   * column 0 is `sx·r0`, column 1 is `sy·(r1 + xy·r0)`, column 2 is
   * `sz·(r2 + yz·r1 + xz·r0)`.
   */
  function Composed(f: ScaleAndShear): Mat3 {
    var r, s, k := f.rotation, f.scale, f.skew;
    Mat3(Scale3(s.x, r.c0),
         Scale3(s.y, Add3(r.c1, Scale3(XY(k), r.c0))),
         Scale3(s.z, Add3(Add3(r.c2, Scale3(YZ(k), r.c1)), Scale3(XZ(k), r.c0))))
  }

  /** After line 303, column 1 is orthogonal to the unit column 0; after line 312 column 2 is orthogonal to both. */
  lemma {:induction false} GramSchmidtOrthonormal(num: Numerics, r: Mat3)
    requires ExactSqrt(num)
    requires NonZeroScale(GramSchmidt(num, r))
    ensures Orthonormal(GramSchmidt(num, r).rotation)
  {
    var c0 := Normalize(num, r.c0);
    NormalizeUnit(num, r.c0);
    var xy := Dot3(c0, r.c1);
    var c1 := LinearCombination(1.0, r.c1, -xy, c0);
    ProjectionRemoved(c0, r.c1);
    var c1n := Normalize(num, c1);
    NormalizeUnit(num, c1);
    NormalizeKeepsOrthogonal(num, c0, c1);
    var xz := Dot3(c0, r.c2);
    var c2 := LinearCombination(1.0, r.c2, -xz, c0);
    ProjectionRemoved(c0, r.c2);
    var yz := Dot3(c1n, c2);
    var c2b := LinearCombination(1.0, c2, -yz, c1n);
    ProjectionRemoved(c1n, c2);
    Dot3Subtract(c0, c2, yz, c1n);
    assert Dot3(c0, c2b) == 0.0;
    NormalizeUnit(num, c2b);
    NormalizeKeepsOrthogonal(num, c0, c2b);
    NormalizeKeepsOrthogonal(num, c1n, c2b);
  }

  /** The columns of the upper block are the product of the orthonormal columns, the skew and the scale. */
  lemma {:induction false} GramSchmidtFactors(num: Numerics, r: Mat3)
    requires NonZeroScale(GramSchmidt(num, r))
    ensures Composed(GramSchmidt(num, r)) == r
  {
    var f := GramSchmidt(num, r);
    var sx := Length(num, r.c0);
    var c0 := Normalize(num, r.c0);
    NormalizeRescales(num, r.c0);
    var xy := Dot3(c0, r.c1);
    var c1 := LinearCombination(1.0, r.c1, -xy, c0);
    var sy := Length(num, c1);
    var c1n := Normalize(num, c1);
    NormalizeRescales(num, c1);
    var xz := Dot3(c0, r.c2);
    var c2 := LinearCombination(1.0, r.c2, -xz, c0);
    var yz := Dot3(c1n, c2);
    var c2b := LinearCombination(1.0, c2, -yz, c1n);
    var sz := Length(num, c2b);
    NormalizeRescales(num, c2b);
    assert f.skew == Vec3(xy / sy, xz / sz, yz / sz);
    ColumnFactor1(r.c1, c0, c1, c1n, xy, sy);
    ColumnFactor2(r.c2, c0, c1n, c2, c2b, f.rotation.c2, xz, yz, sz);
  }

  lemma ColumnFactor1(a: Vec3, u: Vec3, b: Vec3, bn: Vec3, xy: real, sy: real)
    requires b == LinearCombination(1.0, a, -xy, u)
    requires Scale3(sy, bn) == b && sy != 0.0
    ensures Scale3(sy, Add3(bn, Scale3(xy / sy, u))) == a
  {
    assert sy * (xy / sy) == xy;
    var lhs := Scale3(sy, Add3(bn, Scale3(xy / sy, u)));
    assert lhs.x == sy * bn.x + sy * (xy / sy) * u.x;
    assert lhs.y == sy * bn.y + sy * (xy / sy) * u.y;
    assert lhs.z == sy * bn.z + sy * (xy / sy) * u.z;
  }

  lemma ColumnFactor2(a: Vec3, u: Vec3, v: Vec3, c: Vec3, cb: Vec3, cn: Vec3, xz: real, yz: real, sz: real)
    requires c == LinearCombination(1.0, a, -xz, u)
    requires cb == LinearCombination(1.0, c, -yz, v)
    requires Scale3(sz, cn) == cb && sz != 0.0
    ensures Scale3(sz, Add3(Add3(cn, Scale3(yz / sz, v)), Scale3(xz / sz, u))) == a
  {
    ColumnFactor1(c, v, cb, cn, yz, sz);
    var w := Add3(cn, Scale3(yz / sz, v));
    ScaleDistributes(sz, w, xz, u);
    AddBack(a, xz, u, c);
  }

  /** `s·(w + (x / s)·u) = s·w + x·u` for non-zero `s`. */
  lemma ScaleDistributes(s: real, w: Vec3, x: real, u: Vec3)
    requires s != 0.0
    ensures Scale3(s, Add3(w, Scale3(x / s, u))) == Add3(Scale3(s, w), Scale3(x, u))
  {
    assert s * (x / s) == x;
    var lhs := Scale3(s, Add3(w, Scale3(x / s, u)));
    assert lhs.x == s * w.x + s * (x / s) * u.x;
    assert lhs.y == s * w.y + s * (x / s) * u.y;
    assert lhs.z == s * w.z + s * (x / s) * u.z;
  }

  /** Adding back the component that was subtracted restores the vector. */
  lemma AddBack(a: Vec3, k: real, u: Vec3, c: Vec3)
    requires c == LinearCombination(1.0, a, -k, u)
    ensures Add3(c, Scale3(k, u)) == a
  {
  }

  // ----- the reflection flip -----

  /** Negating all three columns negates the determinant. */
  lemma Det3Negated(r: Mat3)
    ensures Det3(Mat3(Scale3(-1.0, r.c0), Scale3(-1.0, r.c1), Scale3(-1.0, r.c2))) == -Det3(r)
  {
    var n0, n1, n2 := Scale3(-1.0, r.c0), Scale3(-1.0, r.c1), Scale3(-1.0, r.c2);
    assert Cross(n1, n2) == Cross(r.c1, r.c2);
    assert Dot3(n0, Cross(r.c1, r.c2)) == -Dot3(r.c0, Cross(r.c1, r.c2));
  }

  /** After the flip the determinant of the columns is non-negative. */
  lemma ReflectedDeterminant(f: ScaleAndShear)
    ensures Det3(Reflected(f).rotation) >= 0.0
  {
    Det3Negated(f.rotation);
  }

  /** The flip changes neither the skew, nor the product it factors, nor whether the scale is non-zero. */
  lemma ReflectedFactors(f: ScaleAndShear)
    ensures Reflected(f).skew == f.skew
    ensures Composed(Reflected(f)) == Composed(f)
    ensures NonZeroScale(Reflected(f)) == NonZeroScale(f)
  {
    if Det3(f.rotation) < 0.0 {
      var g := Reflected(f);
      var r, s, k := f.rotation, f.scale, f.skew;
      var n0, n1, n2 := Scale3(-1.0, r.c0), Scale3(-1.0, r.c1), Scale3(-1.0, r.c2);
      assert g.rotation == Mat3(n0, n1, n2);
      NegatedProduct(s.x, r.c0);
      NegatedCombination(XY(k), r.c0, r.c1);
      NegatedProduct(s.y, Add3(r.c1, Scale3(XY(k), r.c0)));
      NegatedCombination(YZ(k), r.c1, r.c2);
      NegatedCombination(XZ(k), r.c0, Add3(r.c2, Scale3(YZ(k), r.c1)));
      NegatedProduct(s.z, Add3(Add3(r.c2, Scale3(YZ(k), r.c1)), Scale3(XZ(k), r.c0)));
    }
  }

  /** The flip keeps the columns orthonormal. */
  lemma ReflectedOrthonormal(f: ScaleAndShear)
    requires Orthonormal(f.rotation)
    ensures Orthonormal(Reflected(f).rotation)
  {
    if Det3(f.rotation) < 0.0 {
      var r := f.rotation;
      NegatedDot(r.c0, r.c0); NegatedDot(r.c1, r.c1); NegatedDot(r.c2, r.c2);
      NegatedDot(r.c0, r.c1); NegatedDot(r.c0, r.c2); NegatedDot(r.c1, r.c2);
    }
  }

  lemma NegatedProduct(s: real, v: Vec3)
    ensures Scale3(-1.0 * s, Scale3(-1.0, v)) == Scale3(s, v)
  {
  }

  lemma NegatedCombination(k: real, a: Vec3, b: Vec3)
    ensures Add3(Scale3(-1.0, b), Scale3(k, Scale3(-1.0, a))) == Scale3(-1.0, Add3(b, Scale3(k, a)))
  {
  }

  lemma NegatedDot(a: Vec3, b: Vec3)
    ensures Dot3(Scale3(-1.0, a), Scale3(-1.0, b)) == Dot3(a, b)
  {
  }

  // ----- the perspective -----

  /**
   * When the perspective block is invertible, the solved perspective `x`
   * satisfies `Pᵀ·x = (l[0][3], l[1][3], l[2][3], l[3][3])`.
   */
  lemma {:induction false} PerspectiveSolves(num: Numerics, l: Mat4)
    requires ExactInverse(num) && Det(PerspectiveBlock(l)) != 0.0
    ensures MulVec(Transpose(PerspectiveBlock(l)), SolvedPerspective(num, l)) == Row3(l)
  {
    var p := PerspectiveBlock(l);
    var inv := num.inverse(p);
    var x := SolvedPerspective(num, l);
    var rhs := Row3(l);
    assert Mul(inv, p) == Identity();
    SolvedRow(p, inv, rhs, p.c0, Identity().c0);
    SolvedRow(p, inv, rhs, p.c1, Identity().c1);
    SolvedRow(p, inv, rhs, p.c2, Identity().c2);
    SolvedRow(p, inv, rhs, p.c3, Identity().c3);
  }

  /** One row of the perspective equation: `c · (inv(P)ᵀ·rhs) == (inv(P)·c) · rhs`, and `inv(P)·c` is a unit vector. */
  lemma SolvedRow(p: Mat4, inv: Mat4, rhs: Vec4, c: Vec4, e: Vec4)
    requires MulVec(inv, c) == e
    ensures Dot4(c, MulVec(Transpose(inv), rhs)) == Dot4(e, rhs)
  {
    Adjoint(inv, c, rhs);
  }

  // ----- normalisation -----

  /** Normalising twice is normalising once. */
  lemma NormalizedIdempotent(m: Mat4)
    ensures Normalized(Normalized(m)) == Normalized(m)
  {
    var n := Normalized(m);
    if m.c3.w != 0.0 {
      assert n.c3.w == 1.0;
      assert MatrixScale(1.0 / 1.0, n) == n;
    }
  }

  // ----- recomposing an affine decomposition -----

  /** A three-vector as a direction: `(v, 0)`. */
  function Lift(v: Vec3): Vec4 { Vec4(v.x, v.y, v.z, 0.0) }

  function Identity3(): Mat3 { Mat3(Vec3(1.0, 0.0, 0.0), Vec3(0.0, 1.0, 0.0), Vec3(0.0, 0.0, 1.0)) }

  /** The affine matrix with upper block `r` and translation `t`; row 3 is `(0, 0, 0, 1)`. */
  function AffineMatrix(r: Mat3, t: Vec3): Mat4 {
    Mat4(Lift(r.c0), Lift(r.c1), Lift(r.c2), Vec4(t.x, t.y, t.z, 1.0))
  }

  /** A 3x3 rotation as the 4x4 matrix `matrix_double4x4(simd_quatd)` builds. */
  function Embed(r: Mat3): Mat4 { AffineMatrix(r, Zero3()) }

  /**
   * simd's quaternion of an exact rotation matrix turns back into that
   * matrix, and its axis is undefined only for the identity.
   */
  ghost predicate ExactRotations(num: Numerics) {
    forall r {:trigger num.quatFromRotation(r)} :: Orthonormal(r) && Det3(r) >= 0.0 ==>
      && num.rotationMatrix(num.quatFromRotation(r)) == Embed(r)
      && (AxisIsNaN(num.quatFromRotation(r)) ==> r == Identity3())
  }

  /** The identity is a left unit of the matrix-vector product. */
  lemma IdentityTimes(v: Vec4)
    ensures MulVec(Identity(), v) == v
  {
  }

  /** The identity is a left unit of the matrix product. */
  lemma LeftIdentity(m: Mat4)
    ensures Mul(Identity(), m) == m
  {
    IdentityTimes(m.c0);
    IdentityTimes(m.c1);
    IdentityTimes(m.c2);
    IdentityTimes(m.c3);
  }

  lemma TranslationMatrixAffine(t: Vec3)
    ensures TranslationMatrix(t) == AffineMatrix(Identity3(), t)
  {
  }

  /** Translating the identity gives the pure translation. */
  lemma TranslatedIdentity(t: Vec3)
    ensures Translated(Identity(), t) == AffineMatrix(Identity3(), t)
  {
    LeftIdentity(TranslationMatrix(t));
    TranslationMatrixAffine(t);
  }

  /** A pure translation moves a point by `w` times the translation and leaves a direction alone. */
  lemma TranslationTimes(t: Vec3, v: Vec4)
    ensures MulVec(AffineMatrix(Identity3(), t), v) == Vec4(v.x + v.w * t.x, v.y + v.w * t.y, v.z + v.w * t.z, v.w)
  {
  }

  /** Rotating a pure translation by an embedded 3x3 matrix puts that matrix in the upper block. */
  lemma RotatedTranslation(r: Mat3, t: Vec3)
    ensures Mul(AffineMatrix(Identity3(), t), Embed(r)) == AffineMatrix(r, t)
  {
    var e := Embed(r);
    TranslationTimes(t, e.c0);
    TranslationTimes(t, e.c1);
    TranslationTimes(t, e.c2);
    TranslationTimes(t, e.c3);
  }

  lemma ScaledAffine(r: Mat3, t: Vec3, s: Vec3)
    ensures Scaled(AffineMatrix(r, t), s)
         == AffineMatrix(Mat3(Scale3(s.x, r.c0), Scale3(s.y, r.c1), Scale3(s.z, r.c2)), t)
  {
  }

  lemma LiftCombination(a: Vec3, k: real, b: Vec3)
    ensures Add4(Lift(a), Scale4(k, Lift(b))) == Lift(Add3(a, Scale3(k, b)))
  {
  }

  lemma SkewedAffine(r: Mat3, t: Vec3, k: Vec3)
    ensures Skewed(AffineMatrix(r, t), k)
         == AffineMatrix(Mat3(r.c0, Add3(r.c1, Scale3(XY(k), r.c0)), Add3(Add3(r.c2, Scale3(YZ(k), r.c1)), Scale3(XZ(k), r.c0))), t)
  {
    SkewedColumns(AffineMatrix(r, t), k);
    LiftCombination(r.c1, XY(k), r.c0);
    LiftCombination(r.c2, YZ(k), r.c1);
    LiftCombination(Add3(r.c2, Scale3(YZ(k), r.c1)), XZ(k), r.c0);
  }

  /** Perspective `(0, 0, 0, 1)` leaves the identity alone. */
  lemma NoPerspectiveIdentity()
    ensures ApplyingPerspective(Identity(), Vec4(0.0, 0.0, 0.0, 1.0)) == Identity()
  {
  }

  /**
   * The first three steps of `recomposed()` without perspective: the
   * translation, then the rotation, give the affine matrix with the rotation
   * as its upper block, also when the rotation step is skipped for an
   * undefined axis.
   */
  lemma RecomposedRotation(num: Numerics, d: DecomposedTransform, r: Mat3)
    requires d.perspective == Vec4(0.0, 0.0, 0.0, 1.0)
    requires num.rotationMatrix(d.rotation) == Embed(r)
    requires AxisIsNaN(d.rotation) ==> r == Identity3()
    ensures Rotated(num, Translated(ApplyingPerspective(Identity(), d.perspective), d.translation), d.rotation)
         == AffineMatrix(r, d.translation)
  {
    NoPerspectiveIdentity();
    TranslatedIdentity(d.translation);
    RotatedTranslation(r, d.translation);
  }

  /** Skewing, then scaling, an affine matrix multiplies its upper block by skew times scale. */
  lemma SkewedScaledAffine(r: Mat3, t: Vec3, k: Vec3, s: Vec3)
    ensures Scaled(Skewed(AffineMatrix(r, t), k), s) == AffineMatrix(Composed(ScaleAndShear(r, s, k)), t)
  {
    var skewedUpper := Mat3(r.c0, Add3(r.c1, Scale3(XY(k), r.c0)), Add3(Add3(r.c2, Scale3(YZ(k), r.c1)), Scale3(XZ(k), r.c0)));
    SkewedAffine(r, t, k);
    ScaledAffine(skewedUpper, t, s);
  }

  /**
   * Recomposing a decomposition with perspective `(0, 0, 0, 1)` gives the
   * affine matrix whose upper block is rotation times skew times scale and
   * whose column 3 is the translation.
   */
  lemma {:induction false} RecompositionAffine(num: Numerics, d: DecomposedTransform, r: Mat3)
    requires d.perspective == Vec4(0.0, 0.0, 0.0, 1.0)
    requires num.rotationMatrix(d.rotation) == Embed(r)
    requires AxisIsNaN(d.rotation) ==> r == Identity3()
    ensures Recomposition(num, d) == AffineMatrix(Composed(ScaleAndShear(r, d.scale, d.skew)), d.translation)
  {
    RecomposedRotation(num, d, r);
    SkewedScaledAffine(r, d.translation, d.skew, d.scale);
  }

  /** A matrix whose row 3 is `(0, 0, 0, w)` with `w` non-zero normalises to an affine matrix. */
  lemma AffineNormalized(m: Mat4)
    requires m.c0.w == 0.0 && m.c1.w == 0.0 && m.c2.w == 0.0 && m.c3.w != 0.0
    ensures !HasPerspective(Normalized(m))
    ensures Normalized(m) == AffineMatrix(RotationLocal(Normalized(m)), Xyz(Normalized(m).c3))
  {
    var l := Normalized(m);
    assert l.c0.w == (1.0 / m.c3.w) * 0.0;
    assert l.c1.w == (1.0 / m.c3.w) * 0.0;
    assert l.c2.w == (1.0 / m.c3.w) * 0.0;
  }

  /** The factors the decomposition keeps: the reflected Gram-Schmidt pass over the upper block. */
  lemma {:induction false} DecompositionFactors(num: Numerics, m: Mat4)
    requires ExactSqrt(num)
    requires NonZeroScale(GramSchmidt(num, RotationLocal(Normalized(m))))
    ensures var f := Reflected(GramSchmidt(num, RotationLocal(Normalized(m))));
      && Orthonormal(f.rotation) && Det3(f.rotation) >= 0.0
      && Composed(f) == RotationLocal(Normalized(m))
  {
    var f0 := GramSchmidt(num, RotationLocal(Normalized(m)));
    GramSchmidtOrthonormal(num, RotationLocal(Normalized(m)));
    GramSchmidtFactors(num, RotationLocal(Normalized(m)));
    ReflectedOrthonormal(f0);
    ReflectedDeterminant(f0);
    ReflectedFactors(f0);
  }

  /**
   * Decomposing an affine matrix and recomposing the parts gives the
   * normalised matrix back, when square roots and the quaternion conversions
   * are exact and none of the scale factors is zero.
   */
  lemma {:induction false} RecomposeDecomposeRoundTrip(num: Numerics, m: Mat4)
    requires ExactSqrt(num) && ExactRotations(num)
    requires m.c0.w == 0.0 && m.c1.w == 0.0 && m.c2.w == 0.0 && m.c3.w != 0.0
    requires !Degenerate(m)
    requires NonZeroScale(GramSchmidt(num, RotationLocal(Normalized(m))))
    ensures Recomposition(num, Decomposition(num, m)) == Normalized(m)
  {
    var l := Normalized(m);
    AffineNormalized(m);
    var f := Reflected(GramSchmidt(num, RotationLocal(l)));
    DecompositionFactors(num, m);
    var d := Decomposition(num, m);
    assert d.rotation == num.quatFromRotation(f.rotation);
    assert d.scale == f.scale && d.skew == f.skew;
    assert ScaleAndShear(f.rotation, d.scale, d.skew) == f;
    RecompositionAffine(num, d, f.rotation);
  }

  /**
   * Interpolating between two affine matrices starts at the first one and
   * ends at the second, both normalised, under the same conditions as the
   * round trip and a `simd_slerp` that meets its end points.
   */
  lemma {:induction false} MatrixLerpEndpoints(num: Numerics, a: Mat4, b: Mat4)
    requires ExactSqrt(num) && ExactRotations(num) && SlerpEndpoints(num)
    requires a.c0.w == 0.0 && a.c1.w == 0.0 && a.c2.w == 0.0 && a.c3.w != 0.0
    requires b.c0.w == 0.0 && b.c1.w == 0.0 && b.c2.w == 0.0 && b.c3.w != 0.0
    requires !Degenerate(a) && !Degenerate(b)
    requires NonZeroScale(GramSchmidt(num, RotationLocal(Normalized(a))))
    requires NonZeroScale(GramSchmidt(num, RotationLocal(Normalized(b))))
    ensures MatrixLerp(num, a, b, 0.0) == Normalized(a)
    ensures MatrixLerp(num, a, b, 1.0) == Normalized(b)
  {
    RecomposeDecomposeRoundTrip(num, a);
    RecomposeDecomposeRoundTrip(num, b);
    MatrixLerpAtZero(num, a, b);
    MatrixLerpAtOne(num, a, b);
  }

  // ----- the translation column -----

  /** A matrix whose `[3][3]` is already 1 is its own normalisation. */
  lemma NormalizedByOne(m: Mat4)
    requires m.c3.w == 1.0
    ensures Normalized(m) == m
  {
    assert MatrixScale(1.0 / 1.0, m) == m;
  }

  /** Perspective `(0, 0, 0, 1)`, then the translation, give the pure translation. */
  lemma NoPerspectiveTranslated(p: Vec4, t: Vec3)
    requires p == Vec4(0.0, 0.0, 0.0, 1.0)
    ensures Translated(ApplyingPerspective(Identity(), p), t) == AffineMatrix(Identity3(), t)
  {
    NoPerspectiveIdentity();
    TranslatedIdentity(t);
  }

  /** Rotating a pure translation keeps its column 3 when the rotation matrix's column 3 is `(0, 0, 0, 1)`. */
  lemma RotatedTranslationColumn(num: Numerics, t: Vec3, q: Quat)
    requires AxisIsNaN(q) || num.rotationMatrix(q).c3 == Vec4(0.0, 0.0, 0.0, 1.0)
    ensures Rotated(num, AffineMatrix(Identity3(), t), q).c3 == Vec4(t.x, t.y, t.z, 1.0)
  {
    if !AxisIsNaN(q) {
      TranslationTimes(t, num.rotationMatrix(q).c3);
    }
  }

  /** Skewing and scaling keep column 3. */
  lemma SkewedScaledColumn3(m: Mat4, k: Vec3, s: Vec3)
    ensures Scaled(Skewed(m, k), s).c3 == m.c3
  {
    SkewedColumns(m, k);
  }

  /**
   * Without perspective, and with a rotation matrix whose column 3 is
   * `(0, 0, 0, 1)` (or a rotation step that is skipped), column 3 of the
   * recomposed matrix is the translation with 1 below it.
   */
  lemma RecompositionTranslationColumn(num: Numerics, d: DecomposedTransform)
    requires d.perspective == Vec4(0.0, 0.0, 0.0, 1.0)
    requires AxisIsNaN(d.rotation) || num.rotationMatrix(d.rotation).c3 == Vec4(0.0, 0.0, 0.0, 1.0)
    ensures Recomposition(num, d).c3 == Vec4(d.translation.x, d.translation.y, d.translation.z, 1.0)
  {
    if AxisIsNaN(d.rotation) {
      TranslationColumnWithoutRotation(num, d);
    } else {
      TranslationColumnWithRotation(num, d);
    }
  }

  lemma TranslationColumnWithoutRotation(num: Numerics, d: DecomposedTransform)
    requires d.perspective == Vec4(0.0, 0.0, 0.0, 1.0)
    requires AxisIsNaN(d.rotation)
    ensures Recomposition(num, d).c3 == Vec4(d.translation.x, d.translation.y, d.translation.z, 1.0)
  {
    var a := AffineMatrix(Identity3(), d.translation);
    RecompositionWithoutPerspective(num, d);
    SkewedScaledColumn3(a, d.skew, d.scale);
  }

  lemma TranslationColumnWithRotation(num: Numerics, d: DecomposedTransform)
    requires d.perspective == Vec4(0.0, 0.0, 0.0, 1.0)
    requires num.rotationMatrix(d.rotation).c3 == Vec4(0.0, 0.0, 0.0, 1.0)
    ensures Recomposition(num, d).c3 == Vec4(d.translation.x, d.translation.y, d.translation.z, 1.0)
  {
    var rotated := Rotated(num, AffineMatrix(Identity3(), d.translation), d.rotation);
    RecompositionWithoutPerspective(num, d);
    RotatedTranslationColumn(num, d.translation, d.rotation);
    SkewedScaledColumn3(rotated, d.skew, d.scale);
  }

  /** Without perspective, recomposition starts from the pure translation. */
  lemma RecompositionWithoutPerspective(num: Numerics, d: DecomposedTransform)
    requires d.perspective == Vec4(0.0, 0.0, 0.0, 1.0)
    ensures Recomposition(num, d)
         == Scaled(Skewed(Rotated(num, AffineMatrix(Identity3(), d.translation), d.rotation), d.skew), d.scale)
  {
    NoPerspectiveTranslated(d.perspective, d.translation);
  }

  /** The decomposition of a non-degenerate matrix with `[3][3] = 1` takes column 3 as the translation. */
  lemma DecompositionTranslation(num: Numerics, m: Mat4)
    requires !Degenerate(m) && m.c3.w == 1.0
    ensures Decomposition(num, m).translation == Xyz(m.c3)
  {
    NormalizedByOne(m);
  }

  /** A non-degenerate matrix whose column 3 is `(t, 1)` decomposes with translation `t`. */
  lemma TranslationOfColumn(num: Numerics, t: Vec3, m: Mat4)
    requires m.c3 == Vec4(t.x, t.y, t.z, 1.0)
    requires !Degenerate(m)
    ensures Decomposition(num, m).translation == t
  {
    DecompositionTranslation(num, m);
  }

  /**
   * Recomposing with a new translation and decomposing again reads that
   * translation back, when the result is not degenerate and the rotation
   * matrix leaves the origin fixed.
   */
  lemma TranslationReadsBack(num: Numerics, d: DecomposedTransform)
    requires d.perspective == Vec4(0.0, 0.0, 0.0, 1.0)
    requires num.rotationMatrix(d.rotation).c3 == Vec4(0.0, 0.0, 0.0, 1.0)
    requires !Degenerate(Recomposition(num, d))
    ensures Decomposition(num, Recomposition(num, d)).translation == d.translation
  {
    TranslationColumnWithRotation(num, d);
    TranslationOfColumn(num, d.translation, Recomposition(num, d));
  }

  /** The same read-back when the rotation is skipped because its axis is undefined. */
  lemma TranslationReadsBackWithoutRotation(num: Numerics, d: DecomposedTransform)
    requires d.perspective == Vec4(0.0, 0.0, 0.0, 1.0)
    requires AxisIsNaN(d.rotation)
    requires !Degenerate(Recomposition(num, d))
    ensures Decomposition(num, Recomposition(num, d)).translation == d.translation
  {
    TranslationColumnWithoutRotation(num, d);
    TranslationOfColumn(num, d.translation, Recomposition(num, d));
  }
}
