/**
 * The parts of Apple's simd library that the transform engine uses: double
 * vectors, the `simd_quatd` quaternion, column-major 3x3 and 4x4 matrices,
 * their products and determinants.
 *
 * Scalars are `real`. A matrix is indexed by column first, as simd does:
 * `m[c][r]` is column `c`, row `r`.
 *
 * The square root, the transcendental functions and simd's own matrix and
 * quaternion routines (`inverse`, quaternion <-> rotation matrix, spherical
 * interpolation) are not definable over the reals in Dafny; they are the
 * fields of a `Numerics` value that the callers pass in. `ExactSqrt` and
 * `ExactInverse` say when the square root and the inverse are the true ones.
 */
module Simd {

  datatype Vec2 = Vec2(x: real, y: real)

  datatype Vec3 = Vec3(x: real, y: real, z: real)

  datatype Vec4 = Vec4(x: real, y: real, z: real, w: real)

  /** `simd_quatd`: `vector.x/y/z` is the imaginary part, `vector.w` the real part. */
  datatype Quat = Quat(vector: Vec4)

  /** `matrix_double3x3`, by columns. */
  datatype Mat3 = Mat3(c0: Vec3, c1: Vec3, c2: Vec3)

  /** `matrix_double4x4`, by columns: `m[c][r]` is `m.c<c>.<r>` with rows named x, y, z, w. */
  datatype Mat4 = Mat4(c0: Vec4, c1: Vec4, c2: Vec4, c3: Vec4)

  // ----- vectors -----

  function Zero3(): Vec3 { Vec3(0.0, 0.0, 0.0) }
  function Zero4(): Vec4 { Vec4(0.0, 0.0, 0.0, 0.0) }

  function Add3(a: Vec3, b: Vec3): Vec3 { Vec3(a.x + b.x, a.y + b.y, a.z + b.z) }
  function Sub3(a: Vec3, b: Vec3): Vec3 { Vec3(a.x - b.x, a.y - b.y, a.z - b.z) }
  function Scale3(s: real, v: Vec3): Vec3 { Vec3(s * v.x, s * v.y, s * v.z) }
  function Dot3(a: Vec3, b: Vec3): real { a.x * b.x + a.y * b.y + a.z * b.z }
  function Cross(a: Vec3, b: Vec3): Vec3 {
    Vec3(a.y * b.z - a.z * b.y, a.z * b.x - a.x * b.z, a.x * b.y - a.y * b.x)
  }

  function Add4(a: Vec4, b: Vec4): Vec4 { Vec4(a.x + b.x, a.y + b.y, a.z + b.z, a.w + b.w) }
  function Sub4(a: Vec4, b: Vec4): Vec4 { Vec4(a.x - b.x, a.y - b.y, a.z - b.z, a.w - b.w) }
  function Scale4(s: real, v: Vec4): Vec4 { Vec4(s * v.x, s * v.y, s * v.z, s * v.w) }
  function Dot4(a: Vec4, b: Vec4): real { a.x * b.x + a.y * b.y + a.z * b.z + a.w * b.w }

  /** The first three components of a four-vector. */
  function Xyz(v: Vec4): Vec3 { Vec3(v.x, v.y, v.z) }

  /** The imaginary part of a quaternion. */
  function Imag(q: Quat): Vec3 { Xyz(q.vector) }

  // ----- 4x4 matrices -----

  /** `matrix_identity_double4x4` */
  function Identity(): Mat4 {
    Mat4(Vec4(1.0, 0.0, 0.0, 0.0), Vec4(0.0, 1.0, 0.0, 0.0), Vec4(0.0, 0.0, 1.0, 0.0), Vec4(0.0, 0.0, 0.0, 1.0))
  }

  /** `matrix_double4x4()`, all zeros. */
  function ZeroMatrix(): Mat4 { Mat4(Zero4(), Zero4(), Zero4(), Zero4()) }

  /** `m.transpose`: column `i` of the result is row `i` of `m`. */
  function Transpose(m: Mat4): Mat4 {
    Mat4(Vec4(m.c0.x, m.c1.x, m.c2.x, m.c3.x), Vec4(m.c0.y, m.c1.y, m.c2.y, m.c3.y),
         Vec4(m.c0.z, m.c1.z, m.c2.z, m.c3.z), Vec4(m.c0.w, m.c1.w, m.c2.w, m.c3.w))
  }

  /** `matrix_multiply(a, v)`: row `r` of `a` dotted with `v`. */
  function MulVec(a: Mat4, v: Vec4): Vec4 {
    var t := Transpose(a);
    Vec4(Dot4(t.c0, v), Dot4(t.c1, v), Dot4(t.c2, v), Dot4(t.c3, v))
  }

  /** `matrix_multiply(a, b)`: column `i` of the product is `a` times column `i` of `b`. */
  function Mul(a: Mat4, b: Mat4): Mat4 {
    Mat4(MulVec(a, b.c0), MulVec(a, b.c1), MulVec(a, b.c2), MulVec(a, b.c3))
  }

  /** `matrix_scale(s, m)`: every entry multiplied by `s`. */
  function MatrixScale(s: real, m: Mat4): Mat4 {
    Mat4(Scale4(s, m.c0), Scale4(s, m.c1), Scale4(s, m.c2), Scale4(s, m.c3))
  }

  // ----- determinants -----

  /** `simd_determinant` of a 3x3 matrix, as the triple product of its columns. */
  function Det3(m: Mat3): real {
    Dot3(m.c0, Cross(m.c1, m.c2))
  }

  /** A four-vector with component `r` struck out. */
  function Drop(v: Vec4, r: nat): Vec3
    requires r < 4
  {
    if r == 0 then Vec3(v.y, v.z, v.w)
    else if r == 1 then Vec3(v.x, v.z, v.w)
    else if r == 2 then Vec3(v.x, v.y, v.w)
    else Vec3(v.x, v.y, v.z)
  }

  /** The 3x3 matrix left when column 0 and row `r` are struck out. */
  function Minor(m: Mat4, r: nat): Mat3
    requires r < 4
  {
    Mat3(Drop(m.c1, r), Drop(m.c2, r), Drop(m.c3, r))
  }

  /** `simd_determinant` of a 4x4 matrix, expanded along column 0. */
  function Det(m: Mat4): real {
    m.c0.x * Det3(Minor(m, 0)) - m.c0.y * Det3(Minor(m, 1)) + m.c0.z * Det3(Minor(m, 2)) - m.c0.w * Det3(Minor(m, 3))
  }

  // ----- platform routines that are parameters -----

  /**
   * The square root and the transcendental functions of the platform, and
   * simd's own routines: `inverse` (`m.inverse`), `quatFromRotation`
   * (`simd_quatd(matrix_double3x3)`), `rotationMatrix`
   * (`matrix_double4x4(simd_quatd)`) and `slerp` (`simd_slerp`).
   */
  datatype Numerics = Numerics(
    sqrt: real -> real,
    sin: real -> real,
    cos: real -> real,
    asin: real -> real,
    atan2: (real, real) -> real,
    inverse: Mat4 -> Mat4,
    quatFromRotation: Mat3 -> Quat,
    rotationMatrix: Quat -> Mat4,
    slerp: (Quat, Quat, real) -> Quat)

  /** The square root is the exact non-negative one on non-negative arguments. */
  ghost predicate ExactSqrt(num: Numerics) {
    forall x {:trigger num.sqrt(x)} :: x >= 0.0 ==> num.sqrt(x) >= 0.0 && num.sqrt(x) * num.sqrt(x) == x
  }

  /** The inverse of a matrix with a non-zero determinant is exact. */
  ghost predicate ExactInverse(num: Numerics) {
    forall m {:trigger num.inverse(m)} :: Det(m) != 0.0 ==> Mul(num.inverse(m), m) == Identity()
  }

  /** `simd_length` */
  function Length(num: Numerics, v: Vec3): real {
    num.sqrt(Dot3(v, v))
  }

  /**
   * `simd_normalize`. simd divides by the length; for a zero-length vector
   * that gives NaNs, which the model replaces with the zero vector.
   */
  function Normalize(num: Numerics, v: Vec3): Vec3 {
    var l := Length(num, v);
    if l == 0.0 then Zero3() else Scale3(1.0 / l, v)
  }

  /**
   * Floating-point division `a / b`. A zero divisor gives an infinity or a
   * NaN, which the model replaces with zero.
   */
  function Quotient(a: real, b: real): real {
    if b == 0.0 then 0.0 else a / b
  }

  // ----- simd quaternions -----

  /** `simd_angle(q)`, `2·atan2(|imag|, real)`. */
  function Angle(num: Numerics, q: Quat): real {
    2.0 * num.atan2(Length(num, Imag(q)), q.vector.w)
  }

  /** `simd_axis(q)`, the normalised imaginary part. */
  function Axis(num: Numerics, q: Quat): Vec3 {
    Normalize(num, Imag(q))
  }

  /** `simd_quatd(angle:axis:)`: `sin(angle/2)·axis` with real part `cos(angle/2)`. */
  function FromAngleAxis(num: Numerics, angle: real, axis: Vec3): Quat {
    var s := num.sin(angle / 2.0);
    Quat(Vec4(s * axis.x, s * axis.y, s * axis.z, num.cos(angle / 2.0)))
  }

  // ----- lemmas -----

  /** A product with a vector is the combination of the columns weighted by the vector's components. */
  lemma MulVecColumns(a: Mat4, v: Vec4)
    ensures MulVec(a, v) == Add4(Add4(Add4(Scale4(v.x, a.c0), Scale4(v.y, a.c1)), Scale4(v.z, a.c2)), Scale4(v.w, a.c3))
  {
    var t := Transpose(a);
    RowTimesVector(t.c0, v); RowTimesVector(t.c1, v); RowTimesVector(t.c2, v); RowTimesVector(t.c3, v);
  }

  /** A row dotted with a vector, written as the vector's components weighting the row's entries. */
  lemma RowTimesVector(r: Vec4, v: Vec4)
    ensures Dot4(r, v) == v.x * r.x + v.y * r.y + v.z * r.z + v.w * r.w
  {
    assert r.x * v.x == v.x * r.x && r.y * v.y == v.y * r.y;
    assert r.z * v.z == v.z * r.z && r.w * v.w == v.w * r.w;
  }

  /** Multiplying by a column of the identity picks out the matching column. */
  lemma MulIdentityColumns(a: Mat4)
    ensures MulVec(a, Identity().c0) == a.c0 && MulVec(a, Identity().c1) == a.c1
    ensures MulVec(a, Identity().c2) == a.c2 && MulVec(a, Identity().c3) == a.c3
  {
    MulVecColumns(a, Identity().c0);
    MulVecColumns(a, Identity().c1);
    MulVecColumns(a, Identity().c2);
    MulVecColumns(a, Identity().c3);
  }

  /** The identity is a right unit of the product. */
  lemma MulIdentity(a: Mat4)
    ensures Mul(a, Identity()) == a
  {
    MulIdentityColumns(a);
  }

  lemma DotSymmetric(a: Vec4, b: Vec4)
    ensures Dot4(a, b) == Dot4(b, a)
  {
  }

  lemma DotAdd(u: Vec4, a: Vec4, b: Vec4)
    ensures Dot4(u, Add4(a, b)) == Dot4(u, a) + Dot4(u, b)
  {
  }

  lemma DotScale(u: Vec4, s: real, a: Vec4)
    ensures Dot4(u, Scale4(s, a)) == s * Dot4(u, a)
  {
  }

  /** The dot product with a combination of four vectors is the combination of the dot products. */
  lemma DotCombination(u: Vec4, s0: real, a0: Vec4, s1: real, a1: Vec4, s2: real, a2: Vec4, s3: real, a3: Vec4)
    ensures Dot4(u, Add4(Add4(Add4(Scale4(s0, a0), Scale4(s1, a1)), Scale4(s2, a2)), Scale4(s3, a3)))
         == s0 * Dot4(u, a0) + s1 * Dot4(u, a1) + s2 * Dot4(u, a2) + s3 * Dot4(u, a3)
  {
    var b0, b1, b2, b3 := Scale4(s0, a0), Scale4(s1, a1), Scale4(s2, a2), Scale4(s3, a3);
    DotAdd(u, Add4(Add4(b0, b1), b2), b3);
    DotAdd(u, Add4(b0, b1), b2);
    DotAdd(u, b0, b1);
    DotScale(u, s0, a0); DotScale(u, s1, a1); DotScale(u, s2, a2); DotScale(u, s3, a3);
  }

  /** The transpose is the adjoint of a matrix for the dot product: `u · (Aᵀ v) == (A u) · v`. */
  lemma Adjoint(a: Mat4, u: Vec4, v: Vec4)
    ensures Dot4(u, MulVec(Transpose(a), v)) == Dot4(MulVec(a, u), v)
  {
    var t := Transpose(a);
    var p := MulVec(a, u);
    MulVecColumns(t, v);
    DotCombination(u, v.x, t.c0, v.y, t.c1, v.z, t.c2, v.w, t.c3);
    DotSymmetric(u, t.c0); DotSymmetric(u, t.c1); DotSymmetric(u, t.c2); DotSymmetric(u, t.c3);
    assert p == Vec4(Dot4(t.c0, u), Dot4(t.c1, u), Dot4(t.c2, u), Dot4(t.c3, u));
  }

  /** The length of a vector is non-negative and squares to the vector's dot product with itself. */
  lemma LengthSquared(num: Numerics, v: Vec3)
    requires ExactSqrt(num)
    ensures Length(num, v) >= 0.0 && Length(num, v) * Length(num, v) == Dot3(v, v)
  {
    assert Dot3(v, v) >= 0.0;
  }

  /** A vector of non-zero length normalises to a unit vector. */
  lemma NormalizeUnit(num: Numerics, v: Vec3)
    requires ExactSqrt(num) && Length(num, v) != 0.0
    ensures Dot3(Normalize(num, v), Normalize(num, v)) == 1.0
  {
    var l := Length(num, v);
    LengthSquared(num, v);
    var k := 1.0 / l;
    calc {
      Dot3(Normalize(num, v), Normalize(num, v));
      (k * v.x) * (k * v.x) + (k * v.y) * (k * v.y) + (k * v.z) * (k * v.z);
      (k * k) * Dot3(v, v);
      (k * k) * (l * l);
      (k * l) * (k * l);
      1.0;
    }
  }
}
