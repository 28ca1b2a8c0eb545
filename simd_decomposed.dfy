/**
 * The transform engine on `matrix_double4x4`: the elementary builders
 * (translate, scale, rotate, skew, apply perspective), the decomposition of
 * a matrix into translation, scale, rotation, skew and perspective, its
 * recomposition, and interpolation through the decomposition.
 *
 * The copying builders (`translated`, `scaled`, ...) are functions on matrix
 * values; the mutating ones are the methods of `Matrix4x4`, a matrix whose
 * four columns are updated in place, each specified by the copying function.
 */
module SimdDecomposed {
  import opened Simd
  import opened Interpolatable
  import opened SimdConvenienceExtensions

  // ----- elementary matrices -----

  /** Identity with column 3 set to `(t, 1)`. */
  function TranslationMatrix(t: Vec3): Mat4 {
    Identity().(c3 := Vec4(t.x, t.y, t.z, 1.0))
  }

  /** Identity with the diagonal `(s, 1)`. */
  function ScaleMatrix(s: Vec3): Mat4 {
    Mat4(Vec4(s.x, 0.0, 0.0, 0.0), Vec4(0.0, s.y, 0.0, 0.0), Vec4(0.0, 0.0, s.z, 0.0), Vec4(0.0, 0.0, 0.0, 1.0))
  }

  /** Identity with entry `[2][1]` set to `k`. */
  function ShearYZ(k: real): Mat4 { Identity().(c2 := Vec4(0.0, k, 1.0, 0.0)) }

  /** Identity with entry `[2][0]` set to `k`. */
  function ShearXZ(k: real): Mat4 { Identity().(c2 := Vec4(k, 0.0, 1.0, 0.0)) }

  /** Identity with entry `[1][0]` set to `k`. */
  function ShearXY(k: real): Mat4 { Identity().(c1 := Vec4(k, 1.0, 0.0, 0.0)) }

  /** Row 3 of a matrix: entry 3 of each column. */
  function Row3(m: Mat4): Vec4 { Vec4(m.c0.w, m.c1.w, m.c2.w, m.c3.w) }

  // ----- the copying builders -----

  /** `translated(by:)`: right-multiplies by the translation matrix. */
  function Translated(m: Mat4, t: Vec3): Mat4 {
    Mul(m, TranslationMatrix(t))
  }

  /** `scaled(by:)`: columns 0, 1, 2 times `s.x`, `s.y`, `s.z`. */
  function Scaled(m: Mat4, s: Vec3): Mat4 {
    Mat4(Scale4(s.x, m.c0), Scale4(s.y, m.c1), Scale4(s.z, m.c2), m.c3)
  }

  /**
   * The test `rotate(by:)` uses to skip a quaternion: simd's axis of `q`
   * divides the imaginary part by its length, which is NaN exactly when the
   * imaginary part is zero.
   */
  predicate AxisIsNaN(q: Quat) {
    Imag(q) == Zero3()
  }

  /** `rotated(by: quaternion)`: right-multiplies by the rotation matrix of `q`, unless `q` has no axis. */
  function Rotated(num: Numerics, m: Mat4, q: Quat): (r: Mat4)
    ensures AxisIsNaN(q) ==> r == m
  {
    if AxisIsNaN(q) then m else Mul(m, num.rotationMatrix(q))
  }

  /** `rotated(by: eulerAngles)`: rotates by the quaternion of the Euler angles. */
  function RotatedEuler(num: Numerics, m: Mat4, e: Vec3): Mat4 {
    Rotated(num, m, QuatFromEuler(num, e))
  }

  /** `skewed(by:)`: the `yz`, then `xz`, then `xy` shear, each skipped when its component is zero. */
  function Skewed(m: Mat4, s: Vec3): Mat4 {
    var m1 := if YZ(s) != 0.0 then Mul(m, ShearYZ(YZ(s))) else m;
    var m2 := if XZ(s) != 0.0 then Mul(m1, ShearXZ(XZ(s))) else m1;
    if XY(s) != 0.0 then Mul(m2, ShearXY(XY(s))) else m2
  }

  /** `applyingPerspective(_:)`: entry 3 of columns 0 to 3 set to `p`. */
  function ApplyingPerspective(m: Mat4, p: Vec4): (r: Mat4)
    ensures Row3(r) == p
    ensures Xyz(r.c0) == Xyz(m.c0) && Xyz(r.c1) == Xyz(m.c1) && Xyz(r.c2) == Xyz(m.c2) && Xyz(r.c3) == Xyz(m.c3)
  {
    Mat4(m.c0.(w := p.x), m.c1.(w := p.y), m.c2.(w := p.z), m.c3.(w := p.w))
  }

  // ----- the mutating builders -----

  /** A `matrix_double4x4` variable: its four columns, updated in place by the mutating builders. */
  class Matrix4x4 {
    var c0: Vec4
    var c1: Vec4
    var c2: Vec4
    var c3: Vec4

    function Value(): Mat4
      reads this
    {
      Mat4(c0, c1, c2, c3)
    }

    constructor(m: Mat4)
      ensures Value() == m
    {
      c0, c1, c2, c3 := m.c0, m.c1, m.c2, m.c3;
    }

    /** `self = m` */
    method Assign(m: Mat4)
      modifies this
      ensures Value() == m
    {
      c0, c1, c2, c3 := m.c0, m.c1, m.c2, m.c3;
    }

    /** `translate(by:)` */
    method Translate(t: Vec3)
      modifies this
      ensures Value() == Translated(old(Value()), t)
    {
      var matrix := Identity();
      matrix := matrix.(c3 := Vec4(t.x, t.y, t.z, 1.0));
      Assign(Mul(Value(), matrix));
    }

    /** `scale(by:)` */
    method Scale(s: Vec3)
      modifies this
      ensures Value() == Scaled(old(Value()), s)
    {
      c0 := Scale4(s.x, c0);
      c1 := Scale4(s.y, c1);
      c2 := Scale4(s.z, c2);
    }

    /** `rotate(by: quaternion)` */
    method Rotate(num: Numerics, q: Quat)
      modifies this
      ensures Value() == Rotated(num, old(Value()), q)
    {
      if AxisIsNaN(q) {
        return;
      }
      var rotationMatrix := num.rotationMatrix(q);
      Assign(Mul(Value(), rotationMatrix));
    }

    /** `rotate(by: eulerAngles)` */
    method RotateEuler(num: Numerics, e: Vec3)
      modifies this
      ensures Value() == RotatedEuler(num, old(Value()), e)
    {
      var quaternion := QuatFromEuler(num, e);
      Rotate(num, quaternion);
    }

    /** `skew(by:)` */
    method Skew(s: Vec3)
      modifies this
      ensures Value() == Skewed(old(Value()), s)
    {
      if YZ(s) != 0.0 {
        var skewMatrix := Identity();
        skewMatrix := skewMatrix.(c2 := skewMatrix.c2.(y := YZ(s)));
        Assign(Mul(Value(), skewMatrix));
      }
      if XZ(s) != 0.0 {
        var skewMatrix := Identity();
        skewMatrix := skewMatrix.(c2 := skewMatrix.c2.(x := XZ(s)));
        Assign(Mul(Value(), skewMatrix));
      }
      if XY(s) != 0.0 {
        var skewMatrix := Identity();
        skewMatrix := skewMatrix.(c1 := skewMatrix.c1.(x := XY(s)));
        Assign(Mul(Value(), skewMatrix));
      }
    }

    /** `applyPerspective(_:)` */
    method ApplyPerspective(p: Vec4)
      modifies this
      ensures Value() == ApplyingPerspective(old(Value()), p)
    {
      c0 := c0.(w := p.x);
      c1 := c1.(w := p.y);
      c2 := c2.(w := p.z);
      c3 := c3.(w := p.w);
    }
  }

  // ----- the effect of the builders on columns -----

  /** Translating keeps columns 0 to 2 and makes column 3 `t.x·c0 + t.y·c1 + t.z·c2 + c3`. */
  lemma TranslatedColumns(m: Mat4, t: Vec3)
    ensures Translated(m, t)
         == Mat4(m.c0, m.c1, m.c2, Add4(Add4(Add4(Scale4(t.x, m.c0), Scale4(t.y, m.c1)), Scale4(t.z, m.c2)), m.c3))
  {
    MulIdentityColumns(m);
    MulVecColumns(m, Vec4(t.x, t.y, t.z, 1.0));
  }

  /** Scaling column by column is right-multiplication by the diagonal scale matrix. */
  lemma ScaledIsProduct(m: Mat4, s: Vec3)
    ensures Scaled(m, s) == Mul(m, ScaleMatrix(s))
  {
    ScaleColumn0(m, s.x);
    ScaleColumn1(m, s.y);
    ScaleColumn2(m, s.z);
    MulIdentityColumns(m);
  }

  lemma ScaleColumn0(m: Mat4, k: real)
    ensures MulVec(m, Vec4(k, 0.0, 0.0, 0.0)) == Scale4(k, m.c0)
  {
    var r := MulVec(m, Vec4(k, 0.0, 0.0, 0.0));
    assert r.x == m.c0.x * k + m.c1.x * 0.0 + m.c2.x * 0.0 + m.c3.x * 0.0;
    assert r.y == m.c0.y * k + m.c1.y * 0.0 + m.c2.y * 0.0 + m.c3.y * 0.0;
    assert r.z == m.c0.z * k + m.c1.z * 0.0 + m.c2.z * 0.0 + m.c3.z * 0.0;
    assert r.w == m.c0.w * k + m.c1.w * 0.0 + m.c2.w * 0.0 + m.c3.w * 0.0;
  }

  lemma ScaleColumn1(m: Mat4, k: real)
    ensures MulVec(m, Vec4(0.0, k, 0.0, 0.0)) == Scale4(k, m.c1)
  {
    var r := MulVec(m, Vec4(0.0, k, 0.0, 0.0));
    assert r.x == m.c0.x * 0.0 + m.c1.x * k + m.c2.x * 0.0 + m.c3.x * 0.0;
    assert r.y == m.c0.y * 0.0 + m.c1.y * k + m.c2.y * 0.0 + m.c3.y * 0.0;
    assert r.z == m.c0.z * 0.0 + m.c1.z * k + m.c2.z * 0.0 + m.c3.z * 0.0;
    assert r.w == m.c0.w * 0.0 + m.c1.w * k + m.c2.w * 0.0 + m.c3.w * 0.0;
  }

  lemma ScaleColumn2(m: Mat4, k: real)
    ensures MulVec(m, Vec4(0.0, 0.0, k, 0.0)) == Scale4(k, m.c2)
  {
    var r := MulVec(m, Vec4(0.0, 0.0, k, 0.0));
    assert r.x == m.c0.x * 0.0 + m.c1.x * 0.0 + m.c2.x * k + m.c3.x * 0.0;
    assert r.y == m.c0.y * 0.0 + m.c1.y * 0.0 + m.c2.y * k + m.c3.y * 0.0;
    assert r.z == m.c0.z * 0.0 + m.c1.z * 0.0 + m.c2.z * k + m.c3.z * 0.0;
    assert r.w == m.c0.w * 0.0 + m.c1.w * 0.0 + m.c2.w * k + m.c3.w * 0.0;
  }

  lemma ShearYZColumns(m: Mat4, k: real)
    ensures Mul(m, ShearYZ(k)) == m.(c2 := Add4(m.c2, Scale4(k, m.c1)))
  {
    MulIdentityColumns(m);
    MulVecColumns(m, ShearYZ(k).c2);
  }

  lemma ShearXZColumns(m: Mat4, k: real)
    ensures Mul(m, ShearXZ(k)) == m.(c2 := Add4(m.c2, Scale4(k, m.c0)))
  {
    MulIdentityColumns(m);
    MulVecColumns(m, ShearXZ(k).c2);
  }

  lemma ShearXYColumns(m: Mat4, k: real)
    ensures Mul(m, ShearXY(k)) == m.(c1 := Add4(m.c1, Scale4(k, m.c0)))
  {
    MulIdentityColumns(m);
    MulVecColumns(m, ShearXY(k).c1);
  }

  /**
   * Skewing keeps columns 0 and 3, adds `xy·c0` to column 1 and
   * `yz·c1 + xz·c0` to column 2, with the columns of the original matrix:
   * the `yz` step reads column 1 before the `xy` step changes it.
   */
  lemma SkewedColumns(m: Mat4, s: Vec3)
    ensures Skewed(m, s)
         == Mat4(m.c0, Add4(m.c1, Scale4(XY(s), m.c0)), Add4(Add4(m.c2, Scale4(YZ(s), m.c1)), Scale4(XZ(s), m.c0)), m.c3)
  {
    var m1 := if YZ(s) != 0.0 then Mul(m, ShearYZ(YZ(s))) else m;
    ShearYZColumns(m, YZ(s));
    assert m1 == m.(c2 := Add4(m.c2, Scale4(YZ(s), m.c1)));
    var m2 := if XZ(s) != 0.0 then Mul(m1, ShearXZ(XZ(s))) else m1;
    ShearXZColumns(m1, XZ(s));
    assert m2 == m1.(c2 := Add4(m1.c2, Scale4(XZ(s), m.c0)));
    ShearXYColumns(m2, XY(s));
  }

  /** A zero skew leaves the matrix unchanged. */
  lemma SkewedByZero(m: Mat4)
    ensures Skewed(m, Zero3()) == m
  {
    SkewedColumns(m, Zero3());
  }

  /** Applying a perspective twice keeps only the second one. */
  lemma ApplyingPerspectiveTwice(m: Mat4, p: Vec4, q: Vec4)
    ensures ApplyingPerspective(ApplyingPerspective(m, p), q) == ApplyingPerspective(m, q)
  {
  }

  /** Zero Euler angles rotate by the identity quaternion, which has no axis, so the matrix is unchanged. */
  lemma RotatedByZeroEuler(num: Numerics, m: Mat4)
    requires TrigAtZero(num)
    ensures RotatedEuler(num, m, Zero3()) == m
  {
    QuatFromZeroEuler(num);
  }

  // ----- the decomposed transform -----

  /**
   * `DecomposedTransform`. Every field defaults to zero; the default
   * quaternion `simd_quatd()` is all zeros too.
   */
  datatype DecomposedTransform = DecomposedTransform(
    translation: Vec3, scale: Vec3, rotation: Quat, eulerAngles: Vec3, skew: Vec3, perspective: Vec4)

  function Default(): DecomposedTransform {
    DecomposedTransform(Zero3(), Zero3(), Quat(Zero4()), Zero3(), Zero3(), Zero4())
  }

  /**
   * Assigning `eulerAngles` outside the initialisers: its `didSet` observer
   * sets `rotation` to the quaternion of the new angles.
   */
  function WithEulerAngles(num: Numerics, d: DecomposedTransform, e: Vec3): (r: DecomposedTransform)
    ensures r.eulerAngles == e && r.rotation == QuatFromEuler(num, r.eulerAngles)
    ensures r.translation == d.translation && r.scale == d.scale && r.skew == d.skew && r.perspective == d.perspective
  {
    d.(eulerAngles := e, rotation := QuatFromEuler(num, e))
  }

  // ----- the stages of the decomposition -----

  /** The matrix with every entry divided by `[3][3]`, when that entry is non-zero. */
  function Normalized(m: Mat4): (r: Mat4)
    ensures m.c3.w != 0.0 ==> r.c3.w == 1.0
  {
    if m.c3.w != 0.0 then MatrixScale(1.0 / m.c3.w, m) else m
  }

  /** The normalised matrix with row 3 replaced by `(0, 0, 0, 1)`. */
  function PerspectiveBlock(l: Mat4): Mat4 {
    ApplyingPerspective(l, Vec4(0.0, 0.0, 0.0, 1.0))
  }

  /** Whether any of `[0][3]`, `[1][3]`, `[2][3]` is non-zero. */
  predicate HasPerspective(l: Mat4) {
    l.c0.w != 0.0 || l.c1.w != 0.0 || l.c2.w != 0.0
  }

  /** The perspective as solved: the transposed inverse of the perspective block times row 3. */
  function SolvedPerspective(num: Numerics, l: Mat4): Vec4 {
    MulVec(Transpose(num.inverse(PerspectiveBlock(l))), Row3(l))
  }

  /** The upper 3x3 block, by columns. */
  function RotationLocal(l: Mat4): Mat3 {
    Mat3(Xyz(l.c0), Xyz(l.c1), Xyz(l.c2))
  }

  /** `simd_linear_combination(as, a, bs, b)`: `as·a + bs·b`. */
  function LinearCombination(aScale: real, a: Vec3, bScale: real, b: Vec3): (r: Vec3)
    ensures r == Add3(Scale3(aScale, a), Scale3(bScale, b))
  {
    Vec3(aScale * a.x + bScale * b.x, aScale * a.y + bScale * b.y, aScale * a.z + bScale * b.z)
  }

  /** What the Gram-Schmidt pass produces: the orthonormalised columns, the scale and the skew. */
  datatype ScaleAndShear = ScaleAndShear(rotation: Mat3, scale: Vec3, skew: Vec3)

  /**
   * The Gram-Schmidt pass over the columns of `r`: each column is normalised
   * after the components along the earlier ones are subtracted; the lengths
   * are the scale and the subtracted components, divided by the scale of the
   * column they were taken from, are the skew.
   */
  function GramSchmidt(num: Numerics, r: Mat3): ScaleAndShear {
    var sx := Length(num, r.c0);
    var c0 := Normalize(num, r.c0);
    var xy := Dot3(c0, r.c1);
    var c1 := LinearCombination(1.0, r.c1, -xy, c0);
    var sy := Length(num, c1);
    var c1n := Normalize(num, c1);
    var xz := Dot3(c0, r.c2);
    var c2 := LinearCombination(1.0, r.c2, -xz, c0);
    var yz := Dot3(c1n, c2);
    var c2b := LinearCombination(1.0, c2, -yz, c1n);
    var sz := Length(num, c2b);
    ScaleAndShear(Mat3(c0, c1n, Normalize(num, c2b)), Vec3(sx, sy, sz),
                  SkewInit(Quotient(xy, sy), Quotient(xz, sz), Quotient(yz, sz)))
  }

  /** When the columns form a left-handed basis, the scale and all three columns are negated. */
  function Reflected(f: ScaleAndShear): ScaleAndShear {
    if Det3(f.rotation) < 0.0 then
      f.(scale := Scale3(-1.0, f.scale),
         rotation := Mat3(Scale3(-1.0, f.rotation.c0), Scale3(-1.0, f.rotation.c1), Scale3(-1.0, f.rotation.c2)))
    else f
  }

  /** The Euler angles of a rotation, with `z` fixed at zero when `cos(y)` is zero (gimbal lock). */
  function EulerAngles(num: Numerics, r: Mat3): Vec3 {
    var y := num.asin(-r.c0.z);
    if num.cos(y) != 0.0 then Vec3(num.atan2(r.c1.z, r.c2.z), y, num.atan2(r.c0.y, r.c0.x))
    else Vec3(num.atan2(-r.c2.x, r.c1.y), y, 0.0)
  }

  /** Whether the perspective block has determinant zero, which leaves every field at its default. */
  predicate Degenerate(m: Mat4) {
    Det(PerspectiveBlock(Normalized(m))) == 0.0
  }

  /** `DecomposedTransform(matrix)`, the decomposition of a matrix, as a function of the matrix. */
  function Decomposition(num: Numerics, m: Mat4): (d: DecomposedTransform)
    ensures Degenerate(m) ==> d == Default()
    ensures !Degenerate(m) ==> d.translation == Xyz(Normalized(m).c3)
    ensures !Degenerate(m) && !HasPerspective(Normalized(m)) ==> d.perspective == Vec4(0.0, 0.0, 0.0, 1.0)
  {
    var l := Normalized(m);
    if Det(PerspectiveBlock(l)) == 0.0 then Default()
    else
      var f := Reflected(GramSchmidt(num, RotationLocal(l)));
      DecomposedTransform(
        Xyz(l.c3), f.scale, num.quatFromRotation(f.rotation), EulerAngles(num, f.rotation), f.skew,
        if HasPerspective(l) then SolvedPerspective(num, l) else Vec4(0.0, 0.0, 0.0, 1.0))
  }

  /** `DecomposedTransform.init(_ matrix:)`, step by step. */
  method Decompose(num: Numerics, matrix: Mat4) returns (d: DecomposedTransform)
    ensures d == Decomposition(num, matrix)
  {
    d := Default();
    var local := matrix;

    if local.c3.w != 0.0 {
      local := MatrixScale(1.0 / local.c3.w, local);
    }
    ghost var l := local;
    assert l == Normalized(matrix);

    var perspective := local;
    perspective := perspective.(c0 := perspective.c0.(w := 0.0));
    perspective := perspective.(c1 := perspective.c1.(w := 0.0));
    perspective := perspective.(c2 := perspective.c2.(w := 0.0));
    perspective := perspective.(c3 := perspective.c3.(w := 1.0));
    assert perspective == PerspectiveBlock(l);

    if Det(perspective) == 0.0 {
      return;
    }

    if local.c0.w != 0.0 || local.c1.w != 0.0 || local.c2.w != 0.0 {
      var rhs := Vec4(local.c0.w, local.c1.w, local.c2.w, local.c3.w);
      var transposedPerspective := Transpose(num.inverse(perspective));
      d := d.(perspective := MulVec(transposedPerspective, rhs));
      local := local.(c0 := local.c0.(w := 0.0));
      local := local.(c1 := local.c1.(w := 0.0));
      local := local.(c2 := local.c2.(w := 0.0));
      local := local.(c3 := local.c3.(w := 1.0));
    } else {
      d := d.(perspective := d.perspective.(w := 1.0));
    }

    d := d.(translation := Vec3(local.c3.x, local.c3.y, local.c3.z));
    local := local.(c3 := Vec4(0.0, 0.0, 0.0, local.c3.w));

    var rotationLocal := Mat3(Xyz(local.c0), Xyz(local.c1), Xyz(local.c2));
    assert rotationLocal == RotationLocal(l);

    var scale, skew, eulerAngles, rotation := DecomposeRotationLocal(num, rotationLocal);
    d := d.(scale := scale, skew := skew, eulerAngles := eulerAngles, rotation := rotation);
  }

  /**
   * The second half of `DecomposedTransform.init(_ matrix:)`: the scale and
   * skew by Gram-Schmidt over the columns of the upper 3x3 block, the flip
   * of a reflection, and the rotation of what remains.
   */
  method DecomposeRotationLocal(num: Numerics, upper: Mat3) returns (scale: Vec3, skew: Vec3, eulerAngles: Vec3, rotation: Quat)
    ensures var f := Reflected(GramSchmidt(num, upper));
      && scale == f.scale && skew == f.skew
      && eulerAngles == EulerAngles(num, f.rotation) && rotation == num.quatFromRotation(f.rotation)
  {
    var rotationLocal;
    rotationLocal, scale, skew := GramSchmidtPass(num, upper);
    rotationLocal, scale := FlipReflection(rotationLocal, scale);
    eulerAngles := EulerAnglesOf(num, rotationLocal);
    rotation := num.quatFromRotation(rotationLocal);
  }

  /** A negative determinant negates the scale and the three columns, statement by statement. */
  method FlipReflection(upper: Mat3, s: Vec3) returns (rotationLocal: Mat3, scale: Vec3)
    ensures forall k :: Reflected(ScaleAndShear(upper, s, k)) == ScaleAndShear(rotationLocal, scale, k)
  {
    rotationLocal, scale := upper, s;
    if Det3(rotationLocal) < 0.0 {
      scale := Scale3(-1.0, scale);
      rotationLocal := rotationLocal.(c0 := Scale3(-1.0, rotationLocal.c0));
      rotationLocal := rotationLocal.(c1 := Scale3(-1.0, rotationLocal.c1));
      rotationLocal := rotationLocal.(c2 := Scale3(-1.0, rotationLocal.c2));
    }
  }

  /** The Euler angles of the rotation, statement by statement. */
  method EulerAnglesOf(num: Numerics, rotationLocal: Mat3) returns (eulerAngles: Vec3)
    ensures eulerAngles == EulerAngles(num, rotationLocal)
  {
    eulerAngles := Zero3();
    eulerAngles := eulerAngles.(y := num.asin(-rotationLocal.c0.z));
    if num.cos(eulerAngles.y) != 0.0 {
      eulerAngles := eulerAngles.(x := num.atan2(rotationLocal.c1.z, rotationLocal.c2.z));
      eulerAngles := eulerAngles.(z := num.atan2(rotationLocal.c0.y, rotationLocal.c0.x));
    } else {
      eulerAngles := eulerAngles.(x := num.atan2(-rotationLocal.c2.x, rotationLocal.c1.y));
      eulerAngles := eulerAngles.(z := 0.0);
    }
  }

  /** The Gram-Schmidt pass of `DecomposedTransform.init(_ matrix:)`, statement by statement. */
  method GramSchmidtPass(num: Numerics, upper: Mat3) returns (rotationLocal: Mat3, scale: Vec3, skew: Vec3)
    ensures ScaleAndShear(rotationLocal, scale, skew) == GramSchmidt(num, upper)
  {
    rotationLocal := upper;
    scale, skew := Zero3(), Zero3();
    scale := scale.(x := Length(num, rotationLocal.c0));
    rotationLocal := rotationLocal.(c0 := Normalize(num, rotationLocal.c0));

    skew := SetXY(skew, Dot3(rotationLocal.c0, rotationLocal.c1));
    rotationLocal := rotationLocal.(c1 := LinearCombination(1.0, rotationLocal.c1, -XY(skew), rotationLocal.c0));

    scale := scale.(y := Length(num, rotationLocal.c1));
    rotationLocal := rotationLocal.(c1 := Normalize(num, rotationLocal.c1));
    skew := SetXY(skew, Quotient(XY(skew), scale.y));

    skew := SetXZ(skew, Dot3(rotationLocal.c0, rotationLocal.c2));
    rotationLocal := rotationLocal.(c2 := LinearCombination(1.0, rotationLocal.c2, -XZ(skew), rotationLocal.c0));
    skew := SetYZ(skew, Dot3(rotationLocal.c1, rotationLocal.c2));
    rotationLocal := rotationLocal.(c2 := LinearCombination(1.0, rotationLocal.c2, -YZ(skew), rotationLocal.c1));

    scale := scale.(z := Length(num, rotationLocal.c2));
    rotationLocal := rotationLocal.(c2 := Normalize(num, rotationLocal.c2));
    skew := SetXZ(skew, Quotient(XZ(skew), scale.z));
    skew := SetYZ(skew, Quotient(YZ(skew), scale.z));
  }

  // ----- recomposition and interpolation -----

  /** `recomposed()`: from the identity, apply the perspective, translate, rotate, skew, scale. */
  function Recomposition(num: Numerics, d: DecomposedTransform): Mat4 {
    var withPerspective := ApplyingPerspective(Identity(), d.perspective);
    var translated := Translated(withPerspective, d.translation);
    var rotated := Rotated(num, translated, d.rotation);
    var skewed := Skewed(rotated, d.skew);
    Scaled(skewed, d.scale)
  }

  /** `recomposed()`, as written: five mutating calls on a local identity matrix. */
  method Recompose(num: Numerics, d: DecomposedTransform) returns (r: Mat4)
    ensures r == Recomposition(num, d)
  {
    var recomposed := new Matrix4x4(Identity());
    recomposed.ApplyPerspective(d.perspective);
    ApplyAfterPerspective(num, recomposed, d);
    r := recomposed.Value();
  }

  /** The four calls of `recomposed()` after the perspective: translate, rotate, skew, scale. */
  method ApplyAfterPerspective(num: Numerics, recomposed: Matrix4x4, d: DecomposedTransform)
    modifies recomposed
    ensures recomposed.Value()
         == Scaled(Skewed(Rotated(num, Translated(old(recomposed.Value()), d.translation), d.rotation), d.skew), d.scale)
  {
    recomposed.Translate(d.translation);
    recomposed.Rotate(num, d.rotation);
    recomposed.Skew(d.skew);
    recomposed.Scale(d.scale);
  }

  /**
   * `DecomposedTransform.lerp(to:fraction:)`: every field interpolated with
   * the same fraction, the rotation spherically. The memberwise initialiser
   * does not run the `eulerAngles` observer, so the rotation is not
   * recomputed from the interpolated angles.
   */
  function Lerp(num: Numerics, a: DecomposedTransform, b: DecomposedTransform, t: real): (r: DecomposedTransform)
    ensures SlerpEndpoints(num) && t == 0.0 ==> r == a
    ensures SlerpEndpoints(num) && t == 1.0 ==> r == b
  {
    DecomposedTransform(
      Lerp3(a.translation, b.translation, t), Lerp3(a.scale, b.scale, t), QuatLerp(num, a.rotation, b.rotation, t),
      Lerp3(a.eulerAngles, b.eulerAngles, t), Lerp3(a.skew, b.skew, t), Lerp4(a.perspective, b.perspective, t))
  }

  /** `matrix_double4x4.lerp(to:fraction:)`: interpolates the decompositions and recomposes. */
  function MatrixLerp(num: Numerics, a: Mat4, b: Mat4, t: real): Mat4 {
    Recomposition(num, Lerp(num, Decomposition(num, a), Decomposition(num, b), t))
  }

  /** With a `simd_slerp` that meets its end points, fraction 0 gives the recomposed decomposition of `a`. */
  lemma MatrixLerpAtZero(num: Numerics, a: Mat4, b: Mat4)
    requires SlerpEndpoints(num)
    ensures MatrixLerp(num, a, b, 0.0) == Recomposition(num, Decomposition(num, a))
  {
    RecomposedLerpAtZero(num, Decomposition(num, a), Decomposition(num, b));
  }

  /** and fraction 1 that of `b`. */
  lemma MatrixLerpAtOne(num: Numerics, a: Mat4, b: Mat4)
    requires SlerpEndpoints(num)
    ensures MatrixLerp(num, a, b, 1.0) == Recomposition(num, Decomposition(num, b))
  {
    RecomposedLerpAtOne(num, Decomposition(num, a), Decomposition(num, b));
  }

  lemma RecomposedLerpAtZero(num: Numerics, from: DecomposedTransform, to: DecomposedTransform)
    requires SlerpEndpoints(num)
    ensures Recomposition(num, Lerp(num, from, to, 0.0)) == Recomposition(num, from)
  {
  }

  lemma RecomposedLerpAtOne(num: Numerics, from: DecomposedTransform, to: DecomposedTransform)
    requires SlerpEndpoints(num)
    ensures Recomposition(num, Lerp(num, from, to, 1.0)) == Recomposition(num, to)
  {
  }
}
