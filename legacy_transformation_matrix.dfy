/**
 * The older copy of the engine in `CoreAnimationUtils`. Its builders are
 * the engine's, except that `rotate(by:)` multiplies by the quaternion's
 * rotation matrix without testing for a missing axis. Its decomposition
 * keeps both the Euler angles (`rotation`) and the quaternion
 * (`quaternion`), returns every default as soon as `[3][3]` is zero, and
 * otherwise computes what the engine computes; its recomposition rotates by
 * the `quaternion` field.
 */
module LegacyTransformationMatrix {
  import opened Simd
  import Matrix = SimdDecomposed
  import Props = DecompositionProperties

  // ----- the builders -----

  /** `rotated(by:)`: right-multiplies by the rotation matrix of `q`, whatever `q` is. */
  function Rotated(num: Numerics, m: Mat4, q: Quat): (r: Mat4)
    ensures !Matrix.AxisIsNaN(q) ==> r == Matrix.Rotated(num, m, q)
    ensures num.rotationMatrix(q) == Identity() ==> r == m
  {
    MulIdentity(m);
    Mul(m, num.rotationMatrix(q))
  }

  /**
   * `rotate(by:)`, the one mutating builder that differs from the engine's;
   * `translate`, `scale`, `skew` and `applyPerspective` are the engine's
   * `Matrix4x4` methods.
   */
  method Rotate(num: Numerics, matrix: Matrix.Matrix4x4, q: Quat)
    modifies matrix
    ensures matrix.Value() == Rotated(num, old(matrix.Value()), q)
  {
    var rotationMatrix := num.rotationMatrix(q);
    matrix.Assign(Mul(matrix.Value(), rotationMatrix));
  }

  /** The engine skips a quaternion without an axis; this copy multiplies by its rotation matrix anyway. */
  lemma RotatedWithoutAxis(num: Numerics, m: Mat4, q: Quat)
    requires Matrix.AxisIsNaN(q)
    ensures Matrix.Rotated(num, m, q) == m
    ensures Rotated(num, m, q) == Mul(m, num.rotationMatrix(q))
  {
  }

  // ----- the decomposed transform -----

  /**
   * `matrix_double4x4.Decomposed`: the rotation both as Euler angles
   * (`rotation`) and as a quaternion (`quaternion`). Every field defaults to
   * zero, the quaternion included.
   */
  datatype Decomposed = Decomposed(
    translation: Vec3, scale: Vec3, rotation: Vec3, quaternion: Quat, skew: Vec3, perspective: Vec4)

  function Default(): Decomposed {
    Decomposed(Zero3(), Zero3(), Zero3(), Quat(Zero4()), Zero3(), Zero4())
  }

  /** The same fields under the engine's names: `quaternion` is the engine's `rotation`, `rotation` its `eulerAngles`. */
  function FromEngine(d: Matrix.DecomposedTransform): Decomposed {
    Decomposed(d.translation, d.scale, d.eulerAngles, d.rotation, d.skew, d.perspective)
  }

  function ToEngine(d: Decomposed): Matrix.DecomposedTransform {
    Matrix.DecomposedTransform(d.translation, d.scale, d.quaternion, d.rotation, d.skew, d.perspective)
  }

  /** Renaming the fields back and forth gives the same decomposition. */
  lemma RenamingRoundTrip(d: Decomposed, e: Matrix.DecomposedTransform)
    ensures FromEngine(ToEngine(d)) == d && ToEngine(FromEngine(e)) == e
  {
  }

  /**
   * `Decomposed.init(_:)`. A zero `[3][3]` returns every default at once;
   * otherwise the matrix is normalised by it and every later step is the
   * engine's, so the result is the engine's decomposition under this copy's
   * field names.
   */
  function Decomposition(num: Numerics, m: Mat4): (d: Decomposed)
    ensures m.c3.w == 0.0 ==> d == Default()
  {
    if m.c3.w == 0.0 then Default()
    else
      var l := MatrixScale(1.0 / m.c3.w, m);
      if Det(Matrix.PerspectiveBlock(l)) == 0.0 then Default()
      else
        var f := Matrix.Reflected(Matrix.GramSchmidt(num, Matrix.RotationLocal(l)));
        Decomposed(
          Xyz(l.c3), f.scale, Matrix.EulerAngles(num, f.rotation), num.quatFromRotation(f.rotation), f.skew,
          if Matrix.HasPerspective(l) then Matrix.SolvedPerspective(num, l) else Vec4(0.0, 0.0, 0.0, 1.0))
  }

  /**
   * Apart from the early return at `[3][3] = 0` and the renamed fields, the
   * legacy decomposition is the engine's.
   */
  lemma DecompositionAsEngine(num: Numerics, m: Mat4)
    requires m.c3.w != 0.0
    ensures Decomposition(num, m) == FromEngine(Matrix.Decomposition(num, m))
  {
  }

  /** `Decomposed.init(_:)`, step by step, with its two early returns. */
  method Decompose(num: Numerics, matrix: Mat4) returns (d: Decomposed)
    ensures d == Decomposition(num, matrix)
  {
    d := Default();
    var local := matrix;

    if local.c3.w == 0.0 {
      return;
    }

    local := MatrixScale(1.0 / local.c3.w, local);
    ghost var l := local;

    var perspective := local;
    perspective := perspective.(c0 := perspective.c0.(w := 0.0));
    perspective := perspective.(c1 := perspective.c1.(w := 0.0));
    perspective := perspective.(c2 := perspective.c2.(w := 0.0));
    perspective := perspective.(c3 := perspective.c3.(w := 1.0));
    assert perspective == Matrix.PerspectiveBlock(l);

    if Det(perspective) == 0.0 {
      return;
    }

    if local.c0.w != 0.0 || local.c1.w != 0.0 || local.c2.w != 0.0 {
      var rhs := Vec4(local.c0.w, local.c1.w, local.c2.w, local.c3.w);
      var transposedPerspective := Transpose(num.inverse(perspective));
      d := d.(perspective := MulVec(transposedPerspective, rhs));
      local := local.(c0 := local.c0.(w := 0.0));
      local := local.(c1 := local.c1.(w := 0.0));
      local := local.(c2 := local.c2.(w := 0.0));
      local := local.(c3 := local.c3.(w := 1.0));
    } else {
      d := d.(perspective := d.perspective.(w := 1.0));
    }

    d := d.(translation := Vec3(local.c3.x, local.c3.y, local.c3.z));
    local := local.(c3 := Vec4(0.0, 0.0, 0.0, local.c3.w));

    var rotationLocal := Mat3(Xyz(local.c0), Xyz(local.c1), Xyz(local.c2));
    assert rotationLocal == Matrix.RotationLocal(l);

    var scale, skew, eulerAngles, quaternion := Matrix.DecomposeRotationLocal(num, rotationLocal);
    d := d.(scale := scale, skew := skew, rotation := eulerAngles, quaternion := quaternion);
  }

  /**
   * Where this copy and the engine part: for a matrix with `[3][3] = 0`
   * whose perspective block is invertible and which has no perspective
   * entries, this copy keeps every default while the engine skips the
   * normalisation and finds the perspective `(0, 0, 0, 1)` and the
   * translation in column 3.
   */
  lemma EarlyReturnAtZeroW(num: Numerics, m: Mat4)
    requires m.c3.w == 0.0 && !Matrix.HasPerspective(m) && !Matrix.Degenerate(m)
    ensures Decomposition(num, m) == Default()
    ensures Matrix.Decomposition(num, m).perspective == Vec4(0.0, 0.0, 0.0, 1.0)
    ensures Matrix.Decomposition(num, m).translation == Xyz(m.c3)
  {
  }

  // ----- recomposition -----

  /** `recomposed()`: from the identity, apply the perspective, translate, rotate by `quaternion`, skew, scale. */
  function Recomposition(num: Numerics, d: Decomposed): Mat4 {
    var withPerspective := Matrix.ApplyingPerspective(Identity(), d.perspective);
    var translated := Matrix.Translated(withPerspective, d.translation);
    var rotated := Rotated(num, translated, d.quaternion);
    var skewed := Matrix.Skewed(rotated, d.skew);
    Matrix.Scaled(skewed, d.scale)
  }

  /**
   * For a quaternion with an axis the legacy rotation step is the engine's,
   * so the recomposition is the engine's under the engine's field names.
   */
  lemma RecompositionAsEngine(num: Numerics, d: Decomposed)
    requires !Matrix.AxisIsNaN(d.quaternion)
    ensures Recomposition(num, d) == Matrix.Recomposition(num, ToEngine(d))
  {
  }

  /** `recomposed()`, as written: five mutating calls on a local identity matrix. */
  method Recompose(num: Numerics, d: Decomposed) returns (r: Mat4)
    ensures r == Recomposition(num, d)
  {
    var recomposed := new Matrix.Matrix4x4(Identity());
    recomposed.ApplyPerspective(d.perspective);
    ApplyAfterPerspective(num, recomposed, d);
    r := recomposed.Value();
  }

  /** The four calls of `recomposed()` after the perspective: translate, rotate, skew, scale. */
  method ApplyAfterPerspective(num: Numerics, recomposed: Matrix.Matrix4x4, d: Decomposed)
    modifies recomposed
    ensures recomposed.Value()
         == Matrix.Scaled(Matrix.Skewed(Rotated(num, Matrix.Translated(old(recomposed.Value()), d.translation), d.quaternion), d.skew), d.scale)
  {
    recomposed.Translate(d.translation);
    Rotate(num, recomposed, d.quaternion);
    recomposed.Skew(d.skew);
    recomposed.Scale(d.scale);
  }

  /**
   * A quaternion whose rotation matrix is the identity recomposes as in the
   * engine, with or without an axis.
   */
  lemma RecompositionWithIdentityRotation(num: Numerics, d: Decomposed)
    requires num.rotationMatrix(d.quaternion) == Identity()
    ensures Recomposition(num, d) == Matrix.Recomposition(num, ToEngine(d))
  {
    RotationStepsAgree(num, Matrix.Translated(Matrix.ApplyingPerspective(Identity(), d.perspective), d.translation), d.quaternion);
  }

  lemma RotationStepsAgree(num: Numerics, m: Mat4, q: Quat)
    requires num.rotationMatrix(q) == Identity()
    ensures Rotated(num, m, q) == Matrix.Rotated(num, m, q) == m
  {
    MulIdentity(m);
  }

  /**
   * Decomposing an affine matrix and recomposing the parts gives the
   * normalised matrix back, under the same conditions as the engine's round
   * trip: the quaternion of an exact rotation either has an axis or turns
   * back into the identity, so the missing test in `rotate(by:)` does not
   * matter here.
   */
  lemma {:induction false} RecomposeDecomposeRoundTrip(num: Numerics, m: Mat4)
    requires ExactSqrt(num) && Props.ExactRotations(num)
    requires m.c0.w == 0.0 && m.c1.w == 0.0 && m.c2.w == 0.0 && m.c3.w != 0.0
    requires !Matrix.Degenerate(m)
    requires Props.NonZeroScale(Matrix.GramSchmidt(num, Matrix.RotationLocal(Matrix.Normalized(m))))
    ensures Recomposition(num, Decomposition(num, m)) == Matrix.Normalized(m)
  {
    Props.RecomposeDecomposeRoundTrip(num, m);
    RecomposesAsEngine(num, m);
  }

  /** The engine's decomposition of an affine matrix recomposes here as it does in the engine. */
  lemma RecomposesAsEngine(num: Numerics, m: Mat4)
    requires ExactSqrt(num) && Props.ExactRotations(num)
    requires !Matrix.Degenerate(m)
    requires Props.NonZeroScale(Matrix.GramSchmidt(num, Matrix.RotationLocal(Matrix.Normalized(m))))
    ensures Recomposition(num, FromEngine(Matrix.Decomposition(num, m))) == Matrix.Recomposition(num, Matrix.Decomposition(num, m))
  {
    var e := Matrix.Decomposition(num, m);
    if Matrix.AxisIsNaN(e.rotation) {
      EngineRotationWithoutAxis(num, m);
      FromEngineWithIdentityRotation(num, e);
    } else {
      FromEngineWithAxis(num, e);
    }
  }

  /** In the engine's decomposition of an affine matrix, a quaternion without an axis has the identity as its rotation matrix. */
  lemma EngineRotationWithoutAxis(num: Numerics, m: Mat4)
    requires ExactSqrt(num) && Props.ExactRotations(num)
    requires !Matrix.Degenerate(m)
    requires Props.NonZeroScale(Matrix.GramSchmidt(num, Matrix.RotationLocal(Matrix.Normalized(m))))
    requires Matrix.AxisIsNaN(Matrix.Decomposition(num, m).rotation)
    ensures num.rotationMatrix(Matrix.Decomposition(num, m).rotation) == Identity()
  {
    Props.DecompositionFactors(num, m);
    assert Props.Embed(Props.Identity3()) == Identity();
  }

  lemma FromEngineWithAxis(num: Numerics, e: Matrix.DecomposedTransform)
    requires !Matrix.AxisIsNaN(e.rotation)
    ensures Recomposition(num, FromEngine(e)) == Matrix.Recomposition(num, e)
  {
    RenamingRoundTrip(Default(), e);
  }

  lemma FromEngineWithIdentityRotation(num: Numerics, e: Matrix.DecomposedTransform)
    requires num.rotationMatrix(e.rotation) == Identity()
    ensures Recomposition(num, FromEngine(e)) == Matrix.Recomposition(num, e)
  {
    RenamingRoundTrip(Default(), e);
    RecompositionWithIdentityRotation(num, FromEngine(e));
  }

  // ----- the identity -----

  /** Under an exact square root, the square root of 1 is 1. */
  lemma SqrtOne(num: Numerics)
    requires ExactSqrt(num)
    ensures num.sqrt(1.0) == 1.0
  {
    var s := num.sqrt(1.0);
    assert s >= 0.0 && s * s == 1.0;
    assert (s - 1.0) * (s + 1.0) == 0.0;
    assert s - 1.0 == 0.0 / (s + 1.0);
  }

  /** The Gram-Schmidt pass leaves an orthonormal matrix as it is, with unit scale and no skew. */
  lemma {:induction false} GramSchmidtOfOrthonormal(num: Numerics, r: Mat3)
    requires num.sqrt(1.0) == 1.0 && Props.Orthonormal(r)
    ensures Matrix.GramSchmidt(num, r) == Matrix.ScaleAndShear(r, Vec3(1.0, 1.0, 1.0), Zero3())
  {
    UnitUnchanged(num, r.c0);
    UnitUnchanged(num, r.c1);
    UnitUnchanged(num, r.c2);
    CombinationWithZero(r.c1, r.c0);
    CombinationWithZero(r.c2, r.c0);
    CombinationWithZero(r.c2, r.c1);
  }

  lemma UnitUnchanged(num: Numerics, v: Vec3)
    requires num.sqrt(1.0) == 1.0 && Dot3(v, v) == 1.0
    ensures Length(num, v) == 1.0 && Normalize(num, v) == v
  {
  }

  lemma CombinationWithZero(a: Vec3, b: Vec3)
    ensures Matrix.LinearCombination(1.0, a, -0.0, b) == a
  {
  }

  /**
   * The identity decomposes into no translation, unit scale, no skew, the
   * perspective `(0, 0, 0, 1)` and the quaternion of the identity rotation,
   * when the square root of 1 is 1.
   */
  lemma IdentityDecomposition(num: Numerics)
    requires num.sqrt(1.0) == 1.0
    ensures Decomposition(num, Identity())
         == Decomposed(Zero3(), Vec3(1.0, 1.0, 1.0), Matrix.EulerAngles(num, Props.Identity3()),
                       num.quatFromRotation(Props.Identity3()), Zero3(), Vec4(0.0, 0.0, 0.0, 1.0))
  {
    IdentityUnitShaped(num);
    UnitDecomposition(num, Identity(), Props.Identity3());
  }

  /**
   * The shape `UnitDecomposition` asks for: `[3][3] = 1`, no perspective
   * entries, an invertible perspective block, and an upper block `r` that the
   * Gram-Schmidt pass keeps with unit scale and no skew.
   */
  predicate UnitShaped(num: Numerics, m: Mat4, r: Mat3) {
    UnitUpper(m, r) && Matrix.GramSchmidt(num, r) == Matrix.ScaleAndShear(r, Vec3(1.0, 1.0, 1.0), Zero3())
  }

  predicate UnitUpper(m: Mat4, r: Mat3) {
    PassesEarlyReturns(m) && UpperBlock(m, r)
  }

  /** `[3][3] = 1`, so the normalisation keeps the matrix, and the perspective block is invertible. */
  predicate PassesEarlyReturns(m: Mat4) {
    m.c3.w == 1.0 && MatrixScale(1.0 / 1.0, m) == m && Det(Matrix.PerspectiveBlock(m)) != 0.0
  }

  /** No perspective entries, and `r` is the upper block, with a non-negative determinant. */
  predicate UpperBlock(m: Mat4, r: Mat3) {
    !Matrix.HasPerspective(m) && Matrix.RotationLocal(m) == r && Det3(r) >= 0.0
  }

  /** Such a matrix decomposes into that block's rotation, with unit scale, no skew and no perspective. */
  lemma UnitDecomposition(num: Numerics, m: Mat4, r: Mat3)
    requires UnitShaped(num, m, r)
    ensures Decomposition(num, m)
         == Decomposed(Xyz(m.c3), Vec3(1.0, 1.0, 1.0), Matrix.EulerAngles(num, r), num.quatFromRotation(r),
                       Zero3(), Vec4(0.0, 0.0, 0.0, 1.0))
  {
  }

  /** The identity has that shape, with the identity as its upper block, when the square root of 1 is 1. */
  lemma IdentityUnitShaped(num: Numerics)
    requires num.sqrt(1.0) == 1.0
    ensures UnitShaped(num, Identity(), Props.Identity3()) && Xyz(Identity().c3) == Zero3()
  {
    IdentityUnitUpper();
    UnitBasis(1.0, 0.0);
    GramSchmidtOfOrthonormal(num, Props.Identity3());
  }

  lemma IdentityUnitUpper()
    ensures UnitUpper(Identity(), Props.Identity3()) && Xyz(Identity().c3) == Zero3()
  {
    IdentityPassesEarlyReturns();
    IdentityUpperBlock();
  }

  lemma IdentityPassesEarlyReturns()
    ensures PassesEarlyReturns(Identity())
  {
    ScaledByOneOver1(Identity());
    Props.NoPerspectiveIdentity();
    DetIdentity();
  }

  lemma IdentityUpperBlock()
    ensures UpperBlock(Identity(), Props.Identity3())
  {
    UpperIdentity();
    UnitBasis(1.0, 0.0);
  }

  lemma ScaledByOneOver1(m: Mat4)
    ensures MatrixScale(1.0 / 1.0, m) == m
  {
  }

  lemma DetIdentity()
    ensures Det(Identity()) == 1.0
  {
  }

  lemma UpperIdentity()
    ensures !Matrix.HasPerspective(Identity()) && Matrix.RotationLocal(Identity()) == Props.Identity3()
  {
  }

  lemma EmbedIdentity()
    ensures Props.Embed(Props.Identity3()) == Identity()
  {
  }

  /** The 3x3 identity written with a one `a` and a zero `z`, so that its products stay symbolic. */
  lemma UnitBasis(a: real, z: real)
    requires a == 1.0 && z == 0.0
    ensures var r := Mat3(Vec3(a, z, z), Vec3(z, a, z), Vec3(z, z, a));
      r == Props.Identity3() && Props.Orthonormal(r) && Det3(r) == 1.0
  {
  }

  /**
   * Recomposing the decomposition of the identity with its perspective
   * replaced by `p` gives the identity with row 3 set to `p`, when the
   * square root of 1 is 1 and the quaternion conversions are exact.
   */
  lemma {:induction false} IdentityWithPerspective(num: Numerics, p: Vec4)
    requires num.sqrt(1.0) == 1.0 && Props.ExactRotations(num)
    ensures Recomposition(num, Decomposition(num, Identity()).(perspective := p))
         == Matrix.ApplyingPerspective(Identity(), p)
  {
    IdentityDecomposition(num);
    UnitBasis(1.0, 0.0);
    EmbedIdentity();
    var d := Decomposition(num, Identity()).(perspective := p);
    assert num.rotationMatrix(d.quaternion) == Identity();
    RecomposedUnitParts(num, d);
  }

  /** The identity recomposes from its decomposition, under the same hypotheses. */
  lemma {:induction false} IdentityRoundTrip(num: Numerics)
    requires num.sqrt(1.0) == 1.0 && Props.ExactRotations(num)
    ensures Recomposition(num, Decomposition(num, Identity())) == Identity()
  {
    IdentityDecomposition(num);
    var d := Decomposition(num, Identity());
    assert d.(perspective := Vec4(0.0, 0.0, 0.0, 1.0)) == d;
    IdentityWithPerspective(num, Vec4(0.0, 0.0, 0.0, 1.0));
    Props.NoPerspectiveIdentity();
  }

  /** With no translation, an identity rotation, no skew and unit scale, only the perspective is left. */
  lemma RecomposedUnitParts(num: Numerics, d: Decomposed)
    requires d.translation == Zero3() && d.scale == Vec3(1.0, 1.0, 1.0) && d.skew == Zero3()
    requires num.rotationMatrix(d.quaternion) == Identity()
    ensures Recomposition(num, d) == Matrix.ApplyingPerspective(Identity(), d.perspective)
  {
    var withPerspective := Matrix.ApplyingPerspective(Identity(), d.perspective);
    TranslatedByZero(withPerspective);
    RotationStepsAgree(num, withPerspective, d.quaternion);
    Matrix.SkewedByZero(withPerspective);
    ScaledByOne(withPerspective);
  }

  lemma TranslatedByZero(m: Mat4)
    ensures Matrix.Translated(m, Zero3()) == m
  {
    assert Matrix.TranslationMatrix(Zero3()) == Identity();
    MulIdentity(m);
  }

  lemma ScaledByOne(m: Mat4)
    ensures Matrix.Scaled(m, Vec3(1.0, 1.0, 1.0)) == m
  {
  }
}
