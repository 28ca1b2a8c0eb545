/**
 * The `Interpolatable` conformances of the older `CoreAnimationUtils` copy.
 * The simd vectors interpolate as in `Interpolatable`; quaternions, unlike
 * there, interpolate linearly, component by component, so this copy needs
 * no hypothesis about `simd_slerp` for its end points. The decomposition
 * interpolates its six fields with the same fraction, and a matrix
 * interpolates through its decomposition.
 */
module LegacyLERPExtensions {
  import opened Simd
  import opened Interpolatable
  import Matrix = SimdDecomposed
  import Props = DecompositionProperties
  import Legacy = LegacyTransformationMatrix

  /** `simd_quatd.lerp(to:fraction:)`: `self + (to - self) * fraction` on the four components. */
  function QuatLinearLerp(p: Quat, q: Quat, t: real): (r: Quat)
    ensures t == 0.0 ==> r == p
    ensures t == 1.0 ==> r == q
    ensures p == q ==> r == p
  {
    LerpEndpoints(p.vector, q.vector);
    LerpConstant(p.vector, t);
    Quat(Lerp4(p.vector, q.vector, t))
  }

  /**
   * The linear quaternion lerp leaves the unit sphere: half-way between two
   * orthogonal unit quaternions (rotations half a turn apart, such as the
   * identity and the half-turn about an axis) the squared norm is 1/2.
   */
  lemma LinearMidpointNotUnit(p: Quat, q: Quat)
    requires Dot4(p.vector, p.vector) == 1.0 && Dot4(q.vector, q.vector) == 1.0 && Dot4(p.vector, q.vector) == 0.0
    ensures var r := QuatLinearLerp(p, q, 0.5); Dot4(r.vector, r.vector) == 0.5
  {
    var r := QuatLinearLerp(p, q, 0.5).vector;
    assert r == Scale4(0.5, Add4(p.vector, q.vector));
    MidpointNorm(p.vector, q.vector);
  }

  lemma MidpointNorm(u: Vec4, v: Vec4)
    ensures var m := Scale4(0.5, Add4(u, v));
      Dot4(m, m) == 0.25 * (Dot4(u, u) + 2.0 * Dot4(u, v) + Dot4(v, v))
  {
  }

  /** `matrix_double4x4.Decomposed.lerp(to:fraction:)`: each of the six fields with the same fraction. */
  function Lerp(a: Legacy.Decomposed, b: Legacy.Decomposed, t: real): (r: Legacy.Decomposed)
    ensures t == 0.0 ==> r == a
    ensures t == 1.0 ==> r == b
    ensures a == b ==> r == a
  {
    Lerp3Endpoints(a.scale, b.scale);
    Lerp3Endpoints(a.skew, b.skew);
    Lerp3Endpoints(a.rotation, b.rotation);
    Lerp3Endpoints(a.translation, b.translation);
    LerpEndpoints(a.perspective, b.perspective);
    Legacy.Decomposed(
      Lerp3(a.translation, b.translation, t), Lerp3(a.scale, b.scale, t), Lerp3(a.rotation, b.rotation, t),
      QuatLinearLerp(a.quaternion, b.quaternion, t), Lerp3(a.skew, b.skew, t), Lerp4(a.perspective, b.perspective, t))
  }

  /**
   * Apart from the quaternion, the fields move as the engine's lerp moves
   * them: the two lerps agree on every field but the rotation.
   */
  lemma LerpAsEngineButRotation(num: Numerics, a: Legacy.Decomposed, b: Legacy.Decomposed, t: real)
    ensures Legacy.ToEngine(Lerp(a, b, t))
         == Matrix.Lerp(num, Legacy.ToEngine(a), Legacy.ToEngine(b), t)
              .(rotation := QuatLinearLerp(a.quaternion, b.quaternion, t))
  {
  }

  /** `matrix_double4x4.lerp(to:fraction:)`: interpolates the decompositions and recomposes. */
  function MatrixLerp(num: Numerics, a: Mat4, b: Mat4, t: real): Mat4 {
    Legacy.Recomposition(num, Lerp(Legacy.Decomposition(num, a), Legacy.Decomposition(num, b), t))
  }

  /** Fraction 0 gives the recomposed decomposition of the first matrix, whatever the second. */
  lemma MatrixLerpAtZero(num: Numerics, a: Mat4, b: Mat4)
    ensures MatrixLerp(num, a, b, 0.0) == Legacy.Recomposition(num, Legacy.Decomposition(num, a))
  {
    RecomposedLerpAtZero(num, Legacy.Decomposition(num, a), Legacy.Decomposition(num, b));
  }

  /** Fraction 1 gives the recomposed decomposition of the second matrix, whatever the first. */
  lemma MatrixLerpAtOne(num: Numerics, a: Mat4, b: Mat4)
    ensures MatrixLerp(num, a, b, 1.0) == Legacy.Recomposition(num, Legacy.Decomposition(num, b))
  {
    RecomposedLerpAtOne(num, Legacy.Decomposition(num, a), Legacy.Decomposition(num, b));
  }

  lemma RecomposedLerpAtZero(num: Numerics, from: Legacy.Decomposed, to: Legacy.Decomposed)
    ensures Legacy.Recomposition(num, Lerp(from, to, 0.0)) == Legacy.Recomposition(num, from)
  {
  }

  lemma RecomposedLerpAtOne(num: Numerics, from: Legacy.Decomposed, to: Legacy.Decomposed)
    ensures Legacy.Recomposition(num, Lerp(from, to, 1.0)) == Legacy.Recomposition(num, to)
  {
  }

  /**
   * Between affine, non-degenerate matrices with non-zero scales, fraction 0
   * gives the first normalised matrix and fraction 1 the second, with no
   * hypothesis about `simd_slerp`.
   */
  lemma {:induction false} MatrixLerpEndpoints(num: Numerics, a: Mat4, b: Mat4)
    requires ExactSqrt(num) && Props.ExactRotations(num)
    requires a.c0.w == 0.0 && a.c1.w == 0.0 && a.c2.w == 0.0 && a.c3.w != 0.0
    requires b.c0.w == 0.0 && b.c1.w == 0.0 && b.c2.w == 0.0 && b.c3.w != 0.0
    requires !Matrix.Degenerate(a) && !Matrix.Degenerate(b)
    requires Props.NonZeroScale(Matrix.GramSchmidt(num, Matrix.RotationLocal(Matrix.Normalized(a))))
    requires Props.NonZeroScale(Matrix.GramSchmidt(num, Matrix.RotationLocal(Matrix.Normalized(b))))
    ensures MatrixLerp(num, a, b, 0.0) == Matrix.Normalized(a)
    ensures MatrixLerp(num, a, b, 1.0) == Matrix.Normalized(b)
  {
    Legacy.RecomposeDecomposeRoundTrip(num, a);
    Legacy.RecomposeDecomposeRoundTrip(num, b);
    MatrixLerpAtZero(num, a, b);
    MatrixLerpAtOne(num, a, b);
  }
}
