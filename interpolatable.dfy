/**
 * The `Interpolatable` conformances of the simd vectors and quaternions:
 * vectors interpolate linearly, component by component, with a fraction
 * that is not clamped; quaternions delegate to `simd_slerp`.
 */
module Interpolatable {
  import opened Simd

  /** `SIMD2.lerp(to:fraction:)`: `self + (to - self) * fraction`. */
  function Lerp2(a: Vec2, b: Vec2, t: real): (r: Vec2)
    ensures r.x == (1.0 - t) * a.x + t * b.x
    ensures r.y == (1.0 - t) * a.y + t * b.y
  {
    Vec2(a.x + (b.x - a.x) * t, a.y + (b.y - a.y) * t)
  }

  /** `SIMD3.lerp(to:fraction:)`: `self + (to - self) * fraction`. */
  function Lerp3(a: Vec3, b: Vec3, t: real): (r: Vec3)
    ensures r.x == (1.0 - t) * a.x + t * b.x
    ensures r.y == (1.0 - t) * a.y + t * b.y
    ensures r.z == (1.0 - t) * a.z + t * b.z
  {
    Vec3(a.x + (b.x - a.x) * t, a.y + (b.y - a.y) * t, a.z + (b.z - a.z) * t)
  }

  /** `SIMD4.lerp(to:fraction:)`: `self + (to - self) * fraction`. */
  function Lerp4(a: Vec4, b: Vec4, t: real): (r: Vec4)
    ensures r.x == (1.0 - t) * a.x + t * b.x
    ensures r.y == (1.0 - t) * a.y + t * b.y
    ensures r.z == (1.0 - t) * a.z + t * b.z
    ensures r.w == (1.0 - t) * a.w + t * b.w
  {
    Vec4(a.x + (b.x - a.x) * t, a.y + (b.y - a.y) * t, a.z + (b.z - a.z) * t, a.w + (b.w - a.w) * t)
  }

  /** `simd_slerp` meets its end points: fraction 0 gives the start and fraction 1 the end. */
  ghost predicate SlerpEndpoints(num: Numerics) {
    && (forall p, q {:trigger num.slerp(p, q, 0.0)} :: num.slerp(p, q, 0.0) == p)
    && (forall p, q {:trigger num.slerp(p, q, 1.0)} :: num.slerp(p, q, 1.0) == q)
  }

  /** `simd_quatd.lerp(to:fraction:)`, which is spherical interpolation. */
  function QuatLerp(num: Numerics, p: Quat, q: Quat, t: real): (r: Quat)
    ensures SlerpEndpoints(num) && t == 0.0 ==> r == p
    ensures SlerpEndpoints(num) && t == 1.0 ==> r == q
  {
    num.slerp(p, q, t)
  }

  /** Fraction 0 gives the start value and fraction 1 the end value. */
  lemma LerpEndpoints(a: Vec4, b: Vec4)
    ensures Lerp4(a, b, 0.0) == a && Lerp4(a, b, 1.0) == b
  {
  }

  lemma Lerp3Endpoints(a: Vec3, b: Vec3)
    ensures Lerp3(a, b, 0.0) == a && Lerp3(a, b, 1.0) == b
  {
  }

  lemma Lerp2Endpoints(a: Vec2, b: Vec2)
    ensures Lerp2(a, b, 0.0) == a && Lerp2(a, b, 1.0) == b
  {
  }

  /** Interpolating between equal values gives that value for every fraction, also outside [0, 1]. */
  lemma LerpConstant(a: Vec4, t: real)
    ensures Lerp4(a, a, t) == a
  {
  }

  /**
   * The fraction is not clamped: past the end the result keeps going along
   * the same line, and a step of the fraction always moves the result by the
   * same multiple of `b - a`.
   */
  lemma LerpExtrapolates(a: Vec4, b: Vec4, t: real, u: real)
    ensures Sub4(Lerp4(a, b, t + u), Lerp4(a, b, t)) == Scale4(u, Sub4(b, a))
  {
    var p, q := Lerp4(a, b, t + u), Lerp4(a, b, t);
    assert p.x - q.x == u * (b.x - a.x);
    assert p.y - q.y == u * (b.y - a.y);
    assert p.z - q.z == u * (b.z - a.z);
    assert p.w - q.w == u * (b.w - a.w);
  }

  /** Half-way between `(1, 10, 100, 1000)` and its double is `(1.5, 15, 150, 1500)`. */
  lemma LerpHalfway()
    ensures Lerp4(Vec4(1.0, 10.0, 100.0, 1000.0), Scale4(2.0, Vec4(1.0, 10.0, 100.0, 1000.0)), 0.5)
         == Vec4(1.5, 15.0, 150.0, 1500.0)
  {
  }
}
