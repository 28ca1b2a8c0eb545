/**
 * Named accessors on simd vectors: the perspective entries `m31`...`m34` of
 * a four-vector, the skew components `xy`, `xz`, `yz` of a three-vector,
 * and the Euler-angle constructor of `simd_quatd`.
 *
 * simd vectors are values; a property setter is modelled as the function
 * that returns the updated vector.
 */
module SimdConvenienceExtensions {
  import opened Simd

  // ----- SIMD4 perspective entries, as written -----

  /** `SIMD4.m31` reads element 0. */
  function M31(v: Vec4): real { v.x }
  /** `SIMD4.m32` reads element 0, like `m31`. */
  function M32(v: Vec4): real { v.x }
  /** `SIMD4.m33` reads element 0, like `m31`. */
  function M33(v: Vec4): real { v.x }
  /** `SIMD4.m34` reads element 0, like `m31`. */
  function M34(v: Vec4): real { v.x }

  /** The `m31` setter writes element 0. */
  function SetM31(v: Vec4, a: real): Vec4 { v.(x := a) }
  /** The `m32` setter writes element 0. */
  function SetM32(v: Vec4, a: real): Vec4 { v.(x := a) }
  /** The `m33` setter writes element 0. */
  function SetM33(v: Vec4, a: real): Vec4 { v.(x := a) }
  /** The `m34` setter writes element 0. */
  function SetM34(v: Vec4, a: real): Vec4 { v.(x := a) }

  /** `SIMD4(m31:m32:m33:m34:)` stores its arguments positionally. */
  function PerspectiveInit(m31: real, m32: real, m33: real, m34: real): (r: Vec4)
    ensures [r.x, r.y, r.z, r.w] == [m31, m32, m33, m34]
  {
    Vec4(m31, m32, m33, m34)
  }

  /**
   * The four accessors share one slot: after any of the setters all four
   * getters return the value written, and elements 1 to 3 keep their values.
   */
  lemma PerspectiveAccessorsShareSlot(v: Vec4, a: real)
    ensures var w := SetM34(v, a);
      M31(w) == a && M32(w) == a && M33(w) == a && M34(w) == a && w.y == v.y && w.z == v.z && w.w == v.w
    ensures M34(SetM31(v, a)) == a && M31(SetM32(v, a)) == a && M31(SetM33(v, a)) == a
  {
  }

  /** Reading back what the initialiser stored fails for `m32`: `(1, 2, 3, 4)` reads back `1`. */
  lemma PerspectiveInitRoundTripFails()
    ensures M32(PerspectiveInit(1.0, 2.0, 3.0, 4.0)) == 1.0
    ensures M32(PerspectiveInit(1.0, 2.0, 3.0, 4.0)) != 2.0
  {
  }

  // ----- SIMD4 perspective entries, corrected -----

  /** `m31`...`m34` reading elements 0 to 3, the order the initialiser stores them in. */
  function CorrectedM31(v: Vec4): real { v.x }
  function CorrectedM32(v: Vec4): real { v.y }
  function CorrectedM33(v: Vec4): real { v.z }
  function CorrectedM34(v: Vec4): real { v.w }

  function CorrectedSetM32(v: Vec4, a: real): (r: Vec4)
    ensures CorrectedM32(r) == a
    ensures CorrectedM31(r) == CorrectedM31(v) && CorrectedM33(r) == CorrectedM33(v) && CorrectedM34(r) == CorrectedM34(v)
  {
    v.(y := a)
  }

  function CorrectedSetM33(v: Vec4, a: real): (r: Vec4)
    ensures CorrectedM33(r) == a
    ensures CorrectedM31(r) == CorrectedM31(v) && CorrectedM32(r) == CorrectedM32(v) && CorrectedM34(r) == CorrectedM34(v)
  {
    v.(z := a)
  }

  function CorrectedSetM34(v: Vec4, a: real): (r: Vec4)
    ensures CorrectedM34(r) == a
    ensures CorrectedM31(r) == CorrectedM31(v) && CorrectedM32(r) == CorrectedM32(v) && CorrectedM33(r) == CorrectedM33(v)
  {
    v.(w := a)
  }

  /** With the corrected getters every argument of the initialiser reads back. */
  lemma CorrectedPerspectiveRoundTrip(m31: real, m32: real, m33: real, m34: real)
    ensures var v := PerspectiveInit(m31, m32, m33, m34);
      CorrectedM31(v) == m31 && CorrectedM32(v) == m32 && CorrectedM33(v) == m33 && CorrectedM34(v) == m34
  {
  }

  // ----- SIMD3 skew components -----

  /** `SIMD3.xy` is element 0. */
  function XY(v: Vec3): real { v.x }
  /** `SIMD3.xz` is element 1. */
  function XZ(v: Vec3): real { v.y }
  /** `SIMD3.yz` is element 2. */
  function YZ(v: Vec3): real { v.z }

  /** The `xy` setter writes element 0 only. */
  function SetXY(v: Vec3, a: real): (r: Vec3)
    ensures XY(r) == a && XZ(r) == XZ(v) && YZ(r) == YZ(v)
  {
    v.(x := a)
  }

  /** The `xz` setter writes element 1 only. */
  function SetXZ(v: Vec3, a: real): (r: Vec3)
    ensures XZ(r) == a && XY(r) == XY(v) && YZ(r) == YZ(v)
  {
    v.(y := a)
  }

  /** The `yz` setter writes element 2 only. */
  function SetYZ(v: Vec3, a: real): (r: Vec3)
    ensures YZ(r) == a && XY(r) == XY(v) && XZ(r) == XZ(v)
  {
    v.(z := a)
  }

  /** `SIMD3(xy:xz:yz:)` stores its arguments at positions 0, 1, 2, where the getters read them back. */
  function SkewInit(xy: real, xz: real, yz: real): (r: Vec3)
    ensures [r.x, r.y, r.z] == [xy, xz, yz]
    ensures XY(r) == xy && XZ(r) == xz && YZ(r) == yz
  {
    Vec3(xy, xz, yz)
  }

  // ----- Euler angles -----

  /** The sine and cosine of zero are exact. */
  ghost predicate TrigAtZero(num: Numerics) {
    num.sin(0.0) == 0.0 && num.cos(0.0) == 1.0
  }

  /**
   * `simd_quatd(eulerAngles)`: the product of the half-angle rotations about
   * x, y and z, written out with the half-angle sines and cosines.
   */
  function QuatFromEuler(num: Numerics, e: Vec3): Quat {
    var cz, sz := num.cos(e.z * 0.5), num.sin(e.z * 0.5);
    var cy, sy := num.cos(e.y * 0.5), num.sin(e.y * 0.5);
    var cx, sx := num.cos(e.x * 0.5), num.sin(e.x * 0.5);
    Quat(Vec4(sx * cy * cz - cx * sy * sz,
              cx * sy * cz + sx * cy * sz,
              cx * cy * sz - sx * sy * cz,
              cx * cy * cz + sx * sy * sz))
  }

  /** Zero Euler angles give the identity quaternion. */
  lemma QuatFromZeroEuler(num: Numerics)
    requires TrigAtZero(num)
    ensures QuatFromEuler(num, Zero3()) == Quat(Vec4(0.0, 0.0, 0.0, 1.0))
  {
  }

  /** An angle about x alone is the rotation by that angle about the x axis. */
  lemma QuatFromEulerX(num: Numerics, a: real)
    requires TrigAtZero(num)
    ensures QuatFromEuler(num, Vec3(a, 0.0, 0.0)) == FromAngleAxis(num, a, Vec3(1.0, 0.0, 0.0))
  {
    assert a * 0.5 == a / 2.0;
  }

  /** An angle about y alone is the rotation by that angle about the y axis. */
  lemma QuatFromEulerY(num: Numerics, a: real)
    requires TrigAtZero(num)
    ensures QuatFromEuler(num, Vec3(0.0, a, 0.0)) == FromAngleAxis(num, a, Vec3(0.0, 1.0, 0.0))
  {
    assert a * 0.5 == a / 2.0;
  }

  /** An angle about z alone is the rotation by that angle about the z axis. */
  lemma QuatFromEulerZ(num: Numerics, a: real)
    requires TrigAtZero(num)
    ensures QuatFromEuler(num, Vec3(0.0, 0.0, a)) == FromAngleAxis(num, a, Vec3(0.0, 0.0, 1.0))
  {
    assert a * 0.5 == a / 2.0;
  }
}
