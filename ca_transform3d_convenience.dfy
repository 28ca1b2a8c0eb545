/**
 * The named accessors of `Perspective` (a `CGVector4`) and `Skew` (a
 * `CGVector3`): `m14`, `m24`, `m34`, `m44` and `XY`, `XZ`, `YZ` read and
 * write one storage index each, and the initialisers that take them by name.
 *
 * Swift extensions add these members to the wrapper structs; here the
 * getters are functions and the setters methods on a wrapper object, and
 * each initialiser is the storage it builds.
 */
module CATransform3DConvenienceExtensions {
  import opened Simd
  import opened SimdDecomposed
  import opened Optional
  import opened CGFloatVectorTypes

  // ----- Perspective -----

  /** `m14`, `m24`, `m34`, `m44` read storage indices 0, 1, 2, 3. */
  function M14(v: CGVector4): real reads v { v.storage.x }
  function M24(v: CGVector4): real reads v { v.storage.y }
  function M34(v: CGVector4): real reads v { v.storage.z }
  function M44(v: CGVector4): real reads v { v.storage.w }

  /** The `m14` setter writes storage index 0 and nothing else. */
  method SetM14(v: CGVector4, a: real)
    modifies v
    ensures v.storage == old(v.storage).(x := a)
    ensures M14(v) == a && M24(v) == old(M24(v)) && M34(v) == old(M34(v)) && M44(v) == old(M44(v))
  {
    v.storage := v.storage.(x := a);
  }

  method SetM24(v: CGVector4, a: real)
    modifies v
    ensures v.storage == old(v.storage).(y := a)
    ensures M24(v) == a && M14(v) == old(M14(v)) && M34(v) == old(M34(v)) && M44(v) == old(M44(v))
  {
    v.storage := v.storage.(y := a);
  }

  method SetM34(v: CGVector4, a: real)
    modifies v
    ensures v.storage == old(v.storage).(z := a)
    ensures M34(v) == a && M14(v) == old(M14(v)) && M24(v) == old(M24(v)) && M44(v) == old(M44(v))
  {
    v.storage := v.storage.(z := a);
  }

  method SetM44(v: CGVector4, a: real)
    modifies v
    ensures v.storage == old(v.storage).(w := a)
    ensures M44(v) == a && M14(v) == old(M14(v)) && M24(v) == old(M24(v)) && M34(v) == old(M34(v))
  {
    v.storage := v.storage.(w := a);
  }

  /**
   * The storage of `CGVector4(m14:m24:m34:m44:)`, the `CGFloat` and `Double`
   * overloads: each argument at its own index, an omitted one taken from
   * `(0, 0, 0, 1)`, the row of the identity.
   */
  function PerspectiveInit(m14: Option<real>, m24: Option<real>, m34: Option<real>, m44: Option<real>): (r: Vec4)
    ensures r.x == m14.GetOr(0.0) && r.y == m24.GetOr(0.0) && r.z == m34.GetOr(0.0) && r.w == m44.GetOr(1.0)
  {
    Vec4(m14.GetOr(0.0), m24.GetOr(0.0), m34.GetOr(0.0), m44.GetOr(1.0))
  }

  /** With every argument omitted, applying the perspective leaves the identity unchanged. */
  lemma PerspectiveInitDefaultIsNeutral()
    ensures ApplyingPerspective(Identity(), PerspectiveInit(None, None, None, None)) == Identity()
  {
  }

  /** The storage of the `Float` overload, as written: `m34` is passed in the fourth place too. */
  function FloatPerspectiveInit(m14: Option<real>, m24: Option<real>, m34: Option<real>, m44: Option<real>): (r: Vec4)
    ensures r.x == m14.GetOr(0.0) && r.y == m24.GetOr(0.0) && r.z == m34.GetOr(0.0)
    ensures r.w == r.z
  {
    Vec4(m14.GetOr(0.0), m24.GetOr(0.0), m34.GetOr(0.0), m34.GetOr(0.0))
  }

  /**
   * The `Float` overload ignores `m44`: the usual perspective `m34 = -0.002`
   * gets `-0.002` in the fourth place instead of the default 1, and the
   * identity with that perspective applied has a zero in `[3][3]`.
   */
  lemma FloatPerspectiveInitIgnoresM44()
    ensures FloatPerspectiveInit(None, None, Some(-0.002), None).w == -0.002
    ensures PerspectiveInit(None, None, Some(-0.002), None).w == 1.0
    ensures FloatPerspectiveInit(None, None, Some(0.0), Some(1.0)).w == 0.0
    ensures ApplyingPerspective(Identity(), FloatPerspectiveInit(None, None, None, None)).c3.w == 0.0
  {
  }

  /** The `Float` overload corrected: the same storage as the other overloads. */
  function CorrectedFloatPerspectiveInit(m14: Option<real>, m24: Option<real>, m34: Option<real>, m44: Option<real>): (r: Vec4)
    ensures r == PerspectiveInit(m14, m24, m34, m44)
  {
    Vec4(m14.GetOr(0.0), m24.GetOr(0.0), m34.GetOr(0.0), m44.GetOr(1.0))
  }

  /** Every argument of the corrected overload reads back, and omitting all of them is neutral. */
  lemma CorrectedFloatPerspectiveInitReadsBack(m14: real, m24: real, m34: real, m44: real)
    ensures CorrectedFloatPerspectiveInit(Some(m14), Some(m24), Some(m34), Some(m44)) == Vec4(m14, m24, m34, m44)
    ensures ApplyingPerspective(Identity(), CorrectedFloatPerspectiveInit(None, None, None, None)) == Identity()
  {
  }

  // ----- Skew -----

  /** `XY`, `XZ`, `YZ` read storage indices 0, 1, 2. */
  function XYOf(v: CGVector3): real reads v { v.storage.x }
  function XZOf(v: CGVector3): real reads v { v.storage.y }
  function YZOf(v: CGVector3): real reads v { v.storage.z }

  method SetXYOf(v: CGVector3, a: real)
    modifies v
    ensures v.storage == old(v.storage).(x := a)
    ensures XYOf(v) == a && XZOf(v) == old(XZOf(v)) && YZOf(v) == old(YZOf(v))
  {
    v.storage := v.storage.(x := a);
  }

  method SetXZOf(v: CGVector3, a: real)
    modifies v
    ensures v.storage == old(v.storage).(y := a)
    ensures XZOf(v) == a && XYOf(v) == old(XYOf(v)) && YZOf(v) == old(YZOf(v))
  {
    v.storage := v.storage.(y := a);
  }

  method SetYZOf(v: CGVector3, a: real)
    modifies v
    ensures v.storage == old(v.storage).(z := a)
    ensures YZOf(v) == a && XYOf(v) == old(XYOf(v)) && XZOf(v) == old(XZOf(v))
  {
    v.storage := v.storage.(z := a);
  }

  /** The storage of `CGVector3(XY:XZ:YZ:)`, every overload: an omitted component is 0. */
  function SkewVectorInit(xy: Option<real>, xz: Option<real>, yz: Option<real>): (r: Vec3)
    ensures r.x == xy.GetOr(0.0) && r.y == xz.GetOr(0.0) && r.z == yz.GetOr(0.0)
  {
    Vec3(xy.GetOr(0.0), xz.GetOr(0.0), yz.GetOr(0.0))
  }

  /** With every component omitted, skewing by the result leaves any matrix unchanged. */
  lemma SkewVectorInitDefaultIsNeutral(m: Mat4)
    ensures Skewed(m, SkewVectorInit(None, None, None)) == m
  {
    SkewedByZero(m);
  }
}
