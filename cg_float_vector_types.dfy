/**
 * `CGVector3`, `CGVector4` and `CGQuaternion`: CGFloat-facing wrappers
 * around a simd `storage` value. Their component setters and the
 * quaternion's `axis` and `angle` setters rewrite `storage` in place, so each
 * wrapper is a class with a `storage` field; equality within a tolerance and
 * the angle-axis storage are functions on the storage values.
 *
 * CGFloat and Double are both modelled as `real`, so the conversions between
 * them, and between a wrapper and its storage, are the identity.
 */
module CGFloatVectorTypes {
  import opened Simd
  import opened Interpolatable

  // ----- equality within a tolerance -----

  /** `accuracy`: two values compare equal when they differ by strictly less than this. */
  const Accuracy: real := 0.0001

  function Abs(a: real): real { if a < 0.0 then -a else a }

  /** `CGVector3 ==`: every component differs by less than `Accuracy`. */
  predicate Close3(a: Vec3, b: Vec3) {
    Abs(b.x - a.x) < Accuracy && Abs(b.y - a.y) < Accuracy && Abs(b.z - a.z) < Accuracy
  }

  /** `CGVector4 ==`: the same test over four components. */
  predicate Close4(a: Vec4, b: Vec4) {
    Abs(b.x - a.x) < Accuracy && Abs(b.y - a.y) < Accuracy && Abs(b.z - a.z) < Accuracy && Abs(b.w - a.w) < Accuracy
  }

  /** `CGQuaternion ==`: the axes compare equal as `CGVector3`s and the angles differ by less than `Accuracy`. */
  predicate CloseQuat(num: Numerics, a: Quat, b: Quat) {
    Close3(Axis(num, a), Axis(num, b)) && Abs(Angle(num, b) - Angle(num, a)) < Accuracy
  }

  /** `Close3` holds exactly when every difference lies strictly between `-0.0001` and `0.0001`. */
  lemma Close3Bounds(a: Vec3, b: Vec3)
    ensures Close3(a, b) <==>
      && -0.0001 < b.x - a.x < 0.0001
      && -0.0001 < b.y - a.y < 0.0001
      && -0.0001 < b.z - a.z < 0.0001
  {
  }

  lemma Close4Bounds(a: Vec4, b: Vec4)
    ensures Close4(a, b) <==>
      && -0.0001 < b.x - a.x < 0.0001
      && -0.0001 < b.y - a.y < 0.0001
      && -0.0001 < b.z - a.z < 0.0001
      && -0.0001 < b.w - a.w < 0.0001
  {
  }

  /** The tolerance equalities are reflexive and symmetric. */
  lemma CloseReflexive(num: Numerics, a: Vec3, b: Vec4, q: Quat)
    ensures Close3(a, a) && Close4(b, b) && CloseQuat(num, q, q)
  {
  }

  lemma CloseSymmetric(num: Numerics, a: Vec3, b: Vec3, c: Vec4, d: Vec4, p: Quat, q: Quat)
    ensures Close3(a, b) == Close3(b, a)
    ensures Close4(c, d) == Close4(d, c)
    ensures CloseQuat(num, p, q) == CloseQuat(num, q, p)
  {
  }

  /** They are not transitive: each step of 0.00006 is within the tolerance, the two steps together are not. */
  lemma Close3NotTransitive()
    ensures Close3(Vec3(0.0, 0.0, 0.0), Vec3(0.00006, 0.0, 0.0))
    ensures Close3(Vec3(0.00006, 0.0, 0.0), Vec3(0.00012, 0.0, 0.0))
    ensures !Close3(Vec3(0.0, 0.0, 0.0), Vec3(0.00012, 0.0, 0.0))
  {
  }

  // ----- angle and axis -----

  /** The storage `CGQuaternion(angle:axis:)` builds: `simd_quatd(angle:axis:)` with the axis normalised first. */
  function AngleAxisStorage(num: Numerics, angle: real, axis: Vec3): Quat {
    FromAngleAxis(num, angle, Normalize(num, axis))
  }

  /**
   * With an exact square root and a non-zero axis, the axis passed on has
   * unit length: the imaginary part has the length of the half-angle sine,
   * and the real part is the half-angle cosine.
   */
  lemma AngleAxisStoresUnitAxis(num: Numerics, angle: real, axis: Vec3)
    requires ExactSqrt(num) && Length(num, axis) != 0.0
    ensures var q := AngleAxisStorage(num, angle, axis);
      && Dot3(Imag(q), Imag(q)) == num.sin(angle / 2.0) * num.sin(angle / 2.0)
      && q.vector.w == num.cos(angle / 2.0)
  {
    UnitAxisScaled(num, num.sin(angle / 2.0), axis);
  }

  lemma UnitAxisScaled(num: Numerics, s: real, axis: Vec3)
    requires ExactSqrt(num) && Length(num, axis) != 0.0
    ensures Dot3(Scale3(s, Normalize(num, axis)), Scale3(s, Normalize(num, axis))) == s * s
  {
    var n := Normalize(num, axis);
    NormalizeUnit(num, axis);
    calc {
      Dot3(Scale3(s, n), Scale3(s, n));
      (s * n.x) * (s * n.x) + (s * n.y) * (s * n.y) + (s * n.z) * (s * n.z);
      (s * s) * Dot3(n, n);
    }
  }

  /** A zero axis leaves the imaginary part zero whatever the angle, the case simd's axis is undefined for. */
  lemma ZeroAxisStorage(num: Numerics, angle: real)
    ensures Imag(AngleAxisStorage(num, angle, Zero3())) == Zero3()
  {
    var s := num.sin(angle / 2.0);
    calc {
      Imag(AngleAxisStorage(num, angle, Zero3()));
      { NormalizeZero(num); }
      Imag(FromAngleAxis(num, angle, Zero3()));
      { FromAngleAxisImag(num, angle, Zero3()); }
      Scale3(s, Zero3());
      Vec3(s * 0.0, s * 0.0, s * 0.0);
      Zero3();
    }
  }

  /** `Normalize` of the zero vector is the zero vector, whatever the square root gives. */
  lemma NormalizeZero(num: Numerics)
    ensures Normalize(num, Zero3()) == Zero3()
  {
    var l := Length(num, Zero3());
    if l != 0.0 {
      var k := 1.0 / l;
      assert Scale3(k, Zero3()) == Vec3(k * 0.0, k * 0.0, k * 0.0);
    }
  }

  /** The exact square root of a non-negative number's square is that number. */
  lemma SqrtOfSquare(num: Numerics, s: real)
    requires ExactSqrt(num) && s >= 0.0
    ensures num.sqrt(s * s) == s
  {
    var l := num.sqrt(s * s);
    assert l >= 0.0 && l * l == s * s;
    var d, e := l - s, l + s;
    assert d * e == 0.0;
    if e != 0.0 {
      assert d == (d * e) / e;
    }
  }

  /** A unit vector scaled by a non-negative factor has that factor as its length, and normalises back when the factor is positive. */
  lemma ScaledUnit(num: Numerics, s: real, n: Vec3)
    requires ExactSqrt(num) && Dot3(n, n) == 1.0 && s >= 0.0
    ensures Length(num, Scale3(s, n)) == s
    ensures s > 0.0 ==> Normalize(num, Scale3(s, n)) == n
  {
    var v := Scale3(s, n);
    calc {
      Dot3(v, v);
      (s * n.x) * (s * n.x) + (s * n.y) * (s * n.y) + (s * n.z) * (s * n.z);
      (s * s) * Dot3(n, n);
      s * s;
    }
    SqrtOfSquare(num, s);
    if s > 0.0 {
      assert Scale3(1.0 / s, v) == Vec3((1.0 / s) * (s * n.x), (1.0 / s) * (s * n.y), (1.0 / s) * (s * n.z));
      assert (1.0 / s) * s == 1.0;
    }
  }

  /** The imaginary part of `simd_quatd(angle:axis:)` is the axis scaled by the half-angle sine. */
  lemma FromAngleAxisImag(num: Numerics, angle: real, axis: Vec3)
    ensures Imag(FromAngleAxis(num, angle, axis)) == Scale3(num.sin(angle / 2.0), axis)
    ensures FromAngleAxis(num, angle, axis).vector.w == num.cos(angle / 2.0)
  {
  }

  /**
   * `init(angle:axis:)` reads back: when the half-angle sine is positive
   * (an angle strictly between 0 and 2π), `axis` is the normalised axis that
   * was passed in.
   */
  lemma InitStoresNormalisedAxis(num: Numerics, angle: real, axis: Vec3)
    requires ExactSqrt(num) && Length(num, axis) != 0.0 && num.sin(angle / 2.0) > 0.0
    ensures Axis(num, AngleAxisStorage(num, angle, axis)) == Normalize(num, axis)
  {
    var n := Normalize(num, axis);
    NormalizeUnit(num, axis);
    FromAngleAxisImag(num, angle, n);
    ScaledUnit(num, num.sin(angle / 2.0), n);
  }

  /**
   * The `angle` setter keeps the axis: a quaternion with an axis, rebuilt
   * from a new angle whose half-angle sine is positive and from its own
   * axis, has the same axis.
   */
  lemma SetAngleKeepsAxis(num: Numerics, q: Quat, angle: real)
    requires ExactSqrt(num) && Length(num, Imag(q)) != 0.0 && num.sin(angle / 2.0) > 0.0
    ensures Axis(num, FromAngleAxis(num, angle, Axis(num, q))) == Axis(num, q)
  {
    var n := Axis(num, q);
    NormalizeUnit(num, Imag(q));
    FromAngleAxisImag(num, angle, n);
    ScaledUnit(num, num.sin(angle / 2.0), n);
  }

  /**
   * The half-angle sine and cosine of `simd_angle(q)` give back the length of
   * the imaginary part and the real part, as they do for every unit
   * quaternion, because `simd_angle(q) / 2` is `atan2(|imag|, real)`.
   */
  ghost predicate HalfAngleRecovers(num: Numerics, q: Quat) {
    num.sin(Angle(num, q) / 2.0) == Length(num, Imag(q)) && num.cos(Angle(num, q) / 2.0) == q.vector.w
  }

  /**
   * The `axis` setter keeps the angle: for a quaternion whose angle the
   * trigonometric functions invert, the storage rebuilt about any non-zero
   * new axis has the same `simd_angle`.
   */
  lemma SetAxisKeepsAngle(num: Numerics, q: Quat, axis: Vec3)
    requires ExactSqrt(num) && HalfAngleRecovers(num, q) && Length(num, axis) != 0.0
    ensures Angle(num, AngleAxisStorage(num, Angle(num, q), axis)) == Angle(num, q)
  {
    var n := Normalize(num, axis);
    NormalizeUnit(num, axis);
    var r := AngleAxisStorage(num, Angle(num, q), axis);
    FromAngleAxisImag(num, Angle(num, q), n);
    LengthSquared(num, Imag(q));
    ScaledUnit(num, Length(num, Imag(q)), n);
    assert Length(num, Imag(r)) == Length(num, Imag(q)) && r.vector.w == q.vector.w;
  }

  // ----- the wrappers -----

  /** `CGVector3` (also `Translation`, `Scale` and `Skew`). */
  class CGVector3 {
    var storage: Vec3

    /** `init(x:y:z:)` and `init(_:_:_:)`, with every omitted component 0. */
    constructor (x: real, y: real, z: real)
      ensures storage == Vec3(x, y, z)
    {
      storage := Vec3(x, y, z);
    }

    /** `init(_ vector: simd_double3)` */
    constructor FromStorage(v: Vec3)
      ensures storage == v
    {
      storage := v;
    }

    /** `init(arrayLiteral:)`: elements 0, 1, 2; a shorter literal traps. */
    constructor FromArrayLiteral(elements: seq<real>)
      requires |elements| >= 3
      ensures storage == Vec3(elements[0], elements[1], elements[2])
    {
      storage := Vec3(elements[0], elements[1], elements[2]);
    }

    function X(): real reads this { storage.x }
    function Y(): real reads this { storage.y }
    function Z(): real reads this { storage.z }

    method SetX(a: real)
      modifies this
      ensures storage == old(storage).(x := a)
      ensures X() == a && Y() == old(Y()) && Z() == old(Z())
    {
      storage := storage.(x := a);
    }

    method SetY(a: real)
      modifies this
      ensures storage == old(storage).(y := a)
      ensures Y() == a && X() == old(X()) && Z() == old(Z())
    {
      storage := storage.(y := a);
    }

    method SetZ(a: real)
      modifies this
      ensures storage == old(storage).(z := a)
      ensures Z() == a && X() == old(X()) && Y() == old(Y())
    {
      storage := storage.(z := a);
    }

    /** `==` */
    predicate Equals(other: CGVector3)
      reads this, other
    {
      Close3(storage, other.storage)
    }

    /** `lerp(to:fraction:)`: the storage lerp with the same fraction. */
    method Lerp(to: CGVector3, fraction: real) returns (r: CGVector3)
      ensures fresh(r) && r.storage == Lerp3(storage, to.storage, fraction)
    {
      r := new CGVector3.FromStorage(Lerp3(storage, to.storage, fraction));
    }
  }

  /** `CGVector4` (also `Perspective`). */
  class CGVector4 {
    var storage: Vec4

    /** `init(x:y:z:w:)` and `init(_:_:_:_:)`, with every omitted component 0. */
    constructor (x: real, y: real, z: real, w: real)
      ensures storage == Vec4(x, y, z, w)
    {
      storage := Vec4(x, y, z, w);
    }

    constructor FromStorage(v: Vec4)
      ensures storage == v
    {
      storage := v;
    }

    /** `init(arrayLiteral:)`: elements 0 to 3; a shorter literal traps. */
    constructor FromArrayLiteral(elements: seq<real>)
      requires |elements| >= 4
      ensures storage == Vec4(elements[0], elements[1], elements[2], elements[3])
    {
      storage := Vec4(elements[0], elements[1], elements[2], elements[3]);
    }

    function X(): real reads this { storage.x }
    function Y(): real reads this { storage.y }
    function Z(): real reads this { storage.z }
    function W(): real reads this { storage.w }

    method SetX(a: real)
      modifies this
      ensures storage == old(storage).(x := a)
      ensures X() == a && Y() == old(Y()) && Z() == old(Z()) && W() == old(W())
    {
      storage := storage.(x := a);
    }

    method SetY(a: real)
      modifies this
      ensures storage == old(storage).(y := a)
      ensures Y() == a && X() == old(X()) && Z() == old(Z()) && W() == old(W())
    {
      storage := storage.(y := a);
    }

    method SetZ(a: real)
      modifies this
      ensures storage == old(storage).(z := a)
      ensures Z() == a && X() == old(X()) && Y() == old(Y()) && W() == old(W())
    {
      storage := storage.(z := a);
    }

    method SetW(a: real)
      modifies this
      ensures storage == old(storage).(w := a)
      ensures W() == a && X() == old(X()) && Y() == old(Y()) && Z() == old(Z())
    {
      storage := storage.(w := a);
    }

    predicate Equals(other: CGVector4)
      reads this, other
    {
      Close4(storage, other.storage)
    }

    method Lerp(to: CGVector4, fraction: real) returns (r: CGVector4)
      ensures fresh(r) && r.storage == Lerp4(storage, to.storage, fraction)
    {
      r := new CGVector4.FromStorage(Lerp4(storage, to.storage, fraction));
    }
  }

  /** `CGQuaternion`, a rotation read and written as an angle and an axis. */
  class CGQuaternion {
    var storage: Quat

    /** `init(angle:axis:)`: the axis is normalised before it is stored. */
    constructor (num: Numerics, angle: real, axis: Vec3)
      ensures storage == AngleAxisStorage(num, angle, axis)
      ensures ExactSqrt(num) && Length(num, axis) != 0.0 && num.sin(angle / 2.0) > 0.0 ==> AxisOf(num) == Normalize(num, axis)
    {
      storage := AngleAxisStorage(num, angle, axis);
      if ExactSqrt(num) && Length(num, axis) != 0.0 && num.sin(angle / 2.0) > 0.0 {
        InitStoresNormalisedAxis(num, angle, axis);
      }
    }

    constructor FromStorage(q: Quat)
      ensures storage == q
    {
      storage := q;
    }

    /** `axis`: `simd_axis` of the storage. */
    function AxisOf(num: Numerics): Vec3 reads this { Axis(num, storage) }

    /** `angle`: `simd_angle` of the storage. */
    function AngleOf(num: Numerics): real reads this { Angle(num, storage) }

    /** The `axis` setter: the new axis, normalised, with the current angle. */
    method SetAxis(num: Numerics, axis: Vec3)
      modifies this
      ensures storage == AngleAxisStorage(num, old(AngleOf(num)), axis)
      ensures ExactSqrt(num) && Length(num, axis) != 0.0 && num.sin(old(AngleOf(num)) / 2.0) > 0.0 ==> AxisOf(num) == Normalize(num, axis)
      ensures ExactSqrt(num) && Length(num, axis) != 0.0 && old(HalfAngleRecovers(num, storage)) ==> AngleOf(num) == old(AngleOf(num))
    {
      var q := storage;
      storage := AngleAxisStorage(num, Angle(num, q), axis);
      if ExactSqrt(num) && Length(num, axis) != 0.0 {
        if num.sin(Angle(num, q) / 2.0) > 0.0 {
          InitStoresNormalisedAxis(num, Angle(num, q), axis);
        }
        if HalfAngleRecovers(num, q) {
          SetAxisKeepsAngle(num, q, axis);
        }
      }
    }

    /** The `angle` setter: the new angle about the current axis, which is not normalised again. */
    method SetAngle(num: Numerics, angle: real)
      modifies this
      ensures storage == FromAngleAxis(num, angle, old(AxisOf(num)))
      ensures ExactSqrt(num) && old(Length(num, Imag(storage))) != 0.0 && num.sin(angle / 2.0) > 0.0 ==> AxisOf(num) == old(AxisOf(num))
    {
      var q := storage;
      storage := FromAngleAxis(num, angle, Axis(num, q));
      if ExactSqrt(num) && Length(num, Imag(q)) != 0.0 && num.sin(angle / 2.0) > 0.0 {
        SetAngleKeepsAxis(num, q, angle);
      }
    }

    predicate Equals(num: Numerics, other: CGQuaternion)
      reads this, other
    {
      CloseQuat(num, storage, other.storage)
    }

    /** `lerp(to:fraction:)`: the storage lerp, which is `simd_slerp`. */
    method Lerp(num: Numerics, to: CGQuaternion, fraction: real) returns (r: CGQuaternion)
      ensures fresh(r) && r.storage == QuatLerp(num, storage, to.storage, fraction)
    {
      r := new CGQuaternion.FromStorage(QuatLerp(num, storage, to.storage, fraction));
    }
  }
}
