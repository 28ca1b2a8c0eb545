/**
 * `CATransform3DDecomposed`, the Objective-C facing object: five mutable
 * fields holding the translation, scale, rotation, skew and perspective of
 * a decomposed transform, and a `recomposed()` that rebuilds the transform
 * from them in the same order as the Swift decomposition does. The object
 * has no Euler angles.
 */
module ObjectiveCInterfaces {
  import opened Simd
  import Matrix = SimdDecomposed
  import opened CATransform3DExtensions

  class CATransform3DDecomposed {
    var translation: Vec3
    var scale: Vec3
    var rotation: Quat
    var skew: Vec3
    var perspective: Vec4

    /** The five fields as a decomposition, with zero Euler angles. */
    function Fields(): Matrix.DecomposedTransform
      reads this
    {
      Matrix.DecomposedTransform(translation, scale, rotation, Zero3(), skew, perspective)
    }

    /**
     * `init(with:)`: every field starts at zero and is then overwritten with
     * the matching field of the decomposition of the transform's matrix.
     */
    constructor With(num: Numerics, transform: CATransform3D)
      ensures Fields() == Decomposed(num, transform).(eulerAngles := Zero3())
    {
      translation := Zero3();
      scale := Zero3();
      rotation := Quat(Zero4());
      skew := Zero3();
      perspective := Zero4();
      new;
      var decomposed := Matrix.Decompose(num, MatrixOf(transform));
      translation := decomposed.translation;
      scale := decomposed.scale;
      rotation := decomposed.rotation;
      skew := decomposed.skew;
      perspective := decomposed.perspective;
    }

    /**
     * `recomposed()`: from the identity, apply the perspective, translate,
     * rotate, skew, scale; the same five steps as the engine's `recomposed()`.
     */
    method Recomposed(num: Numerics) returns (r: CATransform3D)
      ensures r == CATransform3DExtensions.Recomposed(num, Fields())
    {
      var recomposed := Matrix.Recompose(num, Fields());
      r := FromMatrix(recomposed);
    }
  }

  /** `decomposeTransform(_:)`: a new object built by `init(with:)`. */
  method DecomposeTransform(num: Numerics, transform: CATransform3D) returns (r: CATransform3DDecomposed)
    ensures fresh(r) && r.Fields() == Decomposed(num, transform).(eulerAngles := Zero3())
  {
    r := new CATransform3DDecomposed.With(num, transform);
  }

  /**
   * Decomposing into the object and recomposing from its untouched fields
   * gives the transform the Swift decomposition recomposes to.
   */
  method RecomposeUntouched(num: Numerics, transform: CATransform3D) returns (r: CATransform3D)
    ensures r == CATransform3DExtensions.Recomposed(num, Decomposed(num, transform))
  {
    var decomposed := DecomposeTransform(num, transform);
    r := decomposed.Recomposed(num);
    RecompositionIgnoresEulerAngles(num, Decomposed(num, transform), Zero3());
  }
}
