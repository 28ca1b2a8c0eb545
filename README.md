# Decomposed, in Dafny

Decomposed takes a 4×4 homogeneous transform apart into a translation, a
scale, a rotation (a quaternion, plus the same rotation as Euler angles), a
skew and a perspective. It builds the transform again from those parts, and
it interpolates between two transforms part by part, so that an animated
transition never shears or squashes mid-way. This project models that engine
and its adapters, and proves properties of them:

- `SimdDecomposed` and `DecompositionProperties` hold the engine on
  `matrix_double4x4`. They cover the elementary builders (translate, scale,
  rotate, skew, apply perspective), the decomposition, its recomposition in
  the fixed order perspective → translate → rotate → skew → scale, and the
  interpolation.
- `CATransform3DExtensions` is the Core Animation adapter. Entry
  `m(i+1)(j+1)` of a `CATransform3D` is entry `[i][j]` of the matrix, so each
  row of the transform is a column of the matrix. The property setters
  decompose, replace one part and recompose.
- `CGFloatVectorTypes` and `CATransform3DConvenienceExtensions` hold the
  `CGFloat`-facing wrappers and their named accessors: `CGVector3`,
  `CGVector4`, `CGQuaternion`, `m14`…`m44` and `XY`, `XZ`, `YZ`.
- `SimdConvenienceExtensions` holds the named accessors on simd vectors and
  the Euler-angle quaternion.
- `Interpolatable` holds the lerps of vectors and quaternions.
- `ObjectiveCInterfaces` holds the Objective-C facing
  `CATransform3DDecomposed` object.
- `LegacyTransformationMatrix`, `LegacyLERPExtensions` and
  `LegacyCATransform3DExtensions` hold the older copy of the engine in
  `CoreAnimationUtils`. The model proves where it agrees with the engine and
  where it does not:
  - it does not test for a missing rotation axis;
  - it stops early at `[3][3] = 0`;
  - it interpolates quaternions linearly;
  - its perspective setter and its `applyingPerspective(m31:…)` are broken.

## Modelling choices

**Scalars.** Scalars are `real`, and a matrix is indexed column first, as
simd does.

**Functions passed as parameters.** Several routines cannot be defined over
the reals: the square root, `sin`, `cos`, `asin`, `atan2`, simd's `inverse`,
the quaternion ↔ rotation-matrix conversions, and `simd_slerp`. They are the
fields of a `Numerics` value that every caller passes in. A property that
depends on one of them names its hypothesis:
- `ExactSqrt`: the true non-negative square root;
- `ExactInverse`: a true inverse of an invertible matrix;
- `SlerpEndpoints`: `simd_slerp` meets its end points;
- `TrigAtZero`: `sin 0 = 0`, `cos 0 = 1`;
- `CGFloatVectorTypes.HalfAngleRecovers(q)`: `sin` and `cos` of half of
  `simd_angle(q)` give back `|imag q|` and `real q`, as they do for every unit
  quaternion;
- `DecompositionProperties.ExactRotations`: the conversions invert each other
  on rotations, and a quaternion without an axis comes from the identity.

**NaN stand-ins.** simd normalises a zero vector, or divides by a zero
scale, into NaNs. The model gives zero instead (`Normalize`, `Quotient`).
`rotate(by:)` skips a quaternion whose axis has a NaN component. `AxisIsNaN`
models that test as "the imaginary part is zero", which is exactly when
simd's axis divides by zero.

**Values and classes.**
- `CATransform3D`, the decompositions and simd vectors are values.
- Each mutating builder updates a matrix or transform variable in place:
  `SimdDecomposed.Matrix4x4`, `CATransform3DExtensions.Transform`.
- The wrappers whose setters rewrite their `storage` are classes:
  `CGVector3`, `CGVector4`, `CGQuaternion` and both `DecomposedTransform`s.
- Each mutating method is specified by the copying function.

**Where the code and its documentation part.** The model follows the code
in two places:
- The `matrix_double4x4` property setters (`translation`, `scale`,
  `rotation`, `eulerAngles`, `skew`, `perspective`, SIMDDecomposed.swift
  lines 42-185) call the mutating builders. They compose with the current
  transform instead of decomposing, replacing and recomposing. They are the
  methods of `Matrix4x4`. Only the `CATransform3D` setters decompose and
  recompose.
- The perspective of a decomposition defaults to all zeros, not
  `(0, 0, 0, 1)`. The decomposition of a degenerate matrix therefore has a
  zero perspective.

## Model

| member | source | states |
|---|---|---|
| Simd.NormalizeUnit | Sources/Decomposed/SIMDDecomposed.swift:299-300 | with an exact square root, `normalize` of a vector of non-zero length has unit length |
| Interpolatable.Lerp2 | Sources/Decomposed/Interpolatable.swift:38-40 | each component of the result is `(1 - t)·a + t·b` |
| Interpolatable.Lerp3 | Sources/Decomposed/Interpolatable.swift:46-48 | each component of the result is `(1 - t)·a + t·b` |
| Interpolatable.Lerp4 | Sources/Decomposed/Interpolatable.swift:54-56 | each component of the result is `(1 - t)·a + t·b` |
| Interpolatable.QuatLerp | Sources/Decomposed/Interpolatable.swift:70-72 | when `simd_slerp` meets its end points, fraction 0 gives the start quaternion and fraction 1 the end |
| Interpolatable.LerpEndpoints | Sources/Decomposed/Interpolatable.swift:54-56 | the four-vector lerp gives `a` at 0 and `b` at 1 |
| Interpolatable.Lerp3Endpoints | Sources/Decomposed/Interpolatable.swift:46-48 | the three-vector lerp gives `a` at 0 and `b` at 1 |
| Interpolatable.Lerp2Endpoints | Sources/Decomposed/Interpolatable.swift:38-40 | the two-vector lerp gives `a` at 0 and `b` at 1 |
| Interpolatable.LerpConstant | Sources/Decomposed/Interpolatable.swift:54-56 | interpolating a value with itself gives it back for every fraction |
| Interpolatable.LerpExtrapolates | Sources/Decomposed/Interpolatable.swift:17-25 | the fraction is not clamped: a step `u` of the fraction always moves the result by `u·(b - a)`, also past 1 |
| Interpolatable.LerpHalfway | Sources/Decomposed/Interpolatable.swift:54-56 | half-way between `(1, 10, 100, 1000)` and its double is `(1.5, 15, 150, 1500)` |
| SimdConvenienceExtensions.PerspectiveInit | Sources/Decomposed/SIMDConvenienceExtensions.swift:34-36 | `SIMD4(m31:m32:m33:m34:)` stores its arguments at positions 0, 1, 2, 3 |
| SimdConvenienceExtensions.M31 | Sources/Decomposed/SIMDConvenienceExtensions.swift:14-17 | the `m31` getter, element 0; PerspectiveAccessorsShareSlot relates it to the other three |
| SimdConvenienceExtensions.M32 | Sources/Decomposed/SIMDConvenienceExtensions.swift:19-22 | the `m32` getter as written, element 0; PerspectiveInitRoundTripFails shows it does not read back its argument |
| SimdConvenienceExtensions.M33 | Sources/Decomposed/SIMDConvenienceExtensions.swift:24-27 | the `m33` getter as written, element 0; PerspectiveAccessorsShareSlot |
| SimdConvenienceExtensions.M34 | Sources/Decomposed/SIMDConvenienceExtensions.swift:29-32 | the `m34` getter as written, element 0; PerspectiveAccessorsShareSlot |
| SimdConvenienceExtensions.SetM31 | Sources/Decomposed/SIMDConvenienceExtensions.swift:14-17 | the `m31` setter, element 0; PerspectiveAccessorsShareSlot states what all four getters then read |
| SimdConvenienceExtensions.SetM32 | Sources/Decomposed/SIMDConvenienceExtensions.swift:19-22 | the `m32` setter as written, element 0; PerspectiveAccessorsShareSlot, against CorrectedSetM32 |
| SimdConvenienceExtensions.SetM33 | Sources/Decomposed/SIMDConvenienceExtensions.swift:24-27 | the `m33` setter as written, element 0; PerspectiveAccessorsShareSlot, against CorrectedSetM33 |
| SimdConvenienceExtensions.SetM34 | Sources/Decomposed/SIMDConvenienceExtensions.swift:29-32 | the `m34` setter as written, element 0; PerspectiveAccessorsShareSlot, against CorrectedSetM34 |
| SimdConvenienceExtensions.PerspectiveAccessorsShareSlot | Sources/Decomposed/SIMDConvenienceExtensions.swift:14-32 | after any of the four setters, all four getters return the value written, and elements 1 to 3 keep their values |
| SimdConvenienceExtensions.PerspectiveInitRoundTripFails | Sources/Decomposed/SIMDConvenienceExtensions.swift:19-36 | `m32` of `SIMD4(m31: 1, m32: 2, m33: 3, m34: 4)` reads 1, not 2 |
| SimdConvenienceExtensions.CorrectedSetM32 | Sources/Decomposed/SIMDConvenienceExtensions.swift:19-22 | the corrected `m32` setter writes element 1 and leaves the other three entries |
| SimdConvenienceExtensions.CorrectedSetM33 | Sources/Decomposed/SIMDConvenienceExtensions.swift:24-27 | the corrected `m33` setter writes element 2 and leaves the other three entries |
| SimdConvenienceExtensions.CorrectedSetM34 | Sources/Decomposed/SIMDConvenienceExtensions.swift:29-32 | the corrected `m34` setter writes element 3 and leaves the other three entries |
| SimdConvenienceExtensions.CorrectedPerspectiveRoundTrip | Sources/Decomposed/SIMDConvenienceExtensions.swift:14-36 | with the corrected getters, every argument of the initialiser reads back |
| SimdConvenienceExtensions.SetXY | Sources/Decomposed/SIMDConvenienceExtensions.swift:44-47 | the `xy` setter changes `xy` alone; `xz` and `yz` keep their values |
| SimdConvenienceExtensions.SetXZ | Sources/Decomposed/SIMDConvenienceExtensions.swift:49-52 | the `xz` setter changes `xz` alone |
| SimdConvenienceExtensions.SetYZ | Sources/Decomposed/SIMDConvenienceExtensions.swift:54-57 | the `yz` setter changes `yz` alone |
| SimdConvenienceExtensions.XY | Sources/Decomposed/SIMDConvenienceExtensions.swift:44-47 | the `xy` getter, element 0; SetXY and SkewInit read it back |
| SimdConvenienceExtensions.XZ | Sources/Decomposed/SIMDConvenienceExtensions.swift:49-52 | the `xz` getter, element 1; SetXZ and SkewInit read it back |
| SimdConvenienceExtensions.YZ | Sources/Decomposed/SIMDConvenienceExtensions.swift:54-57 | the `yz` getter, element 2; SetYZ and SkewInit read it back |
| SimdConvenienceExtensions.QuatFromEuler | Sources/Decomposed/SIMDConvenienceExtensions.swift:140-155 | `simd_quatd(eulerAngles)`, the half-angle formula; QuatFromZeroEuler and QuatFromEulerX, Y, Z state it for zero angles and for each axis alone |
| SimdConvenienceExtensions.SkewInit | Sources/Decomposed/SIMDConvenienceExtensions.swift:59-61 | `SIMD3(xy:xz:yz:)` stores positionally, and the three getters read each argument back |
| SimdConvenienceExtensions.QuatFromZeroEuler | Sources/Decomposed/SIMDConvenienceExtensions.swift:140-155 | zero Euler angles give the identity quaternion `(0, 0, 0, 1)` |
| SimdConvenienceExtensions.QuatFromEulerX | Sources/Decomposed/SIMDConvenienceExtensions.swift:140-155 | an angle about x alone gives the angle-axis quaternion about `(1, 0, 0)` |
| SimdConvenienceExtensions.QuatFromEulerY | Sources/Decomposed/SIMDConvenienceExtensions.swift:140-155 | an angle about y alone gives the angle-axis quaternion about `(0, 1, 0)` |
| SimdConvenienceExtensions.QuatFromEulerZ | Sources/Decomposed/SIMDConvenienceExtensions.swift:140-155 | an angle about z alone gives the angle-axis quaternion about `(0, 0, 1)` |
| CATransform3DConvenienceExtensions.SetM14 | Sources/Decomposed/CATransform3DConvenienceExtensions.swift:22-25 | the `m14` setter writes storage index 0; `m24`, `m34`, `m44` are unchanged |
| CATransform3DConvenienceExtensions.SetM24 | Sources/Decomposed/CATransform3DConvenienceExtensions.swift:27-30 | the `m24` setter writes storage index 1; the other three are unchanged |
| CATransform3DConvenienceExtensions.SetM34 | Sources/Decomposed/CATransform3DConvenienceExtensions.swift:32-35 | the `m34` setter writes storage index 2; the other three are unchanged |
| CATransform3DConvenienceExtensions.SetM44 | Sources/Decomposed/CATransform3DConvenienceExtensions.swift:37-40 | the `m44` setter writes storage index 3; the other three are unchanged |
| CATransform3DConvenienceExtensions.M14 | Sources/Decomposed/CATransform3DConvenienceExtensions.swift:22-25 | the `m14` getter, storage index 0; SetM14 and PerspectiveInit read it back |
| CATransform3DConvenienceExtensions.M24 | Sources/Decomposed/CATransform3DConvenienceExtensions.swift:27-30 | the `m24` getter, storage index 1; SetM24 reads it back |
| CATransform3DConvenienceExtensions.M34 | Sources/Decomposed/CATransform3DConvenienceExtensions.swift:32-35 | the `m34` getter, storage index 2; SetM34 reads it back |
| CATransform3DConvenienceExtensions.M44 | Sources/Decomposed/CATransform3DConvenienceExtensions.swift:37-40 | the `m44` getter, storage index 3; SetM44 and CorrectedFloatPerspectiveInitReadsBack read it back |
| CATransform3DConvenienceExtensions.PerspectiveInit | Sources/Decomposed/CATransform3DConvenienceExtensions.swift:42-48 | each argument lands at its own index; an omitted one comes from `(0, 0, 0, 1)` |
| CATransform3DConvenienceExtensions.PerspectiveInitDefaultIsNeutral | Sources/Decomposed/CATransform3DConvenienceExtensions.swift:42-44 | with every argument omitted, applying the perspective keeps the identity |
| CATransform3DConvenienceExtensions.FloatPerspectiveInit | Sources/Decomposed/CATransform3DConvenienceExtensions.swift:50-52 | the `Float` overload as written: indices 0 to 2 as given, and index 3 equals index 2 |
| CATransform3DConvenienceExtensions.FloatPerspectiveInitIgnoresM44 | Sources/Decomposed/CATransform3DConvenienceExtensions.swift:50-52 | `m34: -0.002` gives `-0.002` at index 3, where the other overloads give 1; the default perspective zeroes `[3][3]` of the identity |
| CATransform3DConvenienceExtensions.CorrectedFloatPerspectiveInit | Sources/Decomposed/CATransform3DConvenienceExtensions.swift:50-52 | the corrected `Float` overload builds the same storage as the other overloads |
| CATransform3DConvenienceExtensions.CorrectedFloatPerspectiveInitReadsBack | Sources/Decomposed/CATransform3DConvenienceExtensions.swift:50-52 | every argument of the corrected overload reads back, and omitting them all keeps the identity |
| CATransform3DConvenienceExtensions.SetXYOf | Sources/Decomposed/CATransform3DConvenienceExtensions.swift:60-63 | the `XY` setter writes storage index 0; `XZ` and `YZ` are unchanged |
| CATransform3DConvenienceExtensions.SetXZOf | Sources/Decomposed/CATransform3DConvenienceExtensions.swift:65-68 | the `XZ` setter writes storage index 1; the other two are unchanged |
| CATransform3DConvenienceExtensions.SetYZOf | Sources/Decomposed/CATransform3DConvenienceExtensions.swift:70-73 | the `YZ` setter writes storage index 2; the other two are unchanged |
| CATransform3DConvenienceExtensions.XYOf | Sources/Decomposed/CATransform3DConvenienceExtensions.swift:60-63 | the `XY` getter, storage index 0; SetXYOf reads it back |
| CATransform3DConvenienceExtensions.XZOf | Sources/Decomposed/CATransform3DConvenienceExtensions.swift:65-68 | the `XZ` getter, storage index 1; SetXZOf reads it back |
| CATransform3DConvenienceExtensions.YZOf | Sources/Decomposed/CATransform3DConvenienceExtensions.swift:70-73 | the `YZ` getter, storage index 2; SetYZOf reads it back |
| CATransform3DConvenienceExtensions.SkewVectorInit | Sources/Decomposed/CATransform3DConvenienceExtensions.swift:75-85 | each skew component lands at its own index; an omitted one is 0 |
| CATransform3DConvenienceExtensions.SkewVectorInitDefaultIsNeutral | Sources/Decomposed/CATransform3DConvenienceExtensions.swift:75-77 | with every component omitted, skewing by the result leaves any matrix unchanged |
| CGFloatVectorTypes.Close3Bounds | Sources/Decomposed/CGFloatVectorTypes.swift:239-247 | `CGVector3 ==` holds exactly when every difference lies strictly between -0.0001 and 0.0001 |
| CGFloatVectorTypes.Close4Bounds | Sources/Decomposed/CGFloatVectorTypes.swift:251-258 | the same for `CGVector4 ==` over four components |
| CGFloatVectorTypes.CloseReflexive | Sources/Decomposed/CGFloatVectorTypes.swift:241-267 | the three tolerance equalities are reflexive |
| CGFloatVectorTypes.CloseSymmetric | Sources/Decomposed/CGFloatVectorTypes.swift:241-267 | the three tolerance equalities are symmetric |
| CGFloatVectorTypes.Close3NotTransitive | Sources/Decomposed/CGFloatVectorTypes.swift:241-247 | they are not transitive: 0 ≈ 0.00006 ≈ 0.00012, but 0 is not ≈ 0.00012 |
| CGFloatVectorTypes.AngleAxisStoresUnitAxis | Sources/Decomposed/CGFloatVectorTypes.swift:185-187 | for a non-zero axis, the stored quaternion has imaginary length `|sin(angle/2)|` and real part `cos(angle/2)` |
| CGFloatVectorTypes.ZeroAxisStorage | Sources/Decomposed/CGFloatVectorTypes.swift:185-187 | a zero axis stores a quaternion with zero imaginary part, whatever the angle |
| CGFloatVectorTypes.InitStoresNormalisedAxis | Sources/Decomposed/CGFloatVectorTypes.swift:185-187 | `init(angle:axis:)` reads back: with an exact square root, a non-zero axis and `sin(angle/2) > 0`, `simd_axis` of the storage is the normalised axis |
| CGFloatVectorTypes.SetAngleKeepsAxis | Sources/Decomposed/CGFloatVectorTypes.swift:174-177 | the `angle` setter keeps the axis: a quaternion with an axis, rebuilt from a new angle with `sin(angle/2) > 0` and its own axis, has the same `simd_axis` |
| CGFloatVectorTypes.SetAxisKeepsAngle | Sources/Decomposed/CGFloatVectorTypes.swift:169-172 | the `axis` setter keeps the angle: when `sin` and `cos` of half of `simd_angle(q)` give back `|imag q|` and `real q`, as for every unit quaternion, the storage rebuilt about any non-zero axis has the same `simd_angle` |
| CGFloatVectorTypes.Close3 | Sources/Decomposed/CGFloatVectorTypes.swift:241-247 | `CGVector3 ==`; Close3Bounds states it exactly, and CloseReflexive, CloseSymmetric and Close3NotTransitive state what kind of relation it is |
| CGFloatVectorTypes.Close4 | Sources/Decomposed/CGFloatVectorTypes.swift:251-258 | `CGVector4 ==`; Close4Bounds states it exactly |
| CGFloatVectorTypes.CloseQuat | Sources/Decomposed/CGFloatVectorTypes.swift:262-267 | `CGQuaternion ==`: the axes close as `CGVector3`s and the angles within the tolerance; reflexive and symmetric by CloseReflexive and CloseSymmetric |
| CGFloatVectorTypes.AngleAxisStorage | Sources/Decomposed/CGFloatVectorTypes.swift:185-187 | the storage of `init(angle:axis:)`; AngleAxisStoresUnitAxis, ZeroAxisStorage and InitStoresNormalisedAxis state what it holds |
| CGFloatVectorTypes.CGVector3.constructor | Sources/Decomposed/CGFloatVectorTypes.swift:37-47 | the storage is `(x, y, z)` |
| CGFloatVectorTypes.CGVector3.FromStorage | Sources/Decomposed/CGFloatVectorTypes.swift:49-51 | the storage is the given simd vector |
| CGFloatVectorTypes.CGVector3.FromArrayLiteral | Sources/Decomposed/CGFloatVectorTypes.swift:63-65 | elements 0, 1, 2 become `x`, `y`, `z`; a literal shorter than three is outside the contract |
| CGFloatVectorTypes.CGVector3.SetX | Sources/Decomposed/CGFloatVectorTypes.swift:22-25 | `x` becomes the new value; `y` and `z` are unchanged |
| CGFloatVectorTypes.CGVector3.SetY | Sources/Decomposed/CGFloatVectorTypes.swift:27-30 | `y` becomes the new value; `x` and `z` are unchanged |
| CGFloatVectorTypes.CGVector3.SetZ | Sources/Decomposed/CGFloatVectorTypes.swift:32-35 | `z` becomes the new value; `x` and `y` are unchanged |
| CGFloatVectorTypes.CGVector3.Lerp | Sources/Decomposed/CGFloatVectorTypes.swift:215-217 | a fresh vector whose storage is the storage lerp with the same fraction |
| CGFloatVectorTypes.CGVector3.Equals | Sources/Decomposed/CGFloatVectorTypes.swift:241-247 | `==` on two wrappers is `Close3` of their storages |
| CGFloatVectorTypes.CGVector4.constructor | Sources/Decomposed/CGFloatVectorTypes.swift:113-123 | the storage is `(x, y, z, w)` |
| CGFloatVectorTypes.CGVector4.FromStorage | Sources/Decomposed/CGFloatVectorTypes.swift:125-127 | the storage is the given simd vector |
| CGFloatVectorTypes.CGVector4.FromArrayLiteral | Sources/Decomposed/CGFloatVectorTypes.swift:139-141 | elements 0 to 3 become `x`, `y`, `z`, `w` |
| CGFloatVectorTypes.CGVector4.SetX | Sources/Decomposed/CGFloatVectorTypes.swift:93-96 | `x` becomes the new value; the other three are unchanged |
| CGFloatVectorTypes.CGVector4.SetY | Sources/Decomposed/CGFloatVectorTypes.swift:98-101 | `y` becomes the new value; the other three are unchanged |
| CGFloatVectorTypes.CGVector4.SetZ | Sources/Decomposed/CGFloatVectorTypes.swift:103-106 | `z` becomes the new value; the other three are unchanged |
| CGFloatVectorTypes.CGVector4.SetW | Sources/Decomposed/CGFloatVectorTypes.swift:108-111 | `w` becomes the new value; the other three are unchanged |
| CGFloatVectorTypes.CGVector4.Lerp | Sources/Decomposed/CGFloatVectorTypes.swift:223-225 | a fresh vector whose storage is the storage lerp |
| CGFloatVectorTypes.CGVector4.Equals | Sources/Decomposed/CGFloatVectorTypes.swift:251-258 | `==` on two wrappers is `Close4` of their storages |
| CGFloatVectorTypes.CGQuaternion.constructor | Sources/Decomposed/CGFloatVectorTypes.swift:185-187 | the storage is the angle-axis quaternion of the normalised axis, and, with an exact square root, a non-zero axis and a positive half-angle sine, `axis` reads back the normalised axis |
| CGFloatVectorTypes.CGQuaternion.FromStorage | Sources/Decomposed/CGFloatVectorTypes.swift:189-191 | the storage is the given quaternion |
| CGFloatVectorTypes.CGQuaternion.SetAxis | Sources/Decomposed/CGFloatVectorTypes.swift:169-172 | the new storage is the previous angle about the new axis, normalised; with an exact square root and a non-zero axis, `axis` reads back the normalised new axis when the half-angle sine is positive, and `angle` reads back unchanged when the half-angle functions invert `simd_angle` on the previous storage |
| CGFloatVectorTypes.CGQuaternion.SetAngle | Sources/Decomposed/CGFloatVectorTypes.swift:174-177 | the new storage is the new angle about the previous axis; with an exact square root, a previous axis and a positive half-angle sine, `axis` reads back unchanged |
| CGFloatVectorTypes.CGQuaternion.Lerp | Sources/Decomposed/CGFloatVectorTypes.swift:231-233 | a fresh quaternion whose storage is the spherical lerp of the two storages |
| CGFloatVectorTypes.CGQuaternion.AxisOf | Sources/Decomposed/CGFloatVectorTypes.swift:169-170 | the `axis` getter, `simd_axis` of the storage; read back by the constructor, SetAxis and SetAngle contracts |
| CGFloatVectorTypes.CGQuaternion.AngleOf | Sources/Decomposed/CGFloatVectorTypes.swift:174-175 | the `angle` getter, `simd_angle` of the storage; read back by the SetAxis contract |
| CGFloatVectorTypes.CGQuaternion.Equals | Sources/Decomposed/CGFloatVectorTypes.swift:262-267 | `==` on two wrappers is `CloseQuat` of their storages |
| SimdDecomposed.Rotated | Sources/Decomposed/SIMDDecomposed.swift:101-114 | a quaternion whose axis is NaN leaves the matrix as it is |
| SimdDecomposed.ApplyingPerspective | Sources/Decomposed/SIMDDecomposed.swift:188-200 | row 3 becomes `p`; the first three entries of every column are kept |
| SimdDecomposed.Translated | Sources/Decomposed/SIMDDecomposed.swift:53-64 | `translated(by:)`, the product with the translation matrix; TranslatedColumns states its columns |
| SimdDecomposed.Scaled | Sources/Decomposed/SIMDDecomposed.swift:77-88 | `scaled(by:)`, columns 0 to 2 times the components; ScaledIsProduct equates it with the product by the diagonal scale matrix |
| SimdDecomposed.Skewed | Sources/Decomposed/SIMDDecomposed.swift:150-175 | `skewed(by:)`, the three zero-skipping shear products; SkewedColumns states its columns and SkewedByZero its neutral element |
| SimdDecomposed.RotatedEuler | Sources/Decomposed/SIMDDecomposed.swift:127-137 | `rotated(by: eulerAngles)`, the rotation by the Euler quaternion; RotatedByZeroEuler states that zero angles keep the matrix |
| SimdDecomposed.Default | Sources/Decomposed/SIMDDecomposed.swift:214-235 | the field defaults of `DecomposedTransform`, all zeros, the quaternion included; Decomposition returns it for a degenerate matrix |
| SimdDecomposed.Matrix4x4.constructor | Sources/Decomposed/SIMDDecomposed.swift:54 | a matrix variable holding the given matrix |
| SimdDecomposed.Matrix4x4.Assign | Sources/Decomposed/SIMDDecomposed.swift:63 | after `self = m` the variable holds `m` |
| SimdDecomposed.Matrix4x4.Translate | Sources/Decomposed/SIMDDecomposed.swift:60-64 | the new value is `translated(by:)` of the old one |
| SimdDecomposed.Matrix4x4.Scale | Sources/Decomposed/SIMDDecomposed.swift:84-88 | the new value is `scaled(by:)` of the old one |
| SimdDecomposed.Matrix4x4.Rotate | Sources/Decomposed/SIMDDecomposed.swift:108-114 | the new value is `rotated(by:)` of the old one, including the early return |
| SimdDecomposed.Matrix4x4.RotateEuler | Sources/Decomposed/SIMDDecomposed.swift:134-137 | the new value is the old one rotated by the quaternion of the Euler angles |
| SimdDecomposed.Matrix4x4.Skew | Sources/Decomposed/SIMDDecomposed.swift:157-175 | the new value is `skewed(by:)` of the old one: the `yz`, `xz` and `xy` shears in that order, each only when non-zero |
| SimdDecomposed.Matrix4x4.ApplyPerspective | Sources/Decomposed/SIMDDecomposed.swift:195-200 | the new value is `applyingPerspective` of the old one |
| SimdDecomposed.TranslatedColumns | Sources/Decomposed/SIMDDecomposed.swift:53-64 | translating keeps columns 0 to 2 and makes column 3 `t.x·c0 + t.y·c1 + t.z·c2 + c3` |
| SimdDecomposed.ScaledIsProduct | Sources/Decomposed/SIMDDecomposed.swift:77-88 | scaling column by column equals right-multiplying by the diagonal scale matrix |
| SimdDecomposed.SkewedColumns | Sources/Decomposed/SIMDDecomposed.swift:150-175 | skewing adds `xy·c0` to column 1 and `yz·c1 + xz·c0` to column 2, all from the original columns; columns 0 and 3 are kept |
| SimdDecomposed.SkewedByZero | Sources/Decomposed/SIMDDecomposed.swift:157-175 | a zero skew changes nothing |
| SimdDecomposed.ApplyingPerspectiveTwice | Sources/Decomposed/SIMDDecomposed.swift:188-200 | applying two perspectives in turn keeps only the second |
| SimdDecomposed.RotatedByZeroEuler | Sources/Decomposed/SIMDDecomposed.swift:127-137 | zero Euler angles leave the matrix as it is |
| SimdDecomposed.WithEulerAngles | Sources/Decomposed/SIMDDecomposed.swift:225-229 | assigning `eulerAngles` also sets `rotation` to their quaternion; the other fields are kept |
| SimdDecomposed.Normalized | Sources/Decomposed/SIMDDecomposed.swift:259-262 | when `[3][3]` is non-zero, the normalised matrix has `[3][3] = 1` |
| SimdDecomposed.LinearCombination | Sources/Decomposed/SIMDDecomposed.swift:680-682 | `simd_linear_combination(as, a, bs, b)` is the vector `as·a + bs·b` |
| SimdDecomposed.Decomposition | Sources/Decomposed/SIMDDecomposed.swift:256-338 | a singular perspective block gives every default; otherwise the translation is column 3 of the normalised matrix, and with no perspective entries the perspective is `(0, 0, 0, 1)` |
| SimdDecomposed.Decompose | Sources/Decomposed/SIMDDecomposed.swift:256-338 | the initialiser, statement by statement, computes `Decomposition` |
| SimdDecomposed.DecomposeRotationLocal | Sources/Decomposed/SIMDDecomposed.swift:292-337 | scale, skew, Euler angles and quaternion are those of the reflected Gram-Schmidt pass over the upper block |
| SimdDecomposed.GramSchmidtPass | Sources/Decomposed/SIMDDecomposed.swift:292-317 | the statement-by-statement pass computes the orthonormalised columns, the scale and the skew of `GramSchmidt` |
| SimdDecomposed.GramSchmidt | Sources/Decomposed/SIMDDecomposed.swift:292-317 | scale, skew and orthonormalised columns of the upper block; GramSchmidtOrthonormal and GramSchmidtFactors state that the columns are orthonormal and rebuild the block |
| SimdDecomposed.Reflected | Sources/Decomposed/SIMDDecomposed.swift:319-325 | the flip of a negative determinant; ReflectedDeterminant, ReflectedFactors and ReflectedOrthonormal state what it establishes and keeps |
| SimdDecomposed.EulerAngles | Sources/Decomposed/SIMDDecomposed.swift:327-335 | the Euler angles of the orthonormal columns, with `z = 0` in gimbal lock; computed statement by statement by EulerAnglesOf |
| SimdDecomposed.SolvedPerspective | Sources/Decomposed/SIMDDecomposed.swift:272-276 | the perspective solved through the inverse transpose; PerspectiveSolves states that it solves the system |
| SimdDecomposed.FlipReflection | Sources/Decomposed/SIMDDecomposed.swift:319-325 | the flip negates the scale and the columns exactly when the determinant is negative |
| SimdDecomposed.EulerAnglesOf | Sources/Decomposed/SIMDDecomposed.swift:327-335 | the Euler angles, with `z = 0` in gimbal lock |
| SimdDecomposed.Recompose | Sources/Decomposed/SIMDDecomposed.swift:341-351 | five mutating calls on a local identity compute `Recomposition` (perspective, translate, rotate, skew, scale) |
| SimdDecomposed.ApplyAfterPerspective | Sources/Decomposed/SIMDDecomposed.swift:345-348 | the four calls after the perspective compose translate, rotate, skew and scale on the variable |
| SimdDecomposed.Recomposition | Sources/Decomposed/SIMDDecomposed.swift:341-351 | `recomposed()`: perspective, translate, rotate, skew, scale from the identity; RecompositionAffine states its shape and RecomposeDecomposeRoundTrip that it inverts the decomposition |
| SimdDecomposed.Lerp | Sources/Decomposed/SIMDDecomposed.swift:359-366 | when `simd_slerp` meets its end points, fraction 0 gives the first decomposition and 1 the second |
| SimdDecomposed.MatrixLerpAtZero | Sources/Decomposed/SIMDDecomposed.swift:372-374 | fraction 0 of the matrix lerp gives the recomposed decomposition of the first matrix |
| SimdDecomposed.MatrixLerpAtOne | Sources/Decomposed/SIMDDecomposed.swift:372-374 | fraction 1 gives the recomposed decomposition of the second matrix |
| SimdDecomposed.MatrixLerp | Sources/Decomposed/SIMDDecomposed.swift:370-374 | the matrix `lerp(to:fraction:)` through the decompositions; MatrixLerpAtZero, MatrixLerpAtOne and MatrixLerpEndpoints state its end points |
| DecompositionProperties.ProjectionRemoved | Sources/Decomposed/SIMDDecomposed.swift:302-303 | subtracting the component along a unit column leaves a vector orthogonal to it |
| DecompositionProperties.NormalizeRescales | Sources/Decomposed/SIMDDecomposed.swift:299-300 | a column of non-zero length is its length times its normalisation |
| DecompositionProperties.NormalizeKeepsOrthogonal | Sources/Decomposed/SIMDDecomposed.swift:305-306 | normalising keeps a column orthogonal to the earlier ones |
| DecompositionProperties.GramSchmidtOrthonormal | Sources/Decomposed/SIMDDecomposed.swift:299-317 | with an exact square root and non-zero scales, the three columns come out orthonormal |
| DecompositionProperties.GramSchmidtFactors | Sources/Decomposed/SIMDDecomposed.swift:299-317 | with non-zero scales, the orthonormal columns times the skew times the scale rebuild the upper block |
| DecompositionProperties.ReflectedDeterminant | Sources/Decomposed/SIMDDecomposed.swift:319-325 | after the flip, the determinant of the columns is non-negative |
| DecompositionProperties.ReflectedFactors | Sources/Decomposed/SIMDDecomposed.swift:319-325 | the flip keeps the skew, the rebuilt upper block and whether the scales are non-zero |
| DecompositionProperties.ReflectedOrthonormal | Sources/Decomposed/SIMDDecomposed.swift:319-325 | the flip keeps orthonormal columns orthonormal |
| DecompositionProperties.PerspectiveSolves | Sources/Decomposed/SIMDDecomposed.swift:273-276 | with a true inverse, the solved perspective satisfies `Pᵀ·perspective = (m[0][3], m[1][3], m[2][3], m[3][3])` |
| DecompositionProperties.NormalizedIdempotent | Sources/Decomposed/SIMDDecomposed.swift:259-262 | normalising twice is normalising once |
| DecompositionProperties.NormalizedByOne | Sources/Decomposed/SIMDDecomposed.swift:259-262 | a matrix with `[3][3] = 1` is its own normalisation |
| DecompositionProperties.AffineNormalized | Sources/Decomposed/SIMDDecomposed.swift:259-262 | a matrix with row 3 `(0, 0, 0, w)`, `w ≠ 0`, normalises to an affine matrix with no perspective entries |
| DecompositionProperties.TranslatedIdentity | Sources/Decomposed/SIMDDecomposed.swift:60-64 | translating the identity gives the pure translation |
| DecompositionProperties.TranslationTimes | Sources/Decomposed/SIMDDecomposed.swift:60-64 | a pure translation moves a point by `w·t` and leaves a direction alone |
| DecompositionProperties.RotatedTranslation | Sources/Decomposed/SIMDDecomposed.swift:108-114 | rotating a pure translation puts the rotation into the upper block and keeps the translation |
| DecompositionProperties.NoPerspectiveIdentity | Sources/Decomposed/SIMDDecomposed.swift:195-200 | the perspective `(0, 0, 0, 1)` leaves the identity alone |
| DecompositionProperties.RecompositionAffine | Sources/Decomposed/SIMDDecomposed.swift:341-351 | without perspective, the recomposition is affine, with upper block rotation × skew × scale and the translation in column 3 |
| DecompositionProperties.DecompositionFactors | Sources/Decomposed/SIMDDecomposed.swift:292-325 | the parts the decomposition keeps rebuild the upper block, and the rotation kept is orthonormal with a non-negative determinant |
| DecompositionProperties.RecomposeDecomposeRoundTrip | Sources/Decomposed/SIMDDecomposed.swift:256-351 | recomposing the decomposition of a non-degenerate affine matrix with non-zero scales gives back the normalised matrix |
| DecompositionProperties.MatrixLerpEndpoints | Sources/Decomposed/SIMDDecomposed.swift:370-374 | between such matrices, the matrix lerp gives the first normalised matrix at 0 and the second at 1 |
| DecompositionProperties.RecompositionTranslationColumn | Sources/Decomposed/SIMDDecomposed.swift:341-351 | without perspective, column 3 of the recomposition is `(translation, 1)` |
| DecompositionProperties.RecompositionWithoutPerspective | Sources/Decomposed/SIMDDecomposed.swift:344-345 | without perspective, the recomposition starts from the pure translation |
| DecompositionProperties.DecompositionTranslation | Sources/Decomposed/SIMDDecomposed.swift:286-287 | a non-degenerate matrix with `[3][3] = 1` decomposes with column 3 as its translation |
| DecompositionProperties.TranslationOfColumn | Sources/Decomposed/SIMDDecomposed.swift:286-287 | a non-degenerate matrix with column 3 `(t, 1)` has translation `t` |
| DecompositionProperties.TranslationReadsBack | Sources/Decomposed/SIMDDecomposed.swift:286-351 | without perspective, and with a rotation matrix that fixes the origin, the recomposed translation decomposes back to itself |
| DecompositionProperties.TranslationReadsBackWithoutRotation | Sources/Decomposed/SIMDDecomposed.swift:108-111 | the same when the rotation is skipped for a missing axis |
| CATransform3DExtensions.MatrixOf | Sources/Decomposed/SIMDDecomposed.swift:28-35 | column `i` of the matrix is row `i + 1` of the transform |
| CATransform3DExtensions.FromMatrix | Sources/Decomposed/CATransform3DExtensions.swift:24-45 | converting the transform back to a matrix gives the same matrix |
| CATransform3DExtensions.TransformRoundTrip | Sources/Decomposed/CATransform3DExtensions.swift:24-45 | converting a transform to a matrix and back gives every entry back |
| CATransform3DExtensions.IdentityTransform | Sources/Decomposed/CATransform3DExtensions.swift:14-16 | its matrix is the identity matrix |
| CATransform3DExtensions.ZeroTransform | Sources/Decomposed/CATransform3DExtensions.swift:19-21 | all four rows are zero |
| CATransform3DExtensions.Decomposed | Sources/Decomposed/CATransform3DExtensions.swift:76-78 | `_decomposed()`, the engine decomposition of the transform's matrix; RecomposedDecomposedAffine states that it recomposes to the transform |
| CATransform3DExtensions.Recomposed | Sources/Decomposed/CATransform3DExtensions.swift:384-386 | the recomposed engine matrix as a transform; RecomposedDecomposedAffine |
| CATransform3DExtensions.WithTranslation | Sources/Decomposed/CATransform3DExtensions.swift:85-94 | the `translation` setter: decompose, replace, recompose; TranslationSetterReadsBack states that the value reads back and SettersAtCurrentValue that the current value changes nothing |
| CATransform3DExtensions.WithScale | Sources/Decomposed/CATransform3DExtensions.swift:135-144 | the `scale` setter; SettersAtCurrentValue |
| CATransform3DExtensions.WithRotation | Sources/Decomposed/CATransform3DExtensions.swift:180-189 | the `rotation` setter; SettersAtCurrentValue |
| CATransform3DExtensions.WithEulerAngles | Sources/Decomposed/CATransform3DExtensions.swift:213-222 | the `eulerAngles` setter; EulerAnglesSetterRotates states that it is the `rotation` setter given the Euler quaternion |
| CATransform3DExtensions.WithSkew | Sources/Decomposed/CATransform3DExtensions.swift:246-255 | the `skew` setter; SettersAtCurrentValue |
| CATransform3DExtensions.WithPerspective | Sources/Decomposed/CATransform3DExtensions.swift:279-288 | the `perspective` setter; SettersAtCurrentValue |
| CATransform3DExtensions.RecompositionIgnoresEulerAngles | Sources/Decomposed/SIMDDecomposed.swift:341-351 | the recomposition never reads the Euler angles, only the quaternion |
| CATransform3DExtensions.EulerAnglesSetterRotates | Sources/Decomposed/CATransform3DExtensions.swift:213-222 | assigning Euler angles gives the same transform as assigning their quaternion to `rotation`, because the observer replaces the quaternion and the recomposition reads nothing else |
| CATransform3DExtensions.Translated | Sources/Decomposed/CATransform3DExtensions.swift:97-126 | rows 1 to 3 are kept and row 4 becomes `v.x·row1 + v.y·row2 + v.z·row3 + row4` |
| CATransform3DExtensions.Scaled | Sources/Decomposed/CATransform3DExtensions.swift:147-171 | rows 1 to 3 are multiplied by `s.x`, `s.y`, `s.z`; row 4 is kept |
| CATransform3DExtensions.Rotated | Sources/Decomposed/CATransform3DExtensions.swift:192-210 | a quaternion without an axis leaves the transform as it is |
| CATransform3DExtensions.Skewed | Sources/Decomposed/CATransform3DExtensions.swift:258-276 | row 2 gains `xy·row1` and row 3 gains `yz·row2 + xz·row1`; rows 1 and 4 are kept |
| CATransform3DExtensions.ApplyingPerspective | Sources/Decomposed/CATransform3DExtensions.swift:291-310 | `m14`, `m24`, `m34`, `m44` become `p`; the other twelve entries are kept |
| CATransform3DExtensions.RotatedEuler | Sources/Decomposed/CATransform3DExtensions.swift:225-229 | `rotated(by: eulerAngles)`; RotatedEulerIsRotated states that it is the rotation by the Euler quaternion |
| CATransform3DExtensions.RotatedEulerIsRotated | Sources/Decomposed/CATransform3DExtensions.swift:225-229 | rotating by Euler angles is rotating by their quaternion, and angles whose quaternion has no axis keep the transform |
| CATransform3DExtensions.TranslatedBy | Sources/Decomposed/CATransform3DExtensions.swift:108-111 | `translatedBy(x:y:z:)`, an omitted component 0; TranslatedByDefaults |
| CATransform3DExtensions.TranslatedByPoint | Sources/Decomposed/CATransform3DExtensions.swift:118-121 | the `CGPoint` translation, `z = 0`; PointOverloads |
| CATransform3DExtensions.ScaledBy | Sources/Decomposed/CATransform3DExtensions.swift:163-166 | `scaledBy(x:y:z:)`, an omitted component 1; ScaledByDefaults |
| CATransform3DExtensions.ScaledByPoint | Sources/Decomposed/CATransform3DExtensions.swift:154-156 | the `CGPoint` scale, a `z` scale of 0; PointOverloads and ScaledByPointFlattens |
| CATransform3DExtensions.RotatedBy | Sources/Decomposed/CATransform3DExtensions.swift:202-205 | `rotatedBy(angle:x:y:z:)`, every omitted argument 0; RotatedByWithoutAxis |
| CATransform3DExtensions.RotatedByEuler | Sources/Decomposed/CATransform3DExtensions.swift:235-238 | `rotatedBy(x:y:z:)` with Euler angles; RotatedByEulerDefaults |
| CATransform3DExtensions.SkewedBy | Sources/Decomposed/CATransform3DExtensions.swift:269-272 | `skewedBy(xy:xz:yz:)` as written, an omitted component taken from the current skew; SkewedByReappliesSkew shows the change, CorrectedSkewedBy is the intended builder |
| CATransform3DExtensions.ApplyingPerspectiveBy | Sources/Decomposed/CATransform3DExtensions.swift:302-305 | `applyingPerspective(m14:m24:m34:m44:)`, an omitted entry kept; ApplyingPerspectiveByFills and ApplyingPerspectiveByDefaults |
| CATransform3DExtensions.TranslatedIdentity | Sources/Decomposed/CATransform3DExtensions.swift:97-126 | translating the identity puts `v` into `m41`, `m42`, `m43` and changes nothing else |
| CATransform3DExtensions.TranslatedByDefaults | Sources/Decomposed/CATransform3DExtensions.swift:108-111 | `translatedBy()` with every component omitted leaves the transform as it is |
| CATransform3DExtensions.PointOverloads | Sources/Decomposed/CATransform3DExtensions.swift:118-156 | the `CGPoint` overloads are `translatedBy` with `z` omitted and `scaledBy` with `z = 0` |
| CATransform3DExtensions.ScaledByDefaults | Sources/Decomposed/CATransform3DExtensions.swift:163-166 | `scaledBy()` with every component omitted leaves the transform as it is |
| CATransform3DExtensions.ScaledByPointFlattens | Sources/Decomposed/CATransform3DExtensions.swift:154-156 | scaling by a point zeroes row 3, where `scaledBy(x:y:)` keeps it |
| CATransform3DExtensions.RotatedByWithoutAxis | Sources/Decomposed/CATransform3DExtensions.swift:202-205 | `rotatedBy(angle:)` with no axis component leaves the transform as it is |
| CATransform3DExtensions.RotatedByEulerDefaults | Sources/Decomposed/CATransform3DExtensions.swift:235-238 | `rotatedBy()` with every angle omitted leaves the transform as it is |
| CATransform3DExtensions.ApplyingPerspectiveByFills | Sources/Decomposed/CATransform3DExtensions.swift:302-305 | each given perspective entry is written, each omitted one is kept, and the other twelve entries are unchanged |
| CATransform3DExtensions.ApplyingPerspectiveByDefaults | Sources/Decomposed/CATransform3DExtensions.swift:302-305 | with every argument omitted, the transform is unchanged |
| CATransform3DExtensions.SkewedByReappliesSkew | Sources/Decomposed/CATransform3DExtensions.swift:269-272 | `skewedBy()` with every component omitted changes any transform whose decomposed `xy` skew is non-zero and whose row 1 is non-zero |
| CATransform3DExtensions.CorrectedSkewedBy | Sources/Decomposed/CATransform3DExtensions.swift:264-272 | an omitted component skews by 0: with all omitted the transform is unchanged, and row 2 gains exactly `xy·row1` |
| CATransform3DExtensions.RecomposedDecomposedAffine | Sources/Decomposed/CATransform3DExtensions.swift:76-82 | a non-degenerate affine transform with non-zero scales is its own recomposed decomposition |
| CATransform3DExtensions.SettersAtCurrentValue | Sources/Decomposed/CATransform3DExtensions.swift:85-288 | for a non-degenerate affine transform with non-zero scales, assigning the `translation`, `scale`, `rotation`, `skew` or `perspective` setter its current value leaves the transform as it is; this rests on RecomposedDecomposedAffine |
| CATransform3DExtensions.TranslationSetterReadsBack | Sources/Decomposed/CATransform3DExtensions.swift:85-94 | without perspective, and with a rotation that fixes the origin, the assigned translation reads back unless the result is degenerate |
| CATransform3DExtensions.LerpIsMatrixLerp | Sources/Decomposed/CATransform3DExtensions.swift:402-407 | the transform lerp is the matrix lerp on the transforms' matrices |
| CATransform3DExtensions.LerpEndpoints | Sources/Decomposed/CATransform3DExtensions.swift:402-407 | between non-degenerate affine transforms, fraction 0 gives the start and 1 the end |
| CATransform3DExtensions.Lerp | Sources/Decomposed/CATransform3DExtensions.swift:404-406 | `CATransform3D.lerp(to:fraction:)`, the decompositions interpolated and recomposed; LerpIsMatrixLerp equates it with the matrix lerp and LerpEndpoints states its end points |
| CATransform3DExtensions.Transform.constructor | Sources/Decomposed/CATransform3DExtensions.swift:24-45 | the new transform's matrix is the given matrix |
| CATransform3DExtensions.Transform.AssignMatrix | Sources/Decomposed/CATransform3DExtensions.swift:24-45 | the identity with its sixteen entries overwritten is the converted matrix |
| CATransform3DExtensions.Transform.SetTranslation | Sources/Decomposed/CATransform3DExtensions.swift:89-93 | the new value recomposes the old decomposition with the translation replaced |
| CATransform3DExtensions.Transform.SetScale | Sources/Decomposed/CATransform3DExtensions.swift:139-143 | the same with the scale replaced |
| CATransform3DExtensions.Transform.SetRotation | Sources/Decomposed/CATransform3DExtensions.swift:184-188 | the same with the rotation replaced |
| CATransform3DExtensions.Transform.SetEulerAngles | Sources/Decomposed/CATransform3DExtensions.swift:217-221 | the same with the Euler angles, and through the observer the quaternion, replaced |
| CATransform3DExtensions.Transform.SetSkew | Sources/Decomposed/CATransform3DExtensions.swift:250-254 | the same with the skew replaced |
| CATransform3DExtensions.Transform.SetPerspective | Sources/Decomposed/CATransform3DExtensions.swift:283-287 | the same with the perspective replaced |
| CATransform3DExtensions.Transform.Translate | Sources/Decomposed/CATransform3DExtensions.swift:124-132 | the new value is `translated(by:)` of the old one |
| CATransform3DExtensions.Transform.Scale | Sources/Decomposed/CATransform3DExtensions.swift:169-177 | the new value is `scaled(by:)` of the old one |
| CATransform3DExtensions.Transform.Rotate | Sources/Decomposed/CATransform3DExtensions.swift:208-210 | the new value is `rotated(by:)` of the old one |
| CATransform3DExtensions.Transform.RotateEuler | Sources/Decomposed/CATransform3DExtensions.swift:241-243 | the new value is the old one rotated by the Euler angles |
| CATransform3DExtensions.Transform.Skew | Sources/Decomposed/CATransform3DExtensions.swift:274-276 | the new value is `skewed(by:)` of the old one |
| CATransform3DExtensions.Transform.ApplyPerspective | Sources/Decomposed/CATransform3DExtensions.swift:308-310 | the new value is `applyingPerspective` of the old one |
| CATransform3DExtensions.DecomposedTransform.constructor | Sources/Decomposed/CATransform3DExtensions.swift:379-381 | the wrapper stores the given decomposition |
| CATransform3DExtensions.DecomposedTransform.SetTranslation | Sources/Decomposed/CATransform3DExtensions.swift:329-331 | only the stored translation changes |
| CATransform3DExtensions.DecomposedTransform.SetScale | Sources/Decomposed/CATransform3DExtensions.swift:339-341 | only the stored scale changes |
| CATransform3DExtensions.DecomposedTransform.SetRotation | Sources/Decomposed/CATransform3DExtensions.swift:349-351 | only the stored rotation changes |
| CATransform3DExtensions.DecomposedTransform.SetSkew | Sources/Decomposed/CATransform3DExtensions.swift:359-361 | only the stored skew changes |
| CATransform3DExtensions.DecomposedTransform.SetPerspective | Sources/Decomposed/CATransform3DExtensions.swift:369-371 | only the stored perspective changes |
| CATransform3DExtensions.DecomposedTransform.Lerp | Sources/Decomposed/CATransform3DExtensions.swift:396-398 | a fresh wrapper around the lerp of the two stored decompositions |
| CATransform3DExtensions.DecomposedTransform.RecomposedTransform | Sources/Decomposed/CATransform3DExtensions.swift:384-386 | `recomposed()` of the wrapper, `Recomposed` of its storage |
| CATransform3DExtensions.Decompose | Sources/Decomposed/CATransform3DExtensions.swift:80-82 | a fresh wrapper around the decomposition of the transform's matrix |
| ObjectiveCInterfaces.CATransform3DDecomposed.With | Sources/Decomposed/ObjectiveCInterfaces.swift:32-40 | the five fields are those of the Swift decomposition of the transform |
| ObjectiveCInterfaces.CATransform3DDecomposed.Recomposed | Sources/Decomposed/ObjectiveCInterfaces.swift:48-58 | the result is the Swift recomposition of the five fields |
| ObjectiveCInterfaces.DecomposeTransform | Sources/Decomposed/ObjectiveCInterfaces.swift:43-45 | a fresh object whose fields are the Swift decomposition's |
| ObjectiveCInterfaces.RecomposeUntouched | Sources/Decomposed/ObjectiveCInterfaces.swift:32-58 | decomposing into the object and recomposing gives what the Swift decomposition recomposes to |
| LegacyTransformationMatrix.Rotated | Sources/CoreAnimationUtils/TransformationMatrix.swift:94-103 | for a quaternion with an axis it is the engine's rotation; a rotation matrix equal to the identity leaves the matrix |
| LegacyTransformationMatrix.Rotate | Sources/CoreAnimationUtils/TransformationMatrix.swift:100-103 | the new value is the old one times the quaternion's rotation matrix, with no test |
| LegacyTransformationMatrix.RotatedWithoutAxis | Sources/CoreAnimationUtils/TransformationMatrix.swift:100-103 | for a quaternion without an axis the engine keeps the matrix, while this copy multiplies by the rotation matrix anyway |
| LegacyTransformationMatrix.RenamingRoundTrip | Sources/CoreAnimationUtils/TransformationMatrix.swift:168-186 | `quaternion`/`rotation` of this copy and `rotation`/`eulerAngles` of the engine rename back and forth without loss |
| LegacyTransformationMatrix.Decomposition | Sources/CoreAnimationUtils/TransformationMatrix.swift:207-288 | a zero `[3][3]` gives every default |
| LegacyTransformationMatrix.DecompositionAsEngine | Sources/CoreAnimationUtils/TransformationMatrix.swift:207-288 | with a non-zero `[3][3]`, the decomposition is the engine's under this copy's field names |
| LegacyTransformationMatrix.Decompose | Sources/CoreAnimationUtils/TransformationMatrix.swift:207-288 | the initialiser, with its two early returns, computes `Decomposition` |
| LegacyTransformationMatrix.EarlyReturnAtZeroW | Sources/CoreAnimationUtils/TransformationMatrix.swift:210 | at `[3][3] = 0`, with no perspective entries and an invertible block, this copy keeps the defaults while the engine finds translation and perspective |
| LegacyTransformationMatrix.RecompositionAsEngine | Sources/CoreAnimationUtils/TransformationMatrix.swift:290-300 | for a quaternion with an axis, the recomposition is the engine's |
| LegacyTransformationMatrix.Recomposition | Sources/CoreAnimationUtils/TransformationMatrix.swift:290-300 | `recomposed()` of this copy; RecompositionAsEngine and RecomposeDecomposeRoundTrip |
| LegacyTransformationMatrix.Recompose | Sources/CoreAnimationUtils/TransformationMatrix.swift:290-300 | five mutating calls on a local identity compute `Recomposition` |
| LegacyTransformationMatrix.ApplyAfterPerspective | Sources/CoreAnimationUtils/TransformationMatrix.swift:294-297 | the four calls after the perspective compose translate, the unguarded rotation (no NaN-axis check), skew and scale |
| LegacyTransformationMatrix.RecompositionWithIdentityRotation | Sources/CoreAnimationUtils/TransformationMatrix.swift:290-300 | a quaternion whose rotation matrix is the identity recomposes as in the engine, with or without an axis |
| LegacyTransformationMatrix.RotationStepsAgree | Sources/CoreAnimationUtils/TransformationMatrix.swift:100-103 | both rotation steps leave the matrix when the rotation matrix is the identity |
| LegacyTransformationMatrix.RecomposeDecomposeRoundTrip | Sources/CoreAnimationUtils/TransformationMatrix.swift:207-300 | a non-degenerate affine matrix with non-zero scales recomposes from its decomposition to the normalised matrix |
| LegacyTransformationMatrix.RecomposesAsEngine | Sources/CoreAnimationUtils/TransformationMatrix.swift:290-300 | the engine's decomposition of such a matrix recomposes here as in the engine |
| LegacyTransformationMatrix.EngineRotationWithoutAxis | Sources/CoreAnimationUtils/TransformationMatrix.swift:287 | a decomposed quaternion without an axis has the identity as its rotation matrix |
| LegacyTransformationMatrix.FromEngineWithAxis | Sources/CoreAnimationUtils/TransformationMatrix.swift:290-300 | a renamed engine decomposition whose quaternion has an axis recomposes as in the engine |
| LegacyTransformationMatrix.FromEngineWithIdentityRotation | Sources/CoreAnimationUtils/TransformationMatrix.swift:290-300 | the same when its rotation matrix is the identity |
| LegacyTransformationMatrix.GramSchmidtOfOrthonormal | Sources/CoreAnimationUtils/TransformationMatrix.swift:249-267 | the Gram-Schmidt pass keeps orthonormal columns, with unit scale and no skew |
| LegacyTransformationMatrix.IdentityDecomposition | Sources/CoreAnimationUtils/TransformationMatrix.swift:207-288 | the identity decomposes into zero translation, unit scale, no skew, perspective `(0, 0, 0, 1)` and the identity rotation |
| LegacyTransformationMatrix.UnitDecomposition | Sources/CoreAnimationUtils/TransformationMatrix.swift:207-288 | a matrix with `[3][3] = 1`, no perspective and an orthonormal upper block decomposes into that rotation with unit scale |
| LegacyTransformationMatrix.IdentityWithPerspective | Sources/CoreAnimationUtils/TransformationMatrix.swift:290-300 | the identity's decomposition with perspective `p` recomposes to the identity with row 3 set to `p` |
| LegacyTransformationMatrix.IdentityRoundTrip | Sources/CoreAnimationUtils/TransformationMatrix.swift:207-300 | the identity recomposes from its decomposition |
| LegacyTransformationMatrix.RecomposedUnitParts | Sources/CoreAnimationUtils/TransformationMatrix.swift:290-300 | with no translation, skew or rotation and unit scale, only the perspective is left |
| LegacyTransformationMatrix.TranslatedByZero | Sources/CoreAnimationUtils/TransformationMatrix.swift:79-83 | translating by zero changes nothing |
| LegacyTransformationMatrix.ScaledByOne | Sources/CoreAnimationUtils/TransformationMatrix.swift:155-159 | scaling by one changes nothing |
| LegacyLERPExtensions.QuatLinearLerp | Sources/CoreAnimationUtils/LERPExtensions.swift:53-55 | the start at 0, the end at 1, and the constant for equal ends |
| LegacyLERPExtensions.LinearMidpointNotUnit | Sources/CoreAnimationUtils/LERPExtensions.swift:53-55 | half-way between orthogonal unit quaternions, the squared norm is 1/2: the linear lerp leaves the unit sphere |
| LegacyLERPExtensions.Lerp | Sources/CoreAnimationUtils/LERPExtensions.swift:71-78 | the first decomposition at 0, the second at 1, and the same one for equal ends, with no hypothesis |
| LegacyLERPExtensions.LerpAsEngineButRotation | Sources/CoreAnimationUtils/LERPExtensions.swift:71-78 | it agrees with the engine's lerp on every field but the quaternion |
| LegacyLERPExtensions.MatrixLerpAtZero | Sources/CoreAnimationUtils/LERPExtensions.swift:84-86 | fraction 0 gives the recomposed decomposition of the first matrix |
| LegacyLERPExtensions.MatrixLerpAtOne | Sources/CoreAnimationUtils/LERPExtensions.swift:84-86 | fraction 1 gives the recomposed decomposition of the second matrix |
| LegacyLERPExtensions.MatrixLerpEndpoints | Sources/CoreAnimationUtils/LERPExtensions.swift:84-86 | between non-degenerate affine matrices, the normalised start at 0 and end at 1, without any `simd_slerp` hypothesis |
| LegacyLERPExtensions.MatrixLerp | Sources/CoreAnimationUtils/LERPExtensions.swift:84-86 | the matrix `lerp` of this copy; MatrixLerpAtZero, MatrixLerpAtOne and MatrixLerpEndpoints |
| LegacyCATransform3DExtensions.DecomposedAsEngine | Sources/CoreAnimationUtils/CATransform3DExtensions.swift:51-57 | with `m44 ≠ 0` the engine's decomposition renamed; with `m44 = 0` every default |
| LegacyCATransform3DExtensions.Decomposed | Sources/CoreAnimationUtils/CATransform3DExtensions.swift:51-53 | `_decomposed()` of this copy; DecomposedAsEngine |
| LegacyCATransform3DExtensions.Recomposed | Sources/CoreAnimationUtils/CATransform3DExtensions.swift:252-254 | the recomposed matrix of this copy as a transform; the setter lemmas below |
| LegacyCATransform3DExtensions.WithTranslation | Sources/CoreAnimationUtils/CATransform3DExtensions.swift:59-68 | the `translation` setter; TranslationSetterAsEngine |
| LegacyCATransform3DExtensions.WithScale | Sources/CoreAnimationUtils/CATransform3DExtensions.swift:85-94 | the `scale` setter; ScaleSetterAsEngine |
| LegacyCATransform3DExtensions.WithRotation | Sources/CoreAnimationUtils/CATransform3DExtensions.swift:111-120 | the `rotation` setter; RotationSetterAsEngine |
| LegacyCATransform3DExtensions.WithSkew | Sources/CoreAnimationUtils/CATransform3DExtensions.swift:137-146 | the `skew` setter; SkewSetterAsEngine |
| LegacyCATransform3DExtensions.AsWrittenWithPerspective | Sources/CoreAnimationUtils/CATransform3DExtensions.swift:163-172 | the `perspective` setter as written; PerspectiveSetterIgnoresValue and PerspectiveSetterLeavesIdentity |
| LegacyCATransform3DExtensions.CorrectedWithPerspective | Sources/CoreAnimationUtils/CATransform3DExtensions.swift:163-172 | the `perspective` setter as intended; CorrectedPerspectiveOnIdentity |
| LegacyCATransform3DExtensions.RotatedBy | Sources/CoreAnimationUtils/CATransform3DExtensions.swift:128-131 | `rotatedBy(angle:x:y:z:)` with the unnormalised axis; RotatedByWithoutAxis |
| LegacyCATransform3DExtensions.SkewedBy | Sources/CoreAnimationUtils/CATransform3DExtensions.swift:154-157 | `skewedBy(XY:XZ:YZ:)`; SkewedByAsEngine |
| LegacyCATransform3DExtensions.TranslationSetterAsEngine | Sources/CoreAnimationUtils/CATransform3DExtensions.swift:59-68 | with `m44 ≠ 0` and a decomposed quaternion with an axis, the `translation` setter gives the engine's result |
| LegacyCATransform3DExtensions.ScaleSetterAsEngine | Sources/CoreAnimationUtils/CATransform3DExtensions.swift:85-94 | the same for the `scale` setter |
| LegacyCATransform3DExtensions.RotationSetterAsEngine | Sources/CoreAnimationUtils/CATransform3DExtensions.swift:111-120 | the same for the `rotation` setter, when the new quaternion has an axis |
| LegacyCATransform3DExtensions.SkewSetterAsEngine | Sources/CoreAnimationUtils/CATransform3DExtensions.swift:137-146 | the same for the `skew` setter |
| LegacyCATransform3DExtensions.PerspectiveSetterIgnoresValue | Sources/CoreAnimationUtils/CATransform3DExtensions.swift:163-172 | two different perspectives assigned to the same transform give the same result |
| LegacyCATransform3DExtensions.PerspectiveSetterLeavesIdentity | Sources/CoreAnimationUtils/CATransform3DExtensions.swift:163-172 | assigning any perspective to the identity leaves the identity |
| LegacyCATransform3DExtensions.CorrectedPerspectiveOnIdentity | Sources/CoreAnimationUtils/CATransform3DExtensions.swift:163-172 | the intended setter puts the assigned perspective into `m14`, `m24`, `m34`, `m44` of the identity |
| LegacyCATransform3DExtensions.Rotated | Sources/CoreAnimationUtils/CATransform3DExtensions.swift:122-135 | for a quaternion with an axis it is the engine's `rotated(by:)`; a rotation matrix equal to the identity leaves the transform |
| LegacyCATransform3DExtensions.RotatedByWithoutAxis | Sources/CoreAnimationUtils/CATransform3DExtensions.swift:128-131 | with the axis omitted the quaternion has no axis, which the engine skips; this copy keeps the transform when that quaternion's rotation matrix is the identity |
| LegacyCATransform3DExtensions.SkewedByAsEngine | Sources/CoreAnimationUtils/CATransform3DExtensions.swift:154-157 | with `m44 ≠ 0` it is the engine's `skewedBy` |
| LegacyCATransform3DExtensions.AsWrittenApplyingPerspectiveBy | Sources/CoreAnimationUtils/CATransform3DExtensions.swift:174-177 | `m14`…`m44` become the arguments, an omitted one read from `m31`…`m34`; the other entries are kept |
| LegacyCATransform3DExtensions.AsWrittenPerspectiveByOnIdentity | Sources/CoreAnimationUtils/CATransform3DExtensions.swift:174-177 | with all arguments omitted, the identity gets `m34 = 1` and `m44 = 0`, while the engine's builder keeps the identity |
| LegacyCATransform3DExtensions.LerpEndpoints | Sources/CoreAnimationUtils/CATransform3DExtensions.swift:270-276 | between non-degenerate affine transforms, fraction 0 gives the start and 1 the end, with no `simd_slerp` hypothesis |
| LegacyCATransform3DExtensions.Lerp | Sources/CoreAnimationUtils/CATransform3DExtensions.swift:272-276 | `lerp(to:fraction:)` of this copy, the legacy matrix lerp on the transforms' matrices; LerpEndpoints states its end points |
| LegacyCATransform3DExtensions.SetTranslation | Sources/CoreAnimationUtils/CATransform3DExtensions.swift:63-67 | the new value recomposes this copy's decomposition with the translation replaced |
| LegacyCATransform3DExtensions.SetScale | Sources/CoreAnimationUtils/CATransform3DExtensions.swift:89-93 | the same with the scale replaced |
| LegacyCATransform3DExtensions.SetRotation | Sources/CoreAnimationUtils/CATransform3DExtensions.swift:115-119 | the same with the quaternion replaced |
| LegacyCATransform3DExtensions.SetSkew | Sources/CoreAnimationUtils/CATransform3DExtensions.swift:141-145 | the same with the skew replaced |
| LegacyCATransform3DExtensions.SetPerspective | Sources/CoreAnimationUtils/CATransform3DExtensions.swift:167-171 | as written: the new value recomposes a fresh decomposition, whatever was assigned |
| LegacyCATransform3DExtensions.Rotate | Sources/CoreAnimationUtils/CATransform3DExtensions.swift:133-135 | the new value is this copy's `rotated(by:)` of the old one |
| LegacyCATransform3DExtensions.DecomposedTransform.constructor | Sources/CoreAnimationUtils/CATransform3DExtensions.swift:248-250 | the wrapper stores the given decomposition |
| LegacyCATransform3DExtensions.DecomposedTransform.SetTranslation | Sources/CoreAnimationUtils/CATransform3DExtensions.swift:199-206 | only the stored translation changes |
| LegacyCATransform3DExtensions.DecomposedTransform.SetScale | Sources/CoreAnimationUtils/CATransform3DExtensions.swift:209-216 | only the stored scale changes |
| LegacyCATransform3DExtensions.DecomposedTransform.SetRotation | Sources/CoreAnimationUtils/CATransform3DExtensions.swift:219-226 | only the stored quaternion changes |
| LegacyCATransform3DExtensions.DecomposedTransform.SetSkew | Sources/CoreAnimationUtils/CATransform3DExtensions.swift:229-236 | only the stored skew changes |
| LegacyCATransform3DExtensions.DecomposedTransform.SetPerspective | Sources/CoreAnimationUtils/CATransform3DExtensions.swift:239-246 | only the stored perspective changes |
| LegacyCATransform3DExtensions.DecomposedTransform.Lerp | Sources/CoreAnimationUtils/CATransform3DExtensions.swift:264-266 | a fresh wrapper around the linear-quaternion lerp of the two stored decompositions |
| LegacyCATransform3DExtensions.DecomposedTransform.RecomposedTransform | Sources/CoreAnimationUtils/CATransform3DExtensions.swift:252-254 | `recomposed()` of the wrapper, `Recomposed` of its storage |
| LegacyCATransform3DExtensions.Decompose | Sources/CoreAnimationUtils/CATransform3DExtensions.swift:55-57 | a fresh wrapper around this copy's decomposition of the transform's matrix |

## Left out

- Floating point is not modelled: rounding, the `1e-4` tolerance of the
  round trips, NaN and infinity. Scalars are reals. A normalisation or a
  division by zero gives zero where simd gives NaN or infinity.
- The square root, `sin`, `cos`, `asin`, `atan2`, `simd_inverse`,
  `simd_quatd(rotationMatrix)`, `matrix_double4x4(simd_quatd)` and
  `simd_slerp` are not defined. They are parameters, and the properties that
  need them name their hypotheses.
- The `matrix_float4x4` half of SIMDDecomposed.swift (lines 380-676), the
  `simd_quatf` Euler initialiser, and the `Float` ↔ `Double` ↔ `CGFloat`
  conversions are not modelled. The `Float` forms convert to `Double`, run
  the `Double` code and convert back; over the reals the conversions are the
  identity.
- The engine's property getters (`translation`, `scale`, `rotation`,
  `eulerAngles`, `skew`, `perspective`) and those of the `CATransform3D`
  adapters have no member of their own. Each is a field of `Decomposition`
  or `Decomposed`.
- The engine's matrix property setters compose through the mutating
  builders. They are the `Matrix4x4` methods.
- Some legacy members have no member of their own because they are the
  engine's builders in this copy (`translate`, `scale`, `skew`,
  `applyPerspective`, their copying forms, `identity`, `zero`, the matrix
  conversions):
  - TransformationMatrix.swift lines 15-84 and 105-161;
  - CoreAnimationUtils CATransform3DExtensions.swift lines 11-50, 69-84,
    95-108, 148-152, 158-161 and 179-187.

  `LegacyCATransform3DExtensions` calls those engine builders directly.
- The legacy matrix `rotation` property (TransformationMatrix.swift lines
  85-92) has no member of its own. Its getter reads the decomposed
  quaternion. Its setter calls `rotate(by:)`, which
  `LegacyTransformationMatrix.Rotate` models, so assigning a quaternion
  multiplies by it rather than replacing the rotation.
- `matrix_double4x4.Skew.lerp` (LERPExtensions.swift lines 59-67) is not
  modelled. It refers to a `Skew` wrapper type that is not part of this
  model. As written, it is the three-vector lerp on its storage.
- Context files are not part of this model:
  - the `CoreAnimationUtils` copies of `CGFloatVectorTypes`, `CGFloatVector`,
    `SIMDConvenienceExtensions`, `CATransform3DConvenienceExtensions`,
    `Interpolatable` and `LERPUtils`;
  - `CALayerExtensions`, `Globals` and the `Objective-C Support` files;
  - the demos and the tests.

  From the legacy accessors, only what the legacy adapter relies on is
  used: `XY`, `XZ`, `YZ` are elements 0, 1, 2, and `Perspective(m31:…)`
  stores positionally.
- Equality with a tolerance (`==` on `CGVector3`, `CGVector4`,
  `CGQuaternion`) is modelled as predicates. It is not Swift's `Equatable`
  conformance.
- DecompositionProperties.RecomposeDecomposeRoundTrip: proved only for
  affine matrices (`m[0][3] = m[1][3] = m[2][3] = 0`, `m[3][3] ≠ 0`) that are
  non-degenerate and have non-zero Gram-Schmidt scales. Recomposing a
  solved perspective is not characterised.
- DecompositionProperties.MatrixLerpEndpoints: proved for the same class of
  matrices, under an end-point hypothesis on `simd_slerp`. Fractions strictly
  between 0 and 1 are not characterised.
- SimdDecomposed.Decomposition: on a degenerate matrix, the contract says
  only that every field is the default (all zeros). How the result
  recomposes is not stated.
- SimdConvenienceExtensions.QuatFromEulerX: the Euler-angle quaternion is
  characterised for zero angles and for one axis at a time. The same holds
  for `QuatFromEulerY` and `QuatFromEulerZ`. Its agreement with the product
  of three axis rotations is not proved.

## Findings

| source | as written | input that shows it | evidently intended | confidence | as-written member | corrected member |
|---|---|---|---|---|---|---|
| Sources/CoreAnimationUtils/CATransform3DExtensions.swift:163-172 | the `perspective` setter changes a copy of the decomposition, then recomposes a fresh `_decomposed()`, so the assigned value is dropped | the identity, assigned the perspective `(0, 0, -0.002, 1)`, stays the identity | recompose the modified copy, as the other four setters do | not executed | LegacyCATransform3DExtensions.PerspectiveSetterLeavesIdentity | LegacyCATransform3DExtensions.CorrectedPerspectiveOnIdentity |
| Sources/CoreAnimationUtils/CATransform3DExtensions.swift:174-177 | `applyingPerspective(m31:m32:m33:m34:)` reads an omitted argument from row 3 (`m31`…`m34`) but writes the perspective column (`m14`…`m44`) | the identity with every argument omitted gets `m34 = 1`, `m44 = 0` | an omitted argument keeps the perspective entry it replaces, as the engine's `applyingPerspective(m14:m24:m34:m44:)` does | not executed | LegacyCATransform3DExtensions.AsWrittenPerspectiveByOnIdentity | CATransform3DExtensions.ApplyingPerspectiveByDefaults |
| Sources/Decomposed/SIMDConvenienceExtensions.swift:14-36 | `SIMD4.m32`, `m33` and `m34` read and write element 0, like `m31` | `SIMD4(m31: 1, m32: 2, m33: 3, m34: 4).m32` is 1 | `m31`…`m34` are elements 0 to 3, where the initialiser stores them | not executed | SimdConvenienceExtensions.PerspectiveInitRoundTripFails | SimdConvenienceExtensions.CorrectedPerspectiveRoundTrip |
| Sources/Decomposed/CATransform3DConvenienceExtensions.swift:50-52 | the `Float` overload of `CGVector4(m14:m24:m34:m44:)` passes `m34` in the fourth place and never reads `m44` | `m34: -0.002` with `m44` omitted stores `-0.002` in place of the default 1 | store `m44` in the fourth place, as the `CGFloat` and `Double` overloads do | not executed | CATransform3DConvenienceExtensions.FloatPerspectiveInitIgnoresM44 | CATransform3DConvenienceExtensions.CorrectedFloatPerspectiveInitReadsBack |
| Sources/Decomposed/CATransform3DExtensions.swift:264-272 | `skewedBy(xy:xz:yz:)` fills an omitted component with the current decomposed skew and then skews by it again, although its documentation says omitted components have no effect | any transform with decomposed `xy` skew `≠ 0` and `skewedBy()` with nothing given | an omitted component skews by 0, like `translatedBy` and `scaledBy` | not executed | CATransform3DExtensions.SkewedByReappliesSkew | CATransform3DExtensions.CorrectedSkewedBy |
