# Neothauma engine core, modelled in Dafny

Neothauma is a small Rust engine that draws triangle meshes with wgpu. This
project models the parts of it that compute something without touching the
GPU, and proves what those parts promise. The modelled parts are:

- the two vector/quaternion/matrix libraries: the cleaning one of
  `engine/core` and the plain one of `engine/primitives.rs`;
- the mesh generators (cube, cone, cylinder, sphere) and smooth-normal
  generation;
- the wire-frame cube;
- the two cameras: the quaternion camera of `render/camera.rs` and the
  look-at camera of `renderer.rs`;
- the transform record;
- the entity store;
- the CPU side of the renderable factory;
- two generations of mutable `Point`/`Vec3` structs.

How the Rust types are represented:

- `f32` is a `real`.
- `sqrt`, `sin`, `cos` and `tan` are passed in as a `Numeric.Libm` record of
  functions. No result depends on their values unless a lemma states the
  values it needs in its `requires`.
- `u16` and `u32` are newtypes. Their arithmetic is checked, as in a debug
  build. `as u32` on a length keeps the low 32 bits (`Numeric.TruncateU32`).
- `f32::round` (halves away from zero) is exact over reals
  (`Numeric.Round`). So `clean_f32` and `round_to_threshold` are modelled
  exactly.
- A Rust struct whose methods take `&mut self` becomes a Dafny `class` with
  the same fields, and its methods carry `modifies` clauses. This covers
  the render `Mesh`, both `Camera`s, `ECS` and the `Point`/`Vec3` structs.
- A value type becomes a `datatype`.

Loops are kept as loops. Where a generator's nested loops gave the verifier
too large a proof, each loop level is a helper method. Each helper is
proved against a recursive specification function: for example
`Mesh.AppendSphereRow`, `Mesh.CylinderWalls` and `Mesh.AccumulateFaceNormals`.

How the source disagrees with itself:

- `src/engine/renderer/mesh.rs` holds the same code as the first 100 lines of
  `src/engine/render/mesh.rs`, differing only in comments and one trailing
  comma. `RenderMesh` models both.
- `Quat * Vec3` exists only in `engine/core/primitives.rs`. The `renderer.rs`
  camera, which uses `engine::primitives`, is modelled with that library's
  `rotate_vec3`.
- The cone's largest index is `segments + 1`. The `u16` casts therefore
  allow up to 65534 segments, and that is the bound the model uses.
- `src/tests.rs` calls `rotate_xy`, `rotate_yz`, `rotate_xz`, `scale` and a
  tuple form of `set` on `crate::primitives`. That module defines none of
  them. The model checks the expected values against the
  `engine/objects/primitives.rs` `Vec3`, which does define them.

## Model

| member | source | states |
|---|---|---|
| Numeric.Round | src/utils.rs:5 | `f32::round`: the nearest integer, with ties going away from zero (x - 1/2 < r <= x + 1/2 for x >= 0, x - 1/2 <= r < x + 1/2 for x < 0); inputs of magnitude at least 1 keep their sign |
| Numeric.RoundHalfAwayFromZero | src/utils.rs:5 | k + 1/2 rounds to k + 1 and -(k + 1/2) to -(k + 1) |
| Numeric.RoundInteger | src/engine/core/primitives.rs:10 | rounding an integer leaves it unchanged |
| Numeric.TruncateU32 | src/engine/render/mesh.rs:38-40 | `len() as u32` equals the length whenever the length is below 2^32 |
| Matrix.Identity | src/engine/core/primitives.rs:560-567 | `IDENTITY` is an n x n matrix |
| Matrix.IdentityLiterals | src/engine/primitives.rs:570-577 | the 3x3 and 4x4 identity matrices are the literal `IDENTITY` constants |
| Matrix.Transpose | src/engine/core/primitives.rs:582-592 | entry (j, i) of the result is entry (i, j) of the input |
| Matrix.TransposeInvolution | src/engine/core/primitives.rs:582-592 | transposing twice gives back the matrix |
| Matrix.IdentityIsUnit | src/engine/core/primitives.rs:594-598 | the identity (`Mat4::default`) is a left and right unit of the matrix product |
| Matrix.Multiply | src/engine/primitives.rs:607-621 | the triple loop leaves the row-by-column sum in every entry |
| Matrix.RowTimesColumnOfFour | src/engine/core/primitives.rs:600-617 | the 4-term sum written out in `Mat4 * Mat4` equals the row-by-column sum |
| CorePrimitives.CleanF32 | src/engine/core/primitives.rs:4-12 | the result is 0 exactly when the input is below 1e-3 in magnitude; otherwise it is nonzero, at least 1e-3 in magnitude, and within 5e-4 of the input |
| CorePrimitives.CleanF32Idempotent | src/engine/core/primitives.rs:6-12 | cleaning a cleaned value changes nothing |
| CorePrimitives.CleanF32Odd | src/engine/core/primitives.rs:6-12 | cleaning commutes with negation |
| CorePrimitives.Vec3.Clean | src/engine/core/primitives.rs:136-142 | every component of the result is a cleaned value |
| CorePrimitives.Vec3.New | src/engine/core/primitives.rs:144-146 | a constructed vector is already clean |
| CorePrimitives.Vec3.Add | src/engine/core/primitives.rs:174-179 | the sum is clean |
| CorePrimitives.Vec3.Sub | src/engine/core/primitives.rs:181-186 | the difference is clean |
| CorePrimitives.Vec3.Scale | src/engine/core/primitives.rs:188-197 | the scaled vector is clean |
| CorePrimitives.Vec3.Div | src/engine/core/primitives.rs:199-208 | the quotient is clean (division by zero is excluded) |
| CorePrimitives.Vec3.Neg | src/engine/core/primitives.rs:210-218 | the negation is clean |
| CorePrimitives.Vec3.Normalize | src/engine/core/primitives.rs:152-159 | a zero-length vector is returned unchanged; any other result is clean |
| CorePrimitives.CleanVectorIsStable | src/engine/core/primitives.rs:136-142 | cleaning a vector twice is cleaning it once |
| CorePrimitives.NegOfStableVector | src/engine/core/primitives.rs:210-218 | negating a vector that cleaning leaves alone is exact negation |
| CorePrimitives.CleanIntegerVector | src/engine/core/primitives.rs:144-146 | `Vec3::new` keeps integer coordinates exactly |
| CorePrimitives.CrossSelfIsZero | src/engine/core/primitives.rs:165-171 | a vector crossed with itself is zero |
| CorePrimitives.CrossIsNotCleaned | src/engine/core/primitives.rs:165-171 | unlike the operators, `cross` does not clean: two clean vectors can have an unclean cross product |
| CorePrimitives.Vec3.Dot | src/engine/core/primitives.rs:161-163 | no own ensures; symmetric and never negative on the diagonal, by `CorePrimitives.DotFacts` |
| CorePrimitives.Vec3.Length | src/engine/core/primitives.rs:148-150 | no own ensures; the library square root of the vector's dot with itself, by `CorePrimitives.DotFacts`; `Normalize` branches on it |
| CorePrimitives.Vec3.Cross | src/engine/core/primitives.rs:165-171 | no own ensures; zero on equal arguments (`CrossSelfIsZero`) and not cleaned (`CrossIsNotCleaned`) |
| CorePrimitives.DotFacts | src/engine/core/primitives.rs:148-163 | `dot` is symmetric and never negative on the diagonal, and `length` is the library square root of it |
| CorePrimitives.Quat.Normalize | src/engine/core/primitives.rs:329-336 | a zero-length quaternion is returned unchanged |
| CorePrimitives.Quat.Conjugate | src/engine/core/primitives.rs:342-349 | the vector part is negated and w is kept |
| CorePrimitives.Quat.Dot | src/engine/core/primitives.rs:338-340 | no own ensures; symmetric and never negative on the diagonal, by `CorePrimitives.QuatArithmetic` |
| CorePrimitives.Quat.Length | src/engine/core/primitives.rs:325-327 | no own ensures; the library square root of the squared norm, by `CorePrimitives.QuatArithmetic`; `Normalize` branches on it |
| CorePrimitives.Quat.Scale | src/engine/core/primitives.rs:427-437 | no own ensures; `Div` by the same non-zero factor undoes it, by `CorePrimitives.QuatArithmetic` |
| CorePrimitives.Quat.Div | src/engine/core/primitives.rs:439-449 | no own ensures; undoes `Scale` by the same non-zero factor, by `CorePrimitives.QuatArithmetic` |
| CorePrimitives.Quat.Add | src/engine/core/primitives.rs:451-461 | no own ensures; `Sub` undoes it, by `CorePrimitives.QuatArithmetic` |
| CorePrimitives.Quat.Sub | src/engine/core/primitives.rs:463-473 | no own ensures; undoes `Add` and equals adding the negation, by `CorePrimitives.QuatArithmetic` |
| CorePrimitives.Quat.Neg | src/engine/core/primitives.rs:475-485 | no own ensures; an involution equal to scaling by -1, by `CorePrimitives.QuatArithmetic` |
| CorePrimitives.QuatArithmetic | src/engine/core/primitives.rs:427-485 | subtraction undoes addition, division undoes scaling, negation is an involution, and `dot` is symmetric and never negative on the diagonal, with `length` its square root |
| CorePrimitives.Quat.Mul | src/engine/core/primitives.rs:415-425 | no own ensures; `Quat::ZERO` is a two-sided unit of it (`QuatZeroIsUnit`) |
| CorePrimitives.Quat.FromAxisAngle | src/engine/core/primitives.rs:351-364 | no own ensures; the zero angle gives `Quat::ZERO` for any axis (`CorePrimitives.FromAxisAngleOfZero`) |
| CorePrimitives.FromAxisAngleOfZero | src/engine/core/primitives.rs:351-364 | when sin 0 = 0 and cos 0 = 1, the zero angle gives `Quat::ZERO`, the identity rotation, for every axis |
| CorePrimitives.Quat.Lerp | src/engine/core/primitives.rs:366-368 | no own ensures; the normalized endpoints at t = 0 and t = 1, by `CorePrimitives.QuatLerpEndpoints` |
| CorePrimitives.QuatLerpEndpoints | src/engine/core/primitives.rs:366-368 | `lerp` at t = 0 and t = 1 gives the normalized endpoints, and between a quaternion and itself gives it normalized |
| CorePrimitives.Quat.Rotate | src/engine/core/primitives.rs:487-498 | no own ensures; the identity rotation fixes X, Y, -Z and every integer vector (`RotateAxesByZero`, `RotateIntegerByZero`) |
| CorePrimitives.Quat.ToMat3 | src/engine/core/primitives.rs:392-413 | the result is a 3x3 matrix |
| CorePrimitives.ConjugateInvolution | src/engine/core/primitives.rs:342-349 | conjugating twice gives back the quaternion |
| CorePrimitives.QuatZeroIsUnit | src/engine/core/primitives.rs:415-425 | `Quat::ZERO`, which is (0, 0, 0, 1), is a left and right unit of the Hamilton product |
| CorePrimitives.ToMat3OfConjugate | src/engine/core/primitives.rs:392-413 | the conjugate's matrix is the transpose of the quaternion's matrix |
| CorePrimitives.ToMat3OfZero | src/engine/core/primitives.rs:319 | `Quat::ZERO` gives the identity matrix |
| CorePrimitives.RotateAxesByZero | src/engine/core/primitives.rs:487-498 | `Quat::ZERO * v` leaves X, Y and -Z unchanged |
| CorePrimitives.RotateIntegerByZero | src/engine/core/primitives.rs:487-498 | `Quat::ZERO * v` leaves every integer vector unchanged |
| CorePrimitives.FromTransform | src/engine/core/primitives.rs:569-580 | `from_transform` builds a 4x4 matrix |
| CorePrimitives.FromTransformLayout | src/engine/core/primitives.rs:569-580 | row 3 is (0, 0, 0, 1) and column 3 holds the position; with unit scale, the upper block is the rotation matrix read column-wise |
| CorePrimitives.FromTransformOfIdentity | src/engine/core/primitives.rs:569-580 | the identity transform gives the identity matrix |
| CorePrimitives.MulMat3 | src/engine/core/primitives.rs:519-533 | every entry is the row-by-column sum |
| CorePrimitives.ToUniform | src/engine/core/primitives.rs:582-592 | the loop produces the transpose |
| CorePrimitives.MulMat4 | src/engine/core/primitives.rs:600-617 | every entry is the row-by-column sum |
| EnginePrimitives.Vec2.LengthSquared | src/engine/primitives.rs:32-34 | the squared length is never negative |
| EnginePrimitives.Vec2.Normalize | src/engine/primitives.rs:36-43 | a zero-length vector is returned unchanged, and zero stays zero |
| EnginePrimitives.Vec2.Dot | src/engine/primitives.rs:45-47 | no own ensures; symmetric and linear in its first argument, by `EnginePrimitives.Vec2ScaleAndDot` |
| EnginePrimitives.Vec2.Length | src/engine/primitives.rs:28-30 | no own ensures; the library square root of `length_squared`, by `EnginePrimitives.Vec2ScaleAndDot` |
| EnginePrimitives.Vec2.Add | src/engine/primitives.rs:72-77 | no own ensures; `Sub` undoes it, by `EnginePrimitives.Vec2SubUndoesAdd` |
| EnginePrimitives.Vec2.Sub | src/engine/primitives.rs:79-84 | no own ensures; undoes `Add` and equals adding the negation, by `EnginePrimitives.Vec2SubUndoesAdd` |
| EnginePrimitives.Vec2.MulScalar | src/engine/primitives.rs:49-54 | no own ensures; `DivScalar` by the same non-zero factor undoes it, by `EnginePrimitives.Vec2ScaleAndDot` |
| EnginePrimitives.Vec2.DivScalar | src/engine/primitives.rs:56-61 | no own ensures; undoes `MulScalar` by the same non-zero factor, by `EnginePrimitives.Vec2ScaleAndDot` |
| EnginePrimitives.Vec2.Neg | src/engine/primitives.rs:106-111 | no own ensures; an involution equal to scaling by -1, by `EnginePrimitives.Vec2ScaleAndDot` |
| EnginePrimitives.Vec2.Lerp | src/engine/primitives.rs:63-65 | no own ensures; the endpoints at t = 0 and t = 1, by `EnginePrimitives.Vec2LerpEndpoints` |
| EnginePrimitives.Vec2.Reflect | src/engine/primitives.rs:67-69 | no own ensures; flips the component along a unit normal and is an involution, by `EnginePrimitives.Vec2ReflectTwice` |
| EnginePrimitives.Vec2ScaleAndDot | src/engine/primitives.rs:28-111 | `div_scalar` undoes `mul_scalar`, negation is an involution equal to scaling by -1, `dot` is symmetric and scales with its argument, and `length` is the library square root of `length_squared` |
| EnginePrimitives.Vec2LerpEndpoints | src/engine/primitives.rs:63-65 | `lerp` at t = 0 and t = 1 gives the endpoints |
| EnginePrimitives.Vec2SubUndoesAdd | src/engine/primitives.rs:72-84 | subtracting undoes adding; adding the negation is subtracting |
| EnginePrimitives.Vec2ReflectTwice | src/engine/primitives.rs:67-69 | across a unit normal, reflection flips the normal component, and reflecting twice gives back the vector |
| EnginePrimitives.Vec3.LengthSquared | src/engine/primitives.rs:142-144 | the squared length is never negative |
| EnginePrimitives.Vec3.Normalize | src/engine/primitives.rs:146-153 | a zero-length vector is returned unchanged, and zero stays zero |
| EnginePrimitives.Vec3.Dot | src/engine/primitives.rs:155-157 | no own ensures; symmetric and linear in its first argument, by `EnginePrimitives.Vec3ScaleAndDot` |
| EnginePrimitives.Vec3.Length | src/engine/primitives.rs:138-140 | no own ensures; the library square root of `length_squared`, by `EnginePrimitives.Vec3ScaleAndDot` |
| EnginePrimitives.Vec3.Cross | src/engine/primitives.rs:159-165 | no own ensures; anti-commutative, zero on equal arguments and orthogonal to both, by `EnginePrimitives.Vec3CrossProperties` |
| EnginePrimitives.Vec3.Add | src/engine/primitives.rs:168-173 | no own ensures; `Sub` undoes it, by `EnginePrimitives.Vec3SubUndoesAdd` |
| EnginePrimitives.Vec3.Sub | src/engine/primitives.rs:175-180 | no own ensures; undoes `Add` and equals adding the negation, by `EnginePrimitives.Vec3SubUndoesAdd` |
| EnginePrimitives.Vec3.Scale | src/engine/primitives.rs:182-191 | no own ensures; `Div` by the same non-zero factor undoes it, by `EnginePrimitives.Vec3ScaleAndDot` |
| EnginePrimitives.Vec3.Div | src/engine/primitives.rs:193-202 | no own ensures; undoes `Scale` by the same non-zero factor, by `EnginePrimitives.Vec3ScaleAndDot` |
| EnginePrimitives.Vec3.Neg | src/engine/primitives.rs:204-209 | no own ensures; an involution equal to scaling by -1, by `EnginePrimitives.Vec3ScaleAndDot` |
| EnginePrimitives.Vec3ScaleAndDot | src/engine/primitives.rs:138-209 | `Div<f32>` undoes `Mul<f32>`, negation is an involution equal to scaling by -1, `dot` is symmetric and scales with its argument, and `length` is the library square root of `length_squared` |
| EnginePrimitives.Vec3CrossProperties | src/engine/primitives.rs:159-165 | the cross product is anti-commutative, zero on equal arguments, and orthogonal to both arguments |
| EnginePrimitives.Vec3SubUndoesAdd | src/engine/primitives.rs:168-180 | subtracting undoes adding; adding the negation is subtracting |
| EnginePrimitives.Vec4.LengthSquared | src/engine/primitives.rs:231-233 | the squared length is never negative |
| EnginePrimitives.Vec4.Normalize | src/engine/primitives.rs:235-242 | a zero-length vector is returned unchanged, and zero stays zero |
| EnginePrimitives.Vec4.Dot | src/engine/primitives.rs:244-246 | no own ensures; symmetric and linear in its first argument, by `EnginePrimitives.Vec4ScaleAndDot` |
| EnginePrimitives.Vec4.Length | src/engine/primitives.rs:227-229 | no own ensures; the library square root of `length_squared`, by `EnginePrimitives.Vec4ScaleAndDot` |
| EnginePrimitives.Vec4.Add | src/engine/primitives.rs:267-272 | no own ensures; `Sub` undoes it, by `EnginePrimitives.Vec4SubUndoesAdd` |
| EnginePrimitives.Vec4.Sub | src/engine/primitives.rs:274-279 | no own ensures; undoes `Add` and equals adding the negation, by `EnginePrimitives.Vec4SubUndoesAdd` |
| EnginePrimitives.Vec4.MulScalar | src/engine/primitives.rs:248-255 | no own ensures; `DivScalar` by the same non-zero factor undoes it, by `EnginePrimitives.Vec4ScaleAndDot` |
| EnginePrimitives.Vec4.DivScalar | src/engine/primitives.rs:257-264 | no own ensures; undoes `MulScalar` by the same non-zero factor, by `EnginePrimitives.Vec4ScaleAndDot` |
| EnginePrimitives.Vec4.Neg | src/engine/primitives.rs:295-300 | no own ensures; an involution equal to scaling by -1, by `EnginePrimitives.Vec4ScaleAndDot` |
| EnginePrimitives.Vec4ScaleAndDot | src/engine/primitives.rs:227-300 | `div_scalar` undoes `mul_scalar`, negation is an involution equal to scaling by -1, `dot` is symmetric and scales with its argument, and `length` is the library square root of `length_squared` |
| EnginePrimitives.Vec4SubUndoesAdd | src/engine/primitives.rs:267-279 | subtracting undoes adding; adding the negation is subtracting |
| EnginePrimitives.DoubledSigns | src/engine/primitives.rs:409-432 | sign rules of the doubled products in `to_mat3` |
| EnginePrimitives.Quat.Normalize | src/engine/primitives.rs:322-329 | a zero-length quaternion is returned unchanged |
| EnginePrimitives.Quat.Conjugate | src/engine/primitives.rs:344-351 | the vector part is negated and w is kept |
| EnginePrimitives.Quat.Inverse | src/engine/primitives.rs:335-342 | a quaternion of zero norm is returned unchanged; any other gives the conjugate divided by the squared norm |
| EnginePrimitives.Quat.Dot | src/engine/primitives.rs:331-333 | no own ensures; symmetric and never negative on the diagonal, by `EnginePrimitives.QuatArithmetic`; `Inverse` branches on it |
| EnginePrimitives.Quat.Length | src/engine/primitives.rs:318-320 | no own ensures; the library square root of the squared norm, by `EnginePrimitives.QuatArithmetic` |
| EnginePrimitives.Quat.Scale | src/engine/primitives.rs:441-451 | no own ensures; `Div` by the same non-zero factor undoes it, by `EnginePrimitives.QuatArithmetic` |
| EnginePrimitives.Quat.Div | src/engine/primitives.rs:453-463 | no own ensures; undoes `Scale` by the same non-zero factor, by `EnginePrimitives.QuatArithmetic` |
| EnginePrimitives.Quat.Add | src/engine/primitives.rs:465-475 | no own ensures; `Sub` undoes it, by `EnginePrimitives.QuatArithmetic` |
| EnginePrimitives.Quat.Sub | src/engine/primitives.rs:477-487 | no own ensures; undoes `Add` and equals adding the negation, by `EnginePrimitives.QuatArithmetic` |
| EnginePrimitives.Quat.Neg | src/engine/primitives.rs:489-499 | no own ensures; an involution equal to scaling by -1, by `EnginePrimitives.QuatArithmetic` |
| EnginePrimitives.QuatArithmetic | src/engine/primitives.rs:441-499 | subtraction undoes addition, division undoes scaling, negation is an involution, and `dot` is symmetric and never negative on the diagonal, with `length` its square root |
| EnginePrimitives.Quat.Mul | src/engine/primitives.rs:353-360 | no own ensures; `IDENTITY` is a two-sided unit (`QuatIdentityIsUnit`), conjugation reverses products (`QuatConjugateOfProduct`) and a non-zero quaternion times its inverse is `IDENTITY` (`QuatMulInverse`) |
| EnginePrimitives.Quat.RotateVec3 | src/engine/primitives.rs:362-366 | no own ensures; fixes the zero vector, and `IDENTITY` fixes every vector (`QuatRotateFixedPoints`) |
| EnginePrimitives.Quat.Lerp | src/engine/primitives.rs:383-385 | no own ensures; the normalized endpoints at t = 0 and t = 1, by `QuatLerpEndpoints` |
| EnginePrimitives.Quat.FromAxisAngle | src/engine/primitives.rs:368-381 | the vector part is parallel to the axis (its cross product with the axis is zero) for every library; the result is a unit quaternion when the axis is non-zero, the library's square root is exact on it and sin² + cos² = 1 at angle/2 |
| EnginePrimitives.AxisAngleParts | src/engine/primitives.rs:368-381 | the normalized axis times any factor s is parallel to the axis, and its squared length is s² when the square root of the axis length is exact |
| EnginePrimitives.Quat.ToMat3 | src/engine/primitives.rs:409-432 | the result is a 3x3 matrix |
| EnginePrimitives.QuatConjugateInvolution | src/engine/primitives.rs:344-351 | conjugating twice gives back the quaternion |
| EnginePrimitives.QuatIdentityIsUnit | src/engine/primitives.rs:353-360 | `IDENTITY` is a left and right unit of `mul` |
| EnginePrimitives.QuatConjugateOfProduct | src/engine/primitives.rs:344-360 | the conjugate of a product is the product of the conjugates in reverse order |
| EnginePrimitives.QuatMulInverse | src/engine/primitives.rs:335-360 | a quaternion of nonzero norm times its inverse, in either order, is `IDENTITY` |
| EnginePrimitives.QuatRotateFixedPoints | src/engine/primitives.rs:362-366 | the identity rotates nothing, and no rotation moves the zero vector |
| EnginePrimitives.QuatLerpEndpoints | src/engine/primitives.rs:383-385 | `lerp` at t = 0 and t = 1 gives the normalized endpoints, and between equal quaternions it gives the normalized quaternion |
| EnginePrimitives.QuatFromAxisAngleZero | src/engine/primitives.rs:368-381 | the zero angle gives `IDENTITY` |
| EnginePrimitives.QuatToMat3OfIdentity | src/engine/primitives.rs:409-432 | `IDENTITY` gives the identity matrix |
| EnginePrimitives.QuatToMat3OfConjugate | src/engine/primitives.rs:409-432 | the conjugate's matrix is the transpose of the quaternion's matrix |
| EnginePrimitives.MulMat3 | src/engine/primitives.rs:528-542 | every entry is the row-by-column sum |
| EnginePrimitives.MulMat4 | src/engine/primitives.rs:607-621 | every entry is the row-by-column sum |
| EnginePrimitives.MulVecIdentity | src/engine/primitives.rs:520-526 | the identity matrices leave every vector unchanged under `mul_vec3` and `mul_vec4` |
| EnginePrimitives.Mat3MulVec3 | src/engine/primitives.rs:520-526 | no own ensures; the identity leaves every vector unchanged (`MulVecIdentity`) |
| EnginePrimitives.Mat4MulVec4 | src/engine/primitives.rs:598-605 | no own ensures; the identity leaves every vector unchanged (`MulVecIdentity`), and the TRS matrix moves points but not directions (`TrsPointsAndDirections`, `TrsTranslates`) |
| EnginePrimitives.TrsLayout | src/engine/primitives.rs:579-596 | row 3 is (translation, 1) and column 3 above it is zero |
| EnginePrimitives.FromTransform | src/engine/primitives.rs:579-596 | the loop fills the matrix with the rotation matrix scaled column-wise, the translation in row 3, and (0, 0, 0, 1) in column 3 |
| EnginePrimitives.ScaledRotationRows | src/engine/primitives.rs:581-588 | the loop turns rows 0 to 2 of the zero matrix into the rotation rows scaled column by column and leaves row 3 zero |
| EnginePrimitives.TrsTranslates | src/engine/primitives.rs:598-605 | `mul_vec4` adds w times the translation, and w is kept |
| EnginePrimitives.TrsPointsAndDirections | src/engine/primitives.rs:579-605 | a point (w = 1) is rotated, scaled and translated; a direction (w = 0) is not translated |
| EnginePrimitives.TrsOfIdentityRotation | src/engine/primitives.rs:579-605 | with identity rotation and unit scale the matrix only translates, and with zero translation too it is the identity |
| RenderMesh.FaceNormals | src/engine/render/mesh.rs:47-58 | one face normal per index triple, in order |
| RenderMesh.AccumulatedKeepsPositions | src/engine/render/mesh.rs:42-68 | accumulating normals never moves a vertex |
| RenderMesh.ZeroNormals | src/engine/render/mesh.rs:43-45 | positions are kept and every normal becomes zero |
| RenderMesh.NormalizeNormals | src/engine/render/mesh.rs:64-67 | positions are kept and every normal is its own normalization |
| RenderMesh.AccumulatedIsCornerSum | src/engine/render/mesh.rs:47-63 | after the face loop, each vertex's normal is the sum of the face normals of every triangle corner that names it |
| RenderMesh.CornerSumOfUnreferenced | src/engine/render/mesh.rs:47-63 | a vertex that no index names collects the zero vector |
| RenderMesh.SmoothNormalsFacts | src/engine/render/mesh.rs:42-68 | `generate_normals` keeps positions; each normal is the normalized sum of the face normals around its vertex; unreferenced vertices get a zero normal |
| RenderMesh.TriangleIndicesAt | src/engine/render/mesh.rs:47-50 | the flattened index buffer holds triangle t's corners at 3t, 3t+1 and 3t+2 |
| RenderMesh.TriangleIndicesAppend | src/engine/render/mesh.rs:159-222 | flattening distributes over concatenation, so each loop of a generator appends its own triangles |
| RenderMesh.TrianglesAreValid | src/engine/render/mesh.rs:42-68 | triangles whose corners are all below the vertex count make an index buffer that `generate_normals` can index without panicking |
| RenderMesh.CubePositions | src/engine/render/mesh.rs:71-85 | the cube's 8 vertices are the corners (plus or minus 0.5), each with a zero normal |
| RenderMesh.CubeIndexBuffer | src/engine/render/mesh.rs:87-94 | 36 indices, all below 8 |
| RenderMesh.CubeIndexLiteral | src/engine/render/mesh.rs:87-94 | the index buffer is exactly the source's literal |
| RenderMesh.CubeFacesArePlanar | src/engine/render/mesh.rs:71-94 | the two triangles of each face lie in that face's plane |
| RenderMesh.CubeWindingIsOutward | src/engine/render/mesh.rs:71-94 | every triangle's face normal points out of the cube along its face's axis |
| RenderMesh.CubeIsClosed | src/engine/render/mesh.rs:87-94 | every directed edge of the cube has its reverse in another triangle, so the surface is closed and consistently wound |
| RenderMesh.CubeFaceNormals | src/engine/render/mesh.rs:71-100 | when sqrt(1) = 1, the normalized face normal of each triangle is its face's axis |
| RenderMesh.ConeVertices | src/engine/render/mesh.rs:103-121 | the apex, the base centre and n rim vertices |
| RenderMesh.ConeIndexBuffer | src/engine/render/mesh.rs:123-135 | 6n indices, all below n + 2 |
| RenderMesh.ConeFans | src/engine/render/mesh.rs:123-135 | the first n triangles fan around the apex, the next n around the base centre, and each rim edge is shared by one side and one base triangle |
| RenderMesh.ConeIsClosed | src/engine/render/mesh.rs:123-135 | for 2 or more segments every directed edge has its reverse in another triangle |
| RenderMesh.DegenerateFaceNormal | src/engine/render/mesh.rs:52-58 | a triangle with two equal corner positions has a zero face normal |
| RenderMesh.CylinderVertices | src/engine/render/mesh.rs:147-157 | four rings of n vertices each |
| RenderMesh.CylinderRingsAt | src/engine/render/mesh.rs:147-157 | vertex b*n + i is point i of ring b |
| RenderMesh.CylinderAxisRings | src/engine/render/mesh.rs:148-155 | the radius-0 rings collapse onto the axis points (0, -0.5, 0) and (0, 0.5, 0) |
| RenderMesh.CylinderTriangles | src/engine/render/mesh.rs:159-222 | 8n triangles: two loops of 2 per segment, then one loop of 4 |
| RenderMesh.CylinderTriangleAt | src/engine/render/mesh.rs:159-222 | triangle `kind` of segment i sits at its computed slot in the buffer |
| RenderMesh.SlotRoundTrip | src/engine/render/mesh.rs:159-222 | every buffer slot belongs to exactly one (kind, segment) pair |
| RenderMesh.CylinderIndexBuffer | src/engine/render/mesh.rs:159-222 | 24n indices, all below 4n |
| RenderMesh.CylinderDegenerateTriangles | src/engine/render/mesh.rs:159-222 | half the cylinder's triangles (the ones touching an axis ring twice) have a zero face normal |
| RenderMesh.CylinderEdgeTwin | src/engine/render/mesh.rs:159-222 | every directed edge of a cylinder triangle has its reverse in a triangle of another kind |
| RenderMesh.CylinderIsClosed | src/engine/render/mesh.rs:159-222 | the cylinder's surface is closed and consistently wound |
| RenderMesh.SphereVertices | src/engine/render/mesh.rs:231-254 | (n+1)^2 vertices, one row of n+1 per latitude |
| RenderMesh.SphereRowsAt | src/engine/render/mesh.rs:231-254 | vertex y*(n+1) + x is the point at latitude y and longitude x |
| RenderMesh.SphereNormals | src/engine/render/mesh.rs:250-252 | each vertex's normal is its position normalized |
| RenderMesh.SphereNorthPole | src/engine/render/mesh.rs:231-248 | when sin 0 = 0 and cos 0 = 1, the first row is all at (0, 1, 0) |
| RenderMesh.SphereSeam | src/engine/render/mesh.rs:235-248 | when sine and cosine repeat at TAU, the first and last vertex of each row coincide |
| RenderMesh.SphereIndexBound | src/engine/render/mesh.rs:256-266 | every index the quad loop computes is below (n+1)^2, which fits in `u16` for n up to 255 |
| RenderMesh.SphereQuadShape | src/engine/render/mesh.rs:259-266 | each quad is two triangles that share their diagonal in opposite directions |
| RenderMesh.SphereIndexBuffer | src/engine/render/mesh.rs:256-268 | 6n^2 indices, all below (n+1)^2 |
| RenderMesh.Mesh.constructor | src/engine/render/mesh.rs:34-36 | `Mesh::new` stores its vertices and indices |
| RenderMesh.Mesh.Default | src/engine/render/mesh.rs:24-31 | the default mesh is empty |
| RenderMesh.Mesh.IndexCount | src/engine/render/mesh.rs:38-40 | the draw count is the number of indices whenever that number fits in `u32` |
| RenderMesh.Mesh.GenerateNormals | src/engine/render/mesh.rs:42-68 | the indices are unchanged and the vertices become the smooth-normal function of the old vertices |
| RenderMesh.Mesh.AddFaceNormal | src/engine/render/mesh.rs:48-62 | one face's normal is added to its three corners |
| RenderMesh.Mesh.ResetNormals | src/engine/render/mesh.rs:43-45 | the first loop: indices unchanged, vertices become `ZeroNormals` of the old ones |
| RenderMesh.Mesh.AccumulateFaceNormals | src/engine/render/mesh.rs:47-63 | the face loop: indices unchanged, vertices become the accumulation of every face normal, in triangle order |
| RenderMesh.Mesh.NormalizeEachNormal | src/engine/render/mesh.rs:64-67 | the last loop: indices unchanged, vertices become `NormalizeNormals` of the old ones |
| RenderMesh.Mesh.Cube | src/engine/render/mesh.rs:70-100 | the cube mesh: the literal index buffer (valid for 8 vertices) and smooth normals over the corner vertices |
| RenderMesh.Mesh.Cone | src/engine/render/mesh.rs:102-141 | the cone mesh: its triangle list as indices (valid for n + 2 vertices) and smooth normals over its vertices |
| RenderMesh.Mesh.ConeRim | src/engine/render/mesh.rs:104-121 | the vertex pushes of `cone` give exactly `ConeVertices`: tip, base centre, then the rim |
| RenderMesh.Mesh.ConeFanIndices | src/engine/render/mesh.rs:123-135 | the index loop builds the cone's triangle list |
| RenderMesh.Mesh.ConeSideFan | src/engine/render/mesh.rs:123-128 | the first loop emits the side fan, one triangle per segment from the tip |
| RenderMesh.Mesh.ConeBaseFan | src/engine/render/mesh.rs:130-135 | the second loop completes the list with the base fan |
| RenderMesh.Mesh.Cylinder | src/engine/render/mesh.rs:143-225 | the cylinder mesh: its three index loops (valid for 4n vertices) and smooth normals over its four rings |
| RenderMesh.Mesh.CylinderRingVertices | src/engine/render/mesh.rs:147-156 | the three nested vertex loops give exactly `CylinderVertices` |
| RenderMesh.Mesh.AppendRing | src/engine/render/mesh.rs:149-154 | the innermost loop appends one ring of n vertices |
| RenderMesh.Mesh.CylinderFirstEnd | src/engine/render/mesh.rs:158-172 | the first index loop gives the first two triangles of every segment, in order |
| RenderMesh.Mesh.CylinderSecondEnd | src/engine/render/mesh.rs:175-189 | the second index loop appends the next two triangles of every segment, in order |
| RenderMesh.Mesh.CylinderWalls | src/engine/render/mesh.rs:191-219 | the wall loop appends four triangles per segment |
| RenderMesh.Mesh.Sphere | src/engine/render/mesh.rs:227-271 | the sphere mesh: (n+1)^2 vertices with position-derived normals and 6n^2 valid indices |
| RenderMesh.Mesh.SphereRowVertices | src/engine/render/mesh.rs:231-254 | the nested vertex loops give exactly `SphereVertices`, row by row |
| RenderMesh.Mesh.SphereVertexAt | src/engine/render/mesh.rs:236-252 | the inner body builds the vertex at latitude y and longitude x, with its normalized position as normal |
| RenderMesh.Mesh.AppendQuadRow | src/engine/render/mesh.rs:258-267 | the inner index loop appends the two triangles of every quad in row y, in order |
| RenderMesh.Mesh.AppendSphereRow | src/engine/render/mesh.rs:235-253 | the inner vertex loop appends one latitude row |
| RenderMesh.Mesh.SphereQuadIndices | src/engine/render/mesh.rs:256-268 | the index loops build the sphere's triangle list |
| EnginePrimitives.MeshDefaultAndNew | src/engine/primitives.rs:639-657 | `Mesh::default` is `Mesh::new` of two empty buffers, and `Mesh::new` of a mesh's own buffers gives that mesh back |
| EnginePrimitives.Mesh.New | src/engine/primitives.rs:653-657 | both buffers are kept as given |
| ObjectsCube.CreateCube | src/engine/objects.rs:4-24 | 8 corners and 24 line indices, all below 8 |
| ObjectsCube.DifferingCoordinates | src/engine/objects.rs:6-15 | the count is at most 3, and 0 exactly when the points are equal |
| ObjectsCube.CubeEdgeIsCubeEdge | src/engine/objects.rs:6-21 | every index pair joins two distinct corners that differ in exactly one coordinate, by 1 |
| ObjectsCube.CubeEdgesAreDistinct | src/engine/objects.rs:17-21 | no two of the 12 lines join the same pair of corners, in either direction |
| ObjectsCube.CubeCornersHaveDegreeThree | src/engine/objects.rs:17-21 | every corner is an endpoint of exactly three lines |
| RenderTransform.Transform.Default | src/engine/render/transform.rs:10-18 | position zero, rotation (0, 0, 0, 1), scale (1, 1, 1) |
| RenderTransform.Transform.New | src/engine/render/transform.rs:20-23 | the three arguments are stored unchanged |
| RenderTransform.Transform.ModelMatrix | src/engine/core/primitives.rs:569-580 | a 4x4 matrix with row 3 = (0, 0, 0, 1) and the position in column 3 |
| RenderTransform.DefaultModelMatrixIsIdentity | src/engine/render/transform.rs:10-18 | the default transform's matrix is the identity |
| RenderTransform.TranslationOnlyModelMatrix | src/engine/render/transform.rs:20-23 | with no rotation and unit scale, the matrix differs from the identity only in the translation column |
| RenderCamera.ViewLayout | src/engine/render/camera.rs:46-55 | the written-out view matrix is 4x4 |
| RenderCamera.ViewMatrixLayout | src/engine/render/camera.rs:42-56 | column 3 is (0, 0, 0, 1), and the upper block is the orientation's own rotation matrix |
| RenderCamera.ViewLayoutMapsEyeToOrigin | src/engine/render/camera.rs:43-55 | for any rotation matrix, the layout built from its transpose takes the eye to the origin |
| RenderCamera.ViewMapsEyeToOrigin | src/engine/render/camera.rs:42-56 | when cleaning leaves the position alone, the view matrix takes the camera's position to the origin |
| RenderCamera.ViewOfUnrotatedCamera | src/engine/render/camera.rs:42-56 | with the identity orientation the view matrix is a pure translation by the negated position |
| RenderCamera.RotateByZeroAngle | src/engine/render/camera.rs:86-99 | turning by the zero angle only normalizes the orientation |
| RenderCamera.MoveKeepsStablePosition | src/engine/render/camera.rs:74-84 | every move ends on a position that cleaning leaves alone, and a zero move changes nothing |
| RenderCamera.Camera.constructor | src/engine/render/camera.rs:25-40 | `new` stores its five arguments |
| RenderCamera.Camera.Default | src/engine/render/camera.rs:12-23 | the fixed start pose, a 90-degree field of view, and planes at 0.1 and 100; the start position is already clean |
| RenderCamera.Camera.GetViewMatrix | src/engine/render/camera.rs:42-56 | the layout facts above, and the eye maps to the origin |
| RenderCamera.Camera.UnrotatedAxes | src/engine/render/camera.rs:62-72 | without rotation, right, up and forward are X, Y and -Z |
| RenderCamera.Camera.Right | src/engine/render/camera.rs:62-64 | no own ensures; X when there is no rotation (`UnrotatedAxes`); `MoveRight` and `RotatePitch` use it |
| RenderCamera.Camera.Up | src/engine/render/camera.rs:66-68 | no own ensures; Y when there is no rotation (`UnrotatedAxes`); `MoveUp` and `RotateYaw` use it |
| RenderCamera.Camera.Forward | src/engine/render/camera.rs:70-72 | no own ensures; -Z when there is no rotation (`UnrotatedAxes`); `MoveForward` and `RotateRoll` use it |
| RenderCamera.TurnedAbout | src/engine/render/camera.rs:86-99 | no own ensures; turning by the zero angle only renormalizes (`RotateByZeroAngle`) |
| RenderCamera.Camera.MoveRight | src/engine/render/camera.rs:74-76 | the position moves along `right()` by `dist`; nothing else changes |
| RenderCamera.Camera.MoveUp | src/engine/render/camera.rs:78-80 | the position moves along `up()` by `dist`; nothing else changes |
| RenderCamera.Camera.MoveForward | src/engine/render/camera.rs:82-84 | the position moves along `forward()` by `dist`; nothing else changes |
| RenderCamera.Camera.RotatePitch | src/engine/render/camera.rs:86-89 | the orientation is pre-multiplied by the turn about the old right axis and normalized; nothing else changes |
| RenderCamera.Camera.RotateYaw | src/engine/render/camera.rs:91-94 | the same, about the old up axis |
| RenderCamera.Camera.RotateRoll | src/engine/render/camera.rs:96-99 | the same, about the old forward axis |
| RendererCamera.LookAt | src/engine/renderer.rs:53-75 | the result is 4x4 with column 3 equal to (0, 0, 0, 1) |
| RendererCamera.LookAtMapsEyeToOrigin | src/engine/renderer.rs:55-73 | the eye goes to the origin |
| RendererCamera.LookAtForward | src/engine/renderer.rs:55-73 | when s and u are orthogonal to f, the direction f is sent along -z |
| RendererCamera.NormalizeKeepsOrthogonal | src/engine/renderer.rs:50 | normalizing keeps a vector orthogonal to whatever it was orthogonal to |
| RendererCamera.Side | src/engine/renderer.rs:50 | the side axis is orthogonal to the viewing direction |
| RendererCamera.TrueUp | src/engine/renderer.rs:51 | the recomputed up axis is orthogonal to the viewing direction |
| RendererCamera.ViewMatrix | src/engine/renderer.rs:48-76 | the view matrix is 4x4 |
| RendererCamera.ViewLooksDownMinusZ | src/engine/renderer.rs:48-76 | the camera looks down -z: its direction maps onto -z, and its position maps to the origin |
| RendererCamera.Perspective | src/engine/renderer.rs:82-90 | the projection is 4x4 |
| RendererCamera.PerspectiveDepthRange | src/engine/renderer.rs:78-91 | the x scale times the aspect ratio is the y scale; the near plane maps to depth 0 and the far plane to depth w |
| RendererCamera.Camera.constructor | src/engine/renderer.rs:29-46 | `new` stores its six arguments |
| RendererCamera.Camera.Default | src/engine/renderer.rs:16-27 | origin, looking along +z with +y up, 90-degree field of view, planes at 0.1 and 100 |
| RendererCamera.Camera.GetViewMatrix | src/engine/renderer.rs:48-76 | the entry-by-entry writes produce the look-at view matrix |
| RendererCamera.Camera.GetProjectionMatrix | src/engine/renderer.rs:78-91 | the writes over the identity produce the perspective matrix with f = 1/tan(fov/2) |
| RendererCamera.Camera.MoveForward | src/engine/renderer.rs:93-95 | position plus direction times dist; nothing else changes |
| RendererCamera.Camera.MoveBackward | src/engine/renderer.rs:97-99 | position minus direction times dist; nothing else changes |
| RendererCamera.Camera.MoveRight | src/engine/renderer.rs:101-104 | position plus the normalized `direction x up` times dist; nothing else changes |
| RendererCamera.Camera.MoveLeft | src/engine/renderer.rs:106-109 | position minus the same; nothing else changes |
| RendererCamera.Camera.Right | src/engine/renderer.rs:101-117 | the normalized `direction × up` of the sideways moves and the pitch is orthogonal to both the direction and up |
| RendererCamera.Camera.RotateYaw | src/engine/renderer.rs:111-114 | the direction is turned about `up`; nothing else changes |
| RendererCamera.Camera.RotatePitch | src/engine/renderer.rs:116-121 | the direction is turned about the old right axis and normalized; nothing else changes |
| RendererCamera.MoveRoundTrip | src/engine/renderer.rs:93-99 | moving forward then backward by the same distance, or the reverse, returns to the start |
| RendererCamera.YawByZeroAngle | src/engine/renderer.rs:111-114 | a zero-angle yaw leaves the direction unchanged |
| Ecs.NewEntity | src/engine/ecs.rs:16-20 | the given id and name, the default transform, and an empty mesh |
| Ecs.ECS.constructor | src/engine/ecs.rs:28-33 | the counter starts at 0, there are no entities, and the invariant holds |
| Ecs.ECS.CreateEntity | src/engine/ecs.rs:35-64 | the entity gets the old counter as id and carries the given name, transform and mesh; the counter goes up by 1; the entity is appended after the unchanged old list; exactly one renderable, for that id, is pushed onto the scene; the invariant is kept |
| Ecs.IdsIncreaseAndAreFresh | src/engine/ecs.rs:42-43 | ids strictly increase along the list, so none repeats, and the next id is unused |
| Factory.Triangles | src/engine/factory.rs:14-33 | one triangle per index triple; triangle k has the vertices that indices 3k, 3k+1 and 3k+2 name |
| Factory.CornersOfTriangles | src/engine/factory.rs:14-33 | reading the triangles back corner by corner gives, in order, the vertex each index names |
| Factory.CreateRenderableMesh | src/engine/factory.rs:8-81 | with indices: one triangle per triple, triangle k holds the vertices indices 3k, 3k+1 and 3k+2 name, reading the corners back gives the indexed vertices in order, and the draw count is the number of indices; without: no triangles and the draw count is the number of vertices (both when the count fits in `u32`) |
| Coordinates.Coords.Plus | src/primitives.rs:38-42 | each coordinate gains the other's |
| Coordinates.Coords.Minus | src/primitives.rs:44-48 | each coordinate loses the other's |
| Coordinates.Coords.Times | src/engine/objects/primitives.rs:152-156 | unit factors change nothing, and zero factors give the origin |
| Coordinates.PlusMinusInverse | src/primitives.rs:38-62 | subtracting undoes adding, and adding undoes subtracting |
| LegacyPrimitives.Point.constructor | src/primitives.rs:1-2 | the tuple constructor stores its three fields |
| LegacyPrimitives.Point.Default | src/primitives.rs:4-8 | the default point is the origin |
| LegacyPrimitives.Point.AddVector | src/primitives.rs:38-42 | the point moves by the vector |
| LegacyPrimitives.Point.SubtractVector | src/primitives.rs:44-48 | the point moves back by the vector |
| LegacyPrimitives.Point.AddPoint | src/primitives.rs:52-56 | the other point's old coordinates are added, even when it is the same point |
| LegacyPrimitives.Point.SubtractPoint | src/primitives.rs:58-62 | the other point's old coordinates are subtracted |
| LegacyPrimitives.Point.ToVec3 | src/primitives.rs:64-66 | a new vector with the same coordinates |
| LegacyPrimitives.Point.Set | src/primitives.rs:68-72 | the point takes the other's coordinates |
| LegacyPrimitives.Vec3.constructor | src/primitives.rs:10-11 | the tuple constructor stores its three fields |
| LegacyPrimitives.Vec3.Default | src/primitives.rs:13-17 | the default vector is zero |
| LegacyPrimitives.Vec3.AddVector | src/primitives.rs:80-84 | the other vector's old coordinates are added |
| LegacyPrimitives.Vec3.SubtractVector | src/primitives.rs:86-90 | the other vector's old coordinates are subtracted |
| LegacyPrimitives.Vec3.ToPoint | src/primitives.rs:94-96 | a new point with the same coordinates |
| LegacyPrimitives.Vec3.Set | src/primitives.rs:98-102 | the vector takes the other's coordinates |
| LegacyPrimitives.LegacyTestValues | src/tests.rs:7-68 | the sums and differences the tests expect |
| ObjectPrimitives.RoundToThreshold | src/utils.rs:1-6 | the result is within half a thousandth of the input |
| ObjectPrimitives.RoundToThresholdIdempotent | src/utils.rs:3-6 | rounding twice is rounding once, and zero stays zero |
| ObjectPrimitives.RoundToThresholdNear | src/utils.rs:3-6 | a value within half a thousandth of k/1000 rounds to k/1000 |
| ObjectPrimitives.RotatePairByZero | src/engine/objects/primitives.rs:122-150 | a zero-degree turn only rounds the two coordinates |
| ObjectPrimitives.RotatePairQuarterTurn | src/engine/objects/primitives.rs:122-150 | a 90-degree turn maps (a, b) to (-b, a), rounded |
| ObjectPrimitives.RotatePair | src/engine/objects/primitives.rs:122-150 | no own ensures; a zero turn only rounds (`RotatePairByZero`) and a quarter turn maps (a, b) to (-b, a) (`RotatePairQuarterTurn`) |
| ObjectPrimitives.ObjectTestValues | src/tests.rs:84-114 | the 90-degree rotation tests hold whenever sine and cosine at 90 degrees are within half a thousandth of 1 and 0, and the `scale` test's product is as expected |
| ObjectPrimitives.Point.constructor | src/engine/objects/primitives.rs:52-54 | `Point::new` stores its arguments |
| ObjectPrimitives.Point.Default | src/engine/objects/primitives.rs:25-29 | the default point is the origin |
| ObjectPrimitives.Point.AddVector | src/engine/objects/primitives.rs:32-36 | the point moves by the vector |
| ObjectPrimitives.Point.SubtractVector | src/engine/objects/primitives.rs:38-42 | the point moves back by the vector |
| ObjectPrimitives.Point.Set | src/engine/objects/primitives.rs:44-48 | the point takes the three given coordinates |
| ObjectPrimitives.Point.AddPoint | src/engine/objects/primitives.rs:56-60 | the other point's old coordinates are added |
| ObjectPrimitives.Point.SubtractPoint | src/engine/objects/primitives.rs:62-66 | the other point's old coordinates are subtracted |
| ObjectPrimitives.Point.ToVec3 | src/engine/objects/primitives.rs:68-70 | a new vector with the same coordinates |
| ObjectPrimitives.Vec3.constructor | src/engine/objects/primitives.rs:114-116 | `Vec3::new` stores its arguments |
| ObjectPrimitives.Vec3.Default | src/engine/objects/primitives.rs:87-91 | the default vector is zero |
| ObjectPrimitives.Vec3.AddVector | src/engine/objects/primitives.rs:94-98 | the other vector's old coordinates are added |
| ObjectPrimitives.Vec3.SubtractVector | src/engine/objects/primitives.rs:100-104 | the other vector's old coordinates are subtracted |
| ObjectPrimitives.Vec3.Set | src/engine/objects/primitives.rs:106-110 | the vector takes the three given coordinates |
| ObjectPrimitives.Vec3.ToPoint | src/engine/objects/primitives.rs:118-120 | a new point with the same coordinates |
| ObjectPrimitives.Vec3.RotateXY | src/engine/objects/primitives.rs:122-130 | x and y are turned by `angle` degrees and rounded to thousandths; z is untouched |
| ObjectPrimitives.Vec3.RotateYZ | src/engine/objects/primitives.rs:132-140 | y and z are turned and rounded; x is untouched |
| ObjectPrimitives.Vec3.RotateXZ | src/engine/objects/primitives.rs:142-150 | x and z are turned and rounded; y is untouched |
| ObjectPrimitives.Vec3.Scale | src/engine/objects/primitives.rs:152-156 | each coordinate is multiplied by its own factor |

## Left out

- The GPU side is not modelled. This covers buffers, bind groups, pipelines, surfaces, `draw`, `render`, `resize`, window and input handling, and the application loop.
- `src/engine/renderer/renderer.rs` and `src/engine/scene.rs` are not part of this model.
- The `draw` methods of both `Point`/`Vec3` generations print or record GPU commands. They are not modelled.
- The values of `sqrt`, `sin`, `cos` and `tan` are not modelled. They are parameters, and lemmas that need a value state it in their `requires`.
- `f32` rounding, infinities and NaN are not modelled. Every `f32` operation is exact over reals. `f32::round` is the one exception: it is modelled exactly.
- `Quat::slerp` (both libraries) is not modelled, because its `acos` and branch on the dot product have no counterpart here.
- The commented-out `Vec2` and `Vec4` of `engine/core/primitives.rs` are not modelled.
- `RenderCamera.Camera`: `get_projection_matrix` is not modelled. It calls `Mat4::perspective`, and engine/core/primitives.rs does not define it.
- `RenderMesh.Mesh.Sphere`: requires at least one segment. With zero segments, `y / segments` is 0/0, which is NaN in `f32`.
- `RenderMesh.Mesh.Sphere`: requires at most 255 segments. Above that, indices no longer fit in `u16`.
- `RenderMesh.Mesh.Cone`: segment counts whose indices would overflow `u16` are excluded by `requires`. The same goes for `RenderMesh.Mesh.Cylinder`. Overflow is a panic in a debug build.
- `RendererCamera.Camera.GetProjectionMatrix` requires a nonzero tangent, a nonzero aspect ratio and `near != far`. Otherwise `f32` would give an infinity or NaN.
- `Ecs.ECS.CreateEntity`: requires the counter to be below `usize::MAX`. At that point `next_id += 1` panics.
- `Ecs.ECS.CreateEntity`: the renderable pushed onto the scene records only the entity id.
- The source passes `entity.id` and the entity itself where `create_renderable_mesh` expects vertices and indices. The signatures do not match, so the model does not connect the two calls.
- `Ecs`: the `Transform` of entities is a type parameter. `src/engine/transform.rs` imports names that `objects::primitives` does not define, so its record cannot be pinned to one type.
- `Factory.CreateRenderableMesh`: requires the index count to be a multiple of 3 and every index to name a vertex. Otherwise `chunk[i]` or `vertices[...]` panics.
- `Factory.CreateRenderableMesh`: models only the triangle list and the draw count; the GPU vertex and index buffers are not modelled.
- `ObjectPrimitives` and `LegacyPrimitives`: Rust's borrow rules forbid passing the receiver as the argument. The model still allows it, and the contracts use the argument's old coordinates.
