# bb::mat4 in Dafny

A model of `bb::mat4`, the 4x4 matrix class of the rendering library. It keeps
sixteen entries in a member array, row by row, with entry (i, j) at index
`4 * i + j`. Its methods rewrite that array in place:

- layout shuffles: `transpose`, `swapHandedness`;
- partial writes: `setRow`, `scale`, `translate`;
- whole-matrix writes: `identity`, `multiply`;
- builders that multiply the matrix by a rotation, a perspective frustum or an
  orthographic projection. `frustum` and `ortho` throw before touching the
  matrix when their extents are degenerate.

The project has two modules.

- `MatrixSpec` (`matrix_spec.dfy`) is the value-level meaning. A `Matrix` is a
  `seq<real>` of length 16, and each function states what one method does to
  the entries (`Transposed`, `SwapHanded`, `Scaled`, `Translated`, `WithRow`,
  `Product`, `Interpolated`, `QuaternionMatrix`, `FrustumMatrix`,
  `OrthoMatrix`). The lemmas relate these functions to each other:
  involutions, neutral elements, the matrix that each in-place write
  multiplies by, orthogonality of a unit quaternion's matrix, and where the
  projections send the corners of their view volumes.
- `Bb` (`mat4.dfy`) is the class. `Mat4` holds `const m: array<real>` of length
  16. Each method is imperative, as in the source: loops over the sixteen
  entries, fixed-index stores, temporaries that are filled and then copied
  back. Each method's `ensures` gives the new entries as a `MatrixSpec`
  function of the old ones.

Floating-point entries are modelled as `real`. The exception thrown by
`frustum` and `ortho` becomes the returned `Outcome` value
`Fail("invalid frustum")` or `Fail("invalid ortho")`.

## Model

| member | source | states |
|---|---|---|
| Bb.Mat4.constructor | bb_lib/mat4.cpp:15-19 | a new matrix has all sixteen entries 0 |
| Bb.Mat4.Copy | bb_lib/mat4.cpp:21-25 | the copy has the same sixteen entries as the original, in fresh storage |
| Bb.Mat4.FillZero | bb_lib/mat4.cpp:16-18 | the zeroing loop sets every entry to 0 |
| Bb.Mat4.CopyFrom | bb_lib/mat4.cpp:36-38 | the copy loop leaves the entries equal to the first sixteen values of the source array as they were before the call, even when the source is the matrix's own array |
| Bb.Mat4.Get | bb_lib/mat4.cpp:31-33 | reading (i, j) returns entry (i, j) of the matrix |
| Bb.Mat4.Set | bb_lib/mat4.cpp:27-29 | writing through (i, j) changes index 4i+j only, and afterwards (i, j) reads back the value written |
| Bb.Mat4.Assign | bb_lib/mat4.cpp:35-41 | after assignment from another matrix the entries equal that matrix's entries |
| Bb.Mat4.AssignArray | bb_lib/mat4.cpp:43-49 | after assignment from a float array the entries are its first sixteen values |
| Bb.Mat4.Equals | bb_lib/mat4.cpp:51-59 | returns true exactly when all sixteen entries agree, in both directions |
| Bb.Mat4.TimesVector | bb_lib/mat4.cpp:61-74 | component i of the result is column i of the matrix times the vector |
| Bb.MultiplyInto | bb_lib/mat4.cpp:76-109 | the product loop leaves the destination equal to a * b, where entry (i, j) is row i of a times column j of b |
| Bb.MultiplyRow | bb_lib/mat4.cpp:82-105 | one turn of the product loop writes the four entries of row i of a * b and leaves the other twelve destination entries unchanged |
| Bb.Mat4.Times | bb_lib/mat4.cpp:76-109 | operator* returns a new matrix equal to this * other and changes neither operand |
| Bb.Mat4.Multiply | bb_lib/mat4.cpp:420-453 | multiply(with) leaves the matrix equal to with * old matrix, even when with is the matrix itself |
| Bb.Mat4.Identity | bb_lib/mat4.cpp:412-418 | the entries become the identity matrix |
| Bb.Mat4.Transpose | bb_lib/mat4.cpp:332-353 | the entries become the transpose of the old entries |
| Bb.Mat4.SwapHandedness | bb_lib/mat4.cpp:305-330 | the entries become SwapHanded of the old entries |
| Bb.Mat4.Scale | bb_lib/mat4.cpp:111-126 | the entries become Scaled of the old entries by s |
| Bb.Mat4.ScaleRow | bb_lib/mat4.cpp:112-115 | the four compound assignments multiply row i by f and leave the other rows unchanged |
| Bb.Mat4.Translate | bb_lib/mat4.cpp:128-133 | the entries become Translated of the old entries by t, so only row 3 changes |
| Bb.Mat4.RotationMatrix | bb_lib/mat4.cpp:136-155 | the temporary of rotate is a fresh matrix holding the rotation matrix of q |
| Bb.Mat4.Rotate | bb_lib/mat4.cpp:135-158 | rotate(q) leaves the matrix equal to QuaternionMatrix(q) * old matrix |
| Bb.Mat4.Frustum | bb_lib/mat4.cpp:246-273 | fails with "invalid frustum" exactly when the guard holds, and then the matrix is unchanged; otherwise it succeeds and the matrix becomes FrustumMatrix * old matrix |
| Bb.Mat4.Ortho | bb_lib/mat4.cpp:282-303 | fails with "invalid ortho" exactly when an extent is zero, and then the matrix is unchanged; otherwise it succeeds and the matrix becomes OrthoMatrix * old matrix |
| Bb.Mat4.Interpolate | bb_lib/mat4.cpp:455-459 | each entry becomes old * (1 - x) + other * x, with both operands taken from before the call, even when other is the matrix itself |
| Bb.Mat4.SetRow | bb_lib/mat4.cpp:499-505 | row r becomes v and the other twelve entries are unchanged |
| MatrixSpec.Identity | bb_lib/mat4.cpp:412-418 | entry (i, j) is 1 when i == j and 0 otherwise; equivalently indices 0, 5, 10 and 15 hold 1 and every other index holds 0 |
| MatrixSpec.Product | bb_lib/mat4.cpp:76-109 | entry (i, j) of a * b is row i of a times column j of b |
| MatrixSpec.ProductIdentityLeft | bb_lib/mat4.cpp:420-453 | multiplying by the identity leaves a matrix unchanged |
| MatrixSpec.ProductIdentityRight | bb_lib/mat4.cpp:76-109 | a matrix times the identity is the matrix |
| MatrixSpec.ProductAssociative | bb_lib/mat4.cpp:420-453 | (a * b) * c == a * (b * c), so successive multiplies compose into one product |
| MatrixSpec.Transposed | bb_lib/mat4.cpp:332-353 | entry (i, j) of the result is entry (j, i) of the input |
| MatrixSpec.TransposeKeepsDiagonal | bb_lib/mat4.cpp:332-353 | transposing leaves the four diagonal entries unchanged |
| MatrixSpec.TransposeInvolution | bb_lib/mat4.cpp:332-353 | transposing twice restores the original matrix |
| MatrixSpec.TransposeOfProduct | bb_lib/mat4.cpp:332-353 | the transpose of a * b is b^T * a^T |
| MatrixSpec.SwapHanded | bb_lib/mat4.cpp:305-330 | the entries at (0, 2), (1, 2), (2, 0), (2, 1), (2, 3) and (3, 2) are negated and the other ten are kept |
| MatrixSpec.SwapHandedIndices | bb_lib/mat4.cpp:305-330 | index k is negated exactly when k is 2, 6, 8, 9, 11 or 14, and every other index is kept |
| MatrixSpec.SwapHandedInvolution | bb_lib/mat4.cpp:305-330 | swapping handedness twice restores the original matrix |
| MatrixSpec.SwapHandedIsMirrorConjugation | bb_lib/mat4.cpp:305-330 | swapping handedness is Z * M * Z, where Z = diag(1, 1, -1, 1) mirrors the z axis |
| MatrixSpec.ScaleEntries | bb_lib/mat4.cpp:111-126 | indices 0 to 3 are multiplied by s.x, 4 to 7 by s.y and 8 to 11 by s.z, and 12 to 15 are unchanged |
| MatrixSpec.ScaleByOne | bb_lib/mat4.cpp:111-126 | scaling by (1, 1, 1) changes nothing |
| MatrixSpec.ScaleIsDiagonalProduct | bb_lib/mat4.cpp:111-126 | scaling in place is multiplying by diag(s.x, s.y, s.z, 1) on the left |
| MatrixSpec.TranslateKeepsFirstRows | bb_lib/mat4.cpp:128-133 | translation leaves indices 0 to 11 unchanged |
| MatrixSpec.TranslateByZero | bb_lib/mat4.cpp:128-133 | translating by the zero vector changes nothing |
| MatrixSpec.TranslateTwice | bb_lib/mat4.cpp:128-133 | translating by t and then by u is translating by t + u |
| MatrixSpec.TranslateIsProduct | bb_lib/mat4.cpp:128-133 | translating in place is multiplying on the left by the identity with t in row 3 |
| MatrixSpec.WithRow | bb_lib/mat4.cpp:499-505 | row r of the result is v, and every entry outside row r is kept |
| MatrixSpec.WithOwnRow | bb_lib/mat4.cpp:499-505 | writing a row back unchanged leaves the matrix as it was |
| MatrixSpec.WithRowTwice | bb_lib/mat4.cpp:499-505 | the later of two writes to the same row wins |
| MatrixSpec.InterpolateAtZero | bb_lib/mat4.cpp:455-459 | interpolating with weight 0 leaves the matrix unchanged |
| MatrixSpec.InterpolateAtOne | bb_lib/mat4.cpp:455-459 | interpolating with weight 1 yields the other matrix |
| MatrixSpec.InterpolateWithItself | bb_lib/mat4.cpp:455-459 | interpolating a matrix with itself changes nothing, whatever the weight |
| MatrixSpec.IdentityQuaternion | bb_lib/mat4.cpp:137-155 | the rotation matrix of the quaternion (0, 0, 0, 1) is the identity |
| MatrixSpec.RotateByIdentityQuaternion | bb_lib/mat4.cpp:135-158 | rotating by (0, 0, 0, 1) leaves the matrix unchanged |
| MatrixSpec.QuaternionRowsOrthonormal | bb_lib/mat4.cpp:137-150 | for a unit quaternion the first three rows of its matrix have length 1 and are pairwise orthogonal |
| MatrixSpec.QuaternionOrthogonal | bb_lib/mat4.cpp:137-155 | for a unit quaternion the rotation matrix times its transpose is the identity |
| MatrixSpec.OrthoMapsCorners | bb_lib/mat4.cpp:294-300 | the ortho matrix sends (left, bottom, -nearZ) to (-1, -1, -1) and (right, top, -farZ) to (1, 1, 1) |
| MatrixSpec.FrustumMapsNearCorner | bb_lib/mat4.cpp:258-270 | the frustum matrix sends (left, bottom, -nearZ) to clip coordinates that become (-1, -1, -1) after division by w |
| MatrixSpec.FrustumMapsFarCorner | bb_lib/mat4.cpp:258-270 | the frustum matrix sends the far top-right corner (right * farZ / nearZ, top * farZ / nearZ, -farZ) to clip coordinates that become (1, 1, 1) after division by w |
| MatrixSpec.TransformIdentity | bb_lib/mat4.cpp:61-74 | the identity matrix transforms every vector to itself |
| MatrixSpec.TransformProduct | bb_lib/mat4.cpp:61-74 | transforming by a * b is transforming by a and then by b |

## Left out

- `inverse` (bb_lib/mat4.cpp:355-410) is not modelled, including its zero-pivot failure. It is Gauss-Jordan elimination with `fabs` partial pivoting, and its result depends on floating-point division. `unproject` calls it.
- `rotate(float angle, vec3 a)`, `lookat` and `perspective` are not modelled. They rely on `sinf`, `cosf`, `tanf`, `sqrtf` and `normalize`, which have no exact counterpart over the reals.
- `project` and `unproject` are not modelled. They depend on `lerp`, divide by the w component, and `unproject` needs `inverse`. math_util.h, vec2.h, vec3.h, vec4.h and mat3.h are not part of this model; `Vec3` and `Vec4` here are plain value types with the components the core reads.
- RenderingContext.cpp is Direct3D device and swap-chain plumbing, and PBREnvironment.h holds declarations only. Neither is part of this model.
- Entries are `real`, not IEEE `float`. Rounding, overflow, NaN and infinity are not modelled, so a NaN entry, which makes `operator==` return false for a matrix compared with itself, has no counterpart.
- Bb.Mat4.Get: the source does not check its indices. The model requires the storage index `4 * i + j` to be one of the sixteen, and out-of-range access has no counterpart.
- Bb.Mat4.Set: the same index requirement as `Get`, for the reference `operator()` returns.
- Bb.Mat4.AssignArray: the source reads sixteen floats through a raw pointer. The model requires an array of at least sixteen entries.
- Bb.Mat4.Translate: the four compound assignments are written as one write of the new row 3. Each of them reads rows 0 to 2 and its own entry of row 3 only, so the effect is the same, but the order of the four stores is not modelled.
- Bb.Mat4.RotationMatrix: the source stores the sixteen entries of the rotation temporary one at a time. The model writes the same values four at a time, through `SetRow`.
- Bb.Mat4.Frustum: the source fills the frustum temporary with single and chained assignments. The model writes the same sixteen values row by row, through `SetRow`.
- Bb.Mat4.Frustum: the `return` after each `throw` is unreachable in the source and has no counterpart. A thrown exception is modelled as a returned `Fail` value.
- Bb.Mat4.Ortho: the `return` after the `throw` is unreachable in the source and has no counterpart. A thrown exception is modelled as a returned `Fail` value.
