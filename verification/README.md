# Math-3d in Dafny

A model of Math-3d, a small C library of value types for 2D/3D graphics:
scalar helpers, `Vec2`/`Vec3`/`Vec4`, quaternions, and row-major 3x3 and 4x4
matrices. Every C function of the library (except the demo program) has a
Dafny counterpart of the same name in a module named after its source file.

- `M3d` (m3d.dfy): the value types, with matrices stored row-major as one field
  per cell `mRC`, read through `At(row, col)`; module `CMath` in the same file
  stands for the C math library.
- `Math1D` (math1d.dfy): `Clamp`, `Lerp`, and the `fmin`/`fmax`/`fabs`/`abs`
  helpers they and `Slerp` use.
- `Vector2`, `Vector3`, `Vector4` (vec2.dfy, vec3.dfy, vec4.dfy): component-wise
  arithmetic, dot, cross, reflect, min/max, lerp, slerp, length, equality.
- `Quaternion` (quat.dfy): Hamilton product, conjugate, rotation of a vector,
  angle/axis, the `AngleVec3`/`Face` case split, `Euler`, `Slerp`.
- `Matrix3`, `Matrix4` (mat3x3.dfy, mat4x4.dfy): identity, orthographic and
  perspective layouts, rotation/scale/translation builders, products,
  conversions, and the homogeneous inverse.
- `Polynomials` (poly.dfy): identities over plain reals that the vector and
  quaternion proofs use.

Modelling choices:

- `M3dValue` (float or double in C) is `real`, so rounding, NaN and infinity
  are abstracted away.
- A division by zero, which C would evaluate to an infinity or NaN, becomes a
  precondition.
- `sin`, `cos`, `tan`, `asin`, `acos`, `atan2` and `sqrt` are fields of a
  `CMath.Libm` value passed as a parameter. A property that depends on their
  values names the fact it needs as a hypothesis: `SqrtAt` says the square root
  is exact, and `OnUnitCircle` says sin² + cos² = 1.
- The builders that take `Mat3x3 *m`, mutate it and return a copy are pure
  functions from the old matrix to the new one. Their contracts give the
  written cells and a frame: every other cell keeps its value.
- The C loops in the matrix products are modelled twice. A method keeps the
  triple loop. A closed-form function writes out every cell. The two are
  proved equal.

## Model

| member | source | states |
|---|---|---|
| M3d.Mat3x3Cells | m3d/m3d.h:44-51 | a 3x3 matrix is determined by its nine cells m[row][col] |
| M3d.Mat4x4Cells | m3d/m3d.h:53-62 | a 4x4 matrix is determined by its sixteen cells m[row][col] |
| Math1D.Clamp | math1D.c:4-7 | the result never exceeds high; with low <= high it lies in [low, high], is v when v is in range, low below it, high above it; with high < low it is high |
| Math1D.ClampIdempotent | math1D.c:4-7 | clamping an already clamped value to the same bounds changes nothing |
| Math1D.ClampExamples | math1D.c:4-7 | 5 in [0,10] stays 5; -5 goes to 0; 15 goes to 10 |
| Math1D.Lerp | math1D.c:9-12 | lerp(a,b,t) - a = t·(b - a) for every t, so t = 0 gives a and t = 1 gives b |
| Vector2.DotSymmetric | vec2.c:17-20 | a·b = b·a |
| Vector2.LengthSqr | vec2.c:27-30 | the squared length is v·v |
| Vector2.LengthSqrNonNegative | vec2.c:27-30 | the squared length is never negative |
| Vector2.Distance | vec2.c:12-15 | the distance measured from b to a equals the length of a - b |
| Vector2.DistanceSymmetric | vec2.c:12-15 | Distance(a,b) = Distance(b,a) |
| Vector2.AngleSymmetric | vec2.c:4-10 | the angle is the same whichever vector comes first (the denominator |a|·|b| is non-zero either way) |
| Vector2.AngleSelf | vec2.c:4-10 | with an exact square root, a non-zero vector is at angle acos(1) from itself |
| Vector2.Lerp | vec2.c:32-37 | r - a = t·(b - a) component-wise, so t = 0 gives a and t = 1 gives b |
| Vector2.Max | vec2.c:39-45 | each component is at least both inputs' and equals one of them |
| Vector2.Min | vec2.c:47-53 | each component is at most both inputs' and equals one of them |
| Vector2.MinBelowMax | vec2.c:39-53 | Min is component-wise below Max, and both are symmetric in their operands |
| Vector2.Normalized | vec2.c:55-59 | scaling the result back by the length gives the input |
| Vector2.NormalizedIsUnit | vec2.c:55-59 | with an exact square root the result has length 1 |
| Vector2.Reflect | vec2.c:61-67 | for n != 0 the reflection negates the component along n and keeps the squared length |
| Vector2.ReflectInvolution | vec2.c:61-67 | reflecting twice about the same n gives back v |
| Vector2.Slerp | vec2.c:69-77 | at t = 0 the result is a, given cos 0 = 1 and sin 0 = 0 |
| Vector2.AddValue | vec2.c:86-91 | adding a scalar adds it to every component |
| Vector2.SubVec2 | vec2.c:93-98 | a - b is the vector that added to b gives a |
| Vector2.SubValue | vec2.c:100-105 | subtracting a scalar subtracts it from every component and is undone by AddValue |
| Vector2.MulValue | vec2.c:114-119 | multiplying by a scalar multiplies every component |
| Vector2.DivVec2 | vec2.c:121-126 | for non-zero components of b, the quotient times b gives a |
| Vector2.DivValue | vec2.c:128-133 | dividing by s != 0 divides every component and is undone by MulValue |
| Vector2.Equal | vec2.c:135-138 | true exactly when both components are equal |
| Vector2.AddSubCancel | vec2.c:79-133 | (a + b) - b = a, and (a·s)/s = a for s != 0 |
| Vector3.DotSymmetric | vec3.c:26-29 | a·b = b·a |
| Vector3.Cross | vec3.c:12-19 | the cross product is orthogonal to both operands |
| Vector3.CrossAntiCommutative | vec3.c:12-19 | a × b = -(b × a) |
| Vector3.CrossBasis | vec3.c:12-19 | x̂ × ŷ = ẑ |
| Vector3.LengthSqr | vec3.c:36-39 | the squared length is v·v |
| Vector3.LengthSqrNonNegative | vec3.c:36-39 | the squared length is never negative |
| Vector3.Distance | vec3.c:21-24 | the distance measured from b to a equals the length of a - b |
| Vector3.DistanceSymmetric | vec3.c:21-24 | Distance(a,b) = Distance(b,a) |
| Vector3.AngleSymmetric | vec3.c:4-10 | the angle is the same whichever vector comes first (the denominator |a|·|b| is non-zero either way) |
| Vector3.AngleSelf | vec3.c:4-10 | with an exact square root, a non-zero vector is at angle acos(1) from itself |
| Vector3.Lerp | vec3.c:41-47 | r - a = t·(b - a) component-wise, so t = 0 gives a and t = 1 gives b |
| Vector3.Max | vec3.c:49-56 | each component is at least both inputs' and equals one of them |
| Vector3.Min | vec3.c:58-65 | each component is at most both inputs' and equals one of them |
| Vector3.MinBelowMax | vec3.c:49-65 | Min is component-wise below Max, and both are symmetric in their operands |
| Vector3.Normalized | vec3.c:67-71 | scaling the result back by the length gives the input |
| Vector3.NormalizedIsUnit | vec3.c:67-71 | with an exact square root the result has length 1 |
| Vector3.Reflect | vec3.c:73-79 | for n != 0 the reflection negates the component along n and keeps the squared length |
| Vector3.ReflectInvolution | vec3.c:73-79 | reflecting twice about the same n gives back v |
| Vector3.ReflectAboutYAxis | vec3.c:73-79 | reflecting about ŷ flips only the y component |
| Vector3.ReflectOffFloor | vec3.c:73-79 | (1,-1,0) reflected about (0,1,0) is (1,1,0) |
| Vector3.Slerp | vec3.c:81-89 | at t = 0 the result is a, given cos 0 = 1 and sin 0 = 0 |
| Vector3.AddValue | vec3.c:99-105 | adding a scalar adds it to every component |
| Vector3.SubVec3 | vec3.c:107-113 | a - b is the vector that added to b gives a |
| Vector3.SubValue | vec3.c:115-121 | subtracting a scalar subtracts it from every component and is undone by AddValue |
| Vector3.MulValue | vec3.c:131-137 | multiplying by a scalar multiplies every component |
| Vector3.DivVec3 | vec3.c:139-145 | for non-zero components of b, the quotient times b gives a |
| Vector3.DivValue | vec3.c:147-153 | dividing by s != 0 divides every component and is undone by MulValue |
| Vector3.Equal | vec3.c:155-158 | true exactly when all three components are equal |
| Vector3.AddSubCancel | vec3.c:91-153 | (a + b) - b = a, and (a·s)/s = a for s != 0 |
| Vector4.AddVec4Algebra | vec4.c:3-10 | addition is commutative and associative with (0,0,0,0) as unit |
| Vector4.AddValue | vec4.c:12-19 | adding a scalar s is adding (s,s,s,s) |
| Vector4.SubVec4 | vec4.c:21-28 | a - b is the vector that added to b gives a |
| Vector4.SubValue | vec4.c:30-37 | subtracting s is subtracting (s,s,s,s), and AddValue undoes it |
| Vector4.MulValue | vec4.c:48-55 | multiplying by s is the component-wise product with (s,s,s,s) |
| Vector4.MulValueDistributes | vec4.c:3-10 | scaling distributes over addition |
| Vector4.DivVec4 | vec4.c:57-64 | for non-zero components of b, the quotient times b gives a |
| Vector4.DivValue | vec4.c:66-73 | dividing by s != 0 is dividing by (s,s,s,s) and is undone by MulValue |
| Vector4.Equal | vec4.c:75-78 | true exactly when all four components are equal |
| Vector4.EqualReflexive | vec4.c:75-78 | every vector equals itself |
| Vector4.AddSubCancel | vec4.c:3-73 | (a + b) - b = a, and (a·s)/s = a for s != 0 |
| Quaternion.ConjugateInvolution | quat.c:47-53 | conjugating twice gives the quaternion back, and the norm is unchanged |
| Quaternion.ConjugateIdentity | quat.c:47-53 | the identity quaternion is its own conjugate |
| Quaternion.MulQuatIdentity | quat.c:148-163 | (0,0,0,1) is a left and right unit of the product |
| Quaternion.MulQuatNotCommutative | quat.c:148-163 | i·j = k while j·i = -k |
| Quaternion.ConjugateOfProduct | quat.c:47-53 | the conjugate of a·b is conj(b)·conj(a) |
| Quaternion.MulConjugate | quat.c:148-163 | q·conj(q) is the real quaternion i² + j² + k² + w² |
| Quaternion.MulQuatNormSqr | quat.c:148-163 | the norm of a product is the product of the norms |
| Quaternion.MulQuatAssociative | quat.c:148-163 | the product is associative |
| Quaternion.SandwichPure | quat.c:81-88 | q·p·conj(q) of a pure quaternion p has real part 0 |
| Quaternion.RotateVec3 | quat.c:81-88 | for unit a, the result is the vector part of a·(b,0)·conj(a) |
| Quaternion.RotateVec3KeepsLength | quat.c:81-88 | rotating by a unit quaternion keeps the squared length |
| Quaternion.RotateVec3Identity | quat.c:81-88 | the identity quaternion leaves every vector unchanged |
| Quaternion.RotateVec3Inverse | quat.c:81-88 | for unit q, rotating by conj(q) and then by q gives v back |
| Quaternion.Angle | quat.c:5-8 | the angle between two quaternions is 2·acos of their 4-component dot product |
| Quaternion.AngleSymmetric | quat.c:5-8 | the angle is the same in either order, and a unit quaternion is at angle 2·acos(1) from itself |
| Quaternion.AngleAxisIsUnit | quat.c:36-45 | a unit axis gives a unit quaternion when sin² + cos² = 1 at r/2 |
| Quaternion.AngleAxisZero | quat.c:36-45 | a zero angle gives the identity quaternion about any axis |
| Quaternion.AngleVec3 | quat.c:12-34 | antiparallel inputs (|dot + 1| < 1e-6) give a half turn about up; otherwise parallel inputs (|dot - 1| < 1e-6) give the identity |
| Quaternion.AngleVec3Same | quat.c:12-34 | a unit vector against itself gives the identity |
| Quaternion.AngleVec3Opposite | quat.c:12-34 | a unit vector against its negation gives the half turn about up, the first test winning |
| Quaternion.AngleVec3IsUnit | quat.c:12-34 | every branch yields a unit quaternion when up is unit and the math library is exact |
| Quaternion.Face | quat.c:69-72 | the case split is on dir.z alone: dir.z within 1e-6 of -1 gives the half turn about up, within 1e-6 of 1 the identity |
| Quaternion.FaceForwardBackward | quat.c:69-72 | facing forward gives the identity; facing backward gives the half turn about up |
| Quaternion.Euler | quat.c:55-67 | the identity quaternion gives the angles atan2(0,1), asin(0), atan2(0,1) |
| Quaternion.Normalized | quat.c:90-98 | scaling the result back by the length gives the input |
| Quaternion.NormalizedIsUnit | quat.c:90-98 | with an exact square root the result is a unit quaternion |
| Quaternion.SlerpGuardIsAbs | quat.c:104-109 | the C test abs((int)c) >= 1 makes the same decision as the real test abs(c) >= 1 |
| Quaternion.Slerp | quat.c:100-126 | returns a when abs(a·b) >= 1, and the midpoint (a + b)/2 when sin of the half angle is below 0.001 |
| Quaternion.SlerpEndpoints | quat.c:100-126 | past both early exits, t = 0 gives a and t = 1 gives b |
| Quaternion.SubQuat | quat.c:138-146 | a - b is the quaternion that added to b gives a |
| Quaternion.MulValueScalesNorm | quat.c:165-173 | scaling by b multiplies the squared length by b² |
| Quaternion.DivValue | quat.c:175-183 | dividing by s != 0 is undone by MulValue |
| Quaternion.Equal | quat.c:185-188 | true exactly when all four components are equal |
| Quaternion.AddSubCancel | quat.c:128-183 | (a + b) - b = a, (a·s)/s = a for s != 0, and scaling is the product with the real quaternion s |
| Matrix3.InitIdentity | mat3x3.c:16-29 | ones on the diagonal, zeros elsewhere |
| Matrix3.InitOrthoCorners | mat3x3.c:31-46 | the ortho matrix maps the corner (r,t) to (1,1) and (l,b) to (-1,-1) |
| Matrix3.InitOrthoCenteredIsOrtho | mat3x3.c:48-58 | the centred ortho matrix is the ortho matrix with bounds ±w/2, ±h/2 |
| Matrix3.InitRotationFromIdentity | mat3x3.c:60-82 | the identity quaternion gives the identity matrix |
| Matrix3.InitRotationFromQuatRotates | mat3x3.c:60-82 | for a unit quaternion the matrix rotates every vector as RotateVec3 does |
| Matrix3.Rotate | mat3x3.c:84-95 | writes cos/sin into the upper-left 2x2 block; the other five cells keep their values |
| Matrix3.RotateIdentity | mat3x3.c:84-95 | on the identity it rotates (x,y) by r about z and keeps the third coordinate |
| Matrix3.Scale | mat3x3.c:97-103 | writes s.x, s.y to [0][0], [1][1]; every other cell keeps its value |
| Matrix3.Translate | mat3x3.c:105-111 | writes t.x, t.y to [0][2], [1][2]; every other cell keeps its value |
| Matrix3.ScaleTranslateIdentity | mat3x3.c:97-111 | on the identity, Scale scales a 2D point and Translate moves it by t |
| Matrix3.FromMat4x4 | mat3x3.c:113-126 | copies exactly the upper-left 3x3 block |
| Matrix3.MulMat3x3RowColumn | mat3x3.c:128-147 | every cell of the product is row i of a times column j of b |
| Matrix3.MulMat3x3Loops | mat3x3.c:128-147 | the triple loop computes the same matrix as the closed form |
| Matrix3.IdentityIsUnit | mat3x3.c:16-29 | the identity is a two-sided unit of the product and fixes every vector |
| Matrix3.MulVec3Compose | mat3x3.c:128-158 | multiplying by a·b is multiplying by b and then by a |
| Matrix3.MulMat3x3Associative | mat3x3.c:128-147 | the product is associative |
| Matrix4.InitIdentity | mat4x4.c:16-29 | ones on the diagonal, zeros elsewhere |
| Matrix4.InitOrthoCorners | mat4x4.c:31-49 | the ortho matrix maps (r,t,f) to (1,1,1) and (l,b,n) to (-1,-1,-1) |
| Matrix4.InitOrthoCenteredVersusOrtho | mat4x4.c:31-65 | the centred matrix is the ortho matrix with bounds ±w/2, ±h/2 except that [2][2] has the opposite sign |
| Matrix4.InitOrthoCenteredFar | mat4x4.c:51-65 | the centred matrix maps (w/2, h/2, -f) to (1,1,1) |
| Matrix4.InitOrthoCenteredNear | mat4x4.c:51-65 | the centred matrix maps (-w/2, -h/2, -n) to (-1,-1,-1) |
| Matrix4.Aspect | mat4x4.c:67-84 | the aspect ratio is non-zero and times h gives w |
| Matrix4.InitPerspectiveDivisor | mat4x4.c:67-84 | the projected w coordinate of (x,y,z,1) is -z |
| Matrix4.InitPerspectiveDepth | mat4x4.c:67-84 | a point at depth -n projects to z = -n, w = n; one at depth -f to z = f, w = f |
| Matrix4.InverseHomogeneousNotInverse | mat4x4.c:86-89 | as written the inverse is the identity, which undoes no matrix with a translation in [0][3] |
| Matrix4.IdentityIsRigid | mat4x4.c:16-29 | the identity is a rotation-plus-position matrix |
| Matrix4.TranslateKeepsRigid | mat4x4.c:135-142 | translating a rotation-plus-position matrix keeps it one |
| Matrix4.InverseRigidIsInverse | m3d/m3d.h:259-261 | for a rotation-plus-position matrix, transposed rotation and back-rotated negated position give its inverse |
| Matrix4.Rotate | mat4x4.c:91-111 | writes the rotation matrix of r into the upper-left 3x3 block; row 3 and column 3 keep their values |
| Matrix4.RotateIsMat3x3Rotation | mat4x4.c:91-111 | the block written is exactly the 3x3 rotation matrix of the quaternion |
| Matrix4.RotateY | mat4x4.c:113-124 | writes cos/sin into [0][0], [0][2], [2][0], [2][2]; every other cell keeps its value |
| Matrix4.RotateYIdentity | mat4x4.c:113-124 | on the identity it rotates about y and keeps y and w |
| Matrix4.Scale | mat4x4.c:126-133 | writes s to the first three diagonal cells; every other cell keeps its value |
| Matrix4.Translate | mat4x4.c:135-142 | writes t to [0..2][3]; every other cell keeps its value |
| Matrix4.ScaleTranslateIdentity | mat4x4.c:126-142 | on the identity, Scale scales a 3D point and Translate moves it by t |
| Matrix4.FromMat3x3 | mat4x4.c:144-162 | embeds m in the upper-left block with row 3 and column 3 set to (0,0,0,1) |
| Matrix4.FromMat3x3RoundTrip | mat4x4.c:144-162 | taking the block back out gives m, and directions (w = 0) are transformed as by m |
| Matrix4.MulMat4x4RowColumn | mat4x4.c:164-183 | every cell of the product is row i of a times column j of b |
| Matrix4.MulMat4x4Loops | mat4x4.c:164-183 | the triple loop computes the same matrix as the closed form |
| Matrix4.IdentityIsUnit | mat4x4.c:16-29 | the identity is a two-sided unit of the product and fixes every vector |
| Matrix4.MulVec4Compose | mat4x4.c:164-195 | multiplying by a·b is multiplying by b and then by a |
| Matrix4.MulMat4x4Associative | mat4x4.c:164-183 | the product is associative |

## Left out

- IEEE floating point: rounding, NaN and infinity, and the float/double build switch (m3d/m3d.h:7-11). Every value is a real.
- Values of the C math functions. They are parameters, so the vector Angle, Slerp, Length, the quaternion Angle, AngleAxis and Euler, and the perspective's cot(fov/2) cells are stated over whatever those functions return.
- Quaternion.AngleVec3: the `float` narrowing of the dot product is not modelled; the 1e-6 tolerance is a real constant. Its general branch (acos and a normalised cross product) is stated only through AngleVec3IsUnit.
- Quaternion.Slerp: the cast of the dot product to int before abs (quat.c:106) is modelled on unbounded integers; C leaves that conversion undefined when |a·b| ≥ 2^31, which the model does not reproduce.
- Quaternion.Slerp: the interpolated value of the third branch is stated only at t = 0 and t = 1 (SlerpEndpoints).
- Vector2.Slerp: stated only at t = 0. The same holds for Vector3.Slerp.
- Vector2.Normalized: the contract is the round trip through the length; unit length needs an exact square root (NormalizedIsUnit). The same holds for Vector3.Normalized and Quaternion.Normalized.
- Matrix3.InitRotationFromIdentity: the identity case takes the quaternion as a parameter equal to (0,0,0,1), which is the same statement.
- Matrix3.InitRotationFromQuatRotates: equality with RotateVec3 is for unit quaternions only, as the library requires of rotations.
- Matrix4.InitOrthoCenteredFar: takes the half extents x = w/2, y = h/2 as parameters tied to w and h. The same holds for Matrix4.InitOrthoCenteredNear.
- Matrix4.InverseRigidIsInverse: proves the left inverse only.
- Matrix3.Rotate: the rotation angle enters only through cos and sin, whose values are not modelled. The same holds for Matrix4.RotateY.
- The demo program main.c: console output only. It also calls a function the header does not declare.
- m3dQuatLerp: declared at m3d/m3d.h:204 but defined nowhere, so there is nothing to model.
- The plain component-wise operations (AddVec2, MulVec2, AddVec3, MulVec3, AddVec4, MulVec4, AddQuat, MulValue of Quat, the dot products, Length) carry no contract of their own. The lemmas and contracts above state their properties.

## Findings

| source | as written | input that shows it | evidently intended | confidence | as-written member | corrected member |
|---|---|---|---|---|---|---|
| mat4x4.c:86-89, m3d/m3d.h:259-261 | `m3dMat4x4InverseHomogeneous` ignores its argument and returns the identity matrix | the translation by (1,0,0), i.e. any matrix with m[0][3] != 0: identity times it still has m[0][3] = 1 | the inverse of a rotation-plus-position matrix: the transposed rotation block and the position rotated back and negated | not executed | Matrix4.InverseHomogeneousNotInverse | Matrix4.InverseRigidIsInverse |
