/** 4x4 matrix operations (mat4x4.c): projections, the homogeneous-inverse
    stub, builders for 3D transforms and the products with matrices and
    vectors. The builders that update a matrix in place in the source are functions here
    that return the updated matrix. */
module Matrix4 {
  import opened M3d
  import opened CMath
  import Quaternion
  import Matrix3

  /** Every cell zero (setAllZeroInternal). */
  function Zero(): Mat4x4
  {
    Mat4x4(0.0, 0.0, 0.0, 0.0, 0.0, 0.0, 0.0, 0.0, 0.0, 0.0, 0.0, 0.0, 0.0, 0.0, 0.0, 0.0)
  }

  /** The identity: ones on the diagonal, zeros elsewhere. */
  function InitIdentity(): (r: Mat4x4)
    ensures forall i: nat, j: nat | i < 4 && j < 4 :: r.At(i, j) == if i == j then 1.0 else 0.0
  {
    Zero().(m00 := 1.0, m11 := 1.0, m22 := 1.0, m33 := 1.0)
  }

  /** The orthographic projection of the box [l, r] by [b, t] by [n, f]. */
  function InitOrtho(r: real, l: real, t: real, b: real, n: real, f: real): Mat4x4
    requires r != l && t != b && f != n
  {
    var rml := 1.0 / (r - l);
    var tmb := 1.0 / (t - b);
    var fmn := 1.0 / (f - n);
    Zero().(m00 := 2.0 * rml, m11 := 2.0 * tmb, m22 := 2.0 * fmn, m33 := 1.0,
            m03 := -(r + l) * rml, m13 := -(t + b) * tmb, m23 := -(f + n) * fmn)
  }

  /** InitOrtho sends the corner (r, t, f) to (1, 1, 1) and the corner (l, b, n) to (-1, -1, -1). */
  lemma InitOrthoCorners(r: real, l: real, t: real, b: real, n: real, f: real)
    requires r != l && t != b && f != n
    ensures MulVec4(InitOrtho(r, l, t, b, n, f), Vec4(r, t, f, 1.0)) == Vec4(1.0, 1.0, 1.0, 1.0)
    ensures MulVec4(InitOrtho(r, l, t, b, n, f), Vec4(l, b, n, 1.0)) == Vec4(-1.0, -1.0, -1.0, 1.0)
  {
    var rml := 1.0 / (r - l);
    var tmb := 1.0 / (t - b);
    var fmn := 1.0 / (f - n);
    assert rml * (r - l) == 1.0 && tmb * (t - b) == 1.0 && fmn * (f - n) == 1.0;
    assert 2.0 * rml * r + -(r + l) * rml == rml * (r - l);
    assert 2.0 * tmb * t + -(t + b) * tmb == tmb * (t - b);
    assert 2.0 * fmn * f + -(f + n) * fmn == fmn * (f - n);
    assert 2.0 * rml * l + -(r + l) * rml == -(rml * (r - l));
    assert 2.0 * tmb * b + -(t + b) * tmb == -(tmb * (t - b));
    assert 2.0 * fmn * n + -(f + n) * fmn == -(fmn * (f - n));
  }

  /** The orthographic projection of the w by h box centred on the origin, with
      the depth axis pointing the other way from InitOrtho's. */
  function InitOrthoCentered(w: real, h: real, n: real, f: real): Mat4x4
    requires w != 0.0 && h != 0.0 && f != n
  {
    var fmn := 1.0 / (f - n);
    Zero().(m00 := 2.0 / w, m11 := 2.0 / h, m22 := -2.0 * fmn, m33 := 1.0, m23 := -(f + n) * fmn)
  }

  /** InitOrthoCentered is InitOrtho of the centred box except in cell [2][2],
      where the sign is the opposite one. */
  lemma InitOrthoCenteredVersusOrtho(w: real, h: real, n: real, f: real)
    requires w != 0.0 && h != 0.0 && f != n
    ensures var o := InitOrtho(w / 2.0, -w / 2.0, h / 2.0, -h / 2.0, n, f);
            InitOrthoCentered(w, h, n, f) == o.(m22 := -o.m22)
  {
  }

  /** With (x, y) the half extents of the viewport, InitOrthoCentered sends the
      far corner (x, y, -f) to (1, 1, 1). */
  lemma InitOrthoCenteredFar(w: real, h: real, n: real, f: real, x: real, y: real)
    requires w != 0.0 && h != 0.0 && f != n && 2.0 * x == w && 2.0 * y == h
    ensures MulVec4(InitOrthoCentered(w, h, n, f), Vec4(x, y, -f, 1.0)) == Vec4(1.0, 1.0, 1.0, 1.0)
  {
    HalfWidth(w, x);
    HalfWidth(h, y);
    CenteredDepth(n, f, 1.0 / (f - n));
  }

  /** With (x, y) the half extents of the viewport, InitOrthoCentered sends the
      near corner (-x, -y, -n) to (-1, -1, -1). */
  lemma InitOrthoCenteredNear(w: real, h: real, n: real, f: real, x: real, y: real)
    requires w != 0.0 && h != 0.0 && f != n && 2.0 * x == w && 2.0 * y == h
    ensures MulVec4(InitOrthoCentered(w, h, n, f), Vec4(-x, -y, -n, 1.0)) == Vec4(-1.0, -1.0, -1.0, 1.0)
  {
    HalfWidth(w, x);
    HalfWidth(h, y);
    CenteredDepth(n, f, 1.0 / (f - n));
  }

  /** The depth row of InitOrthoCentered at z = -f and at z = -n. */
  lemma CenteredDepth(n: real, f: real, fmn: real)
    requires f != n && fmn == 1.0 / (f - n)
    ensures -2.0 * fmn * -f + -(f + n) * fmn == 1.0
    ensures -2.0 * fmn * -n + -(f + n) * fmn == -1.0
  {
    assert fmn * (f - n) == 1.0;
    assert -2.0 * fmn * -f + -(f + n) * fmn == fmn * (f - n);
    assert -2.0 * fmn * -n + -(f + n) * fmn == -(fmn * (f - n));
  }

  /** The cell 2/w maps the half extent x = w/2 to 1 and -x to -1. */
  lemma HalfWidth(w: real, x: real)
    requires w != 0.0 && 2.0 * x == w
    ensures 2.0 / w * x == 1.0 && 2.0 / w * -x == -1.0
  {
    assert 2.0 / w * w == 2.0;
  }

  /** The perspective projection for a w by h viewport, vertical field of view
      fov and the near and far planes n and f. */
  function InitPerspective(lib: Libm, w: real, h: real, fov: real, n: real, f: real): Mat4x4
    requires lib.tan(fov / 2.0) != 0.0 && w != 0.0 && h != 0.0 && f != n
  {
    var cotFov := 1.0 / lib.tan(fov / 2.0);
    var fmn := 1.0 / (f - n);
    var aspect := Aspect(w, h);
    Mat4x4(cotFov / aspect, 0.0, 0.0, 0.0,
           0.0, cotFov, 0.0, 0.0,
           0.0, 0.0, -(f + n) * fmn, -2.0 * (f * n) * fmn,
           0.0, 0.0, -1.0, 0.0)
  }

  /** The aspect ratio w / h of a viewport; it is non-zero when both sides are. */
  function Aspect(w: real, h: real): (r: real)
    requires w != 0.0 && h != 0.0
    ensures r != 0.0 && r * h == w
  {
    w / h
  }

  /** The last row of the perspective matrix is (0, 0, -1, 0): the projected w
      is the distance -z in front of the camera. */
  lemma InitPerspectiveDivisor(lib: Libm, w: real, h: real, fov: real, n: real, f: real, v: Vec3)
    requires lib.tan(fov / 2.0) != 0.0 && w != 0.0 && h != 0.0 && f != n
    ensures MulVec4(InitPerspective(lib, w, h, fov, n, f), Vec4(v.x, v.y, v.z, 1.0)).w == -v.z
  {
  }

  /** A point on the near plane z = -n lands at depth -1 after the division by
      w, and a point on the far plane z = -f at depth 1. */
  lemma InitPerspectiveDepth(lib: Libm, w: real, h: real, fov: real, n: real, f: real, x: real, y: real)
    requires lib.tan(fov / 2.0) != 0.0 && w != 0.0 && h != 0.0 && f != n
    ensures var p := MulVec4(InitPerspective(lib, w, h, fov, n, f), Vec4(x, y, -n, 1.0));
            p.z == -n && p.w == n
    ensures var p := MulVec4(InitPerspective(lib, w, h, fov, n, f), Vec4(x, y, -f, 1.0));
            p.z == f && p.w == f
  {
    var fmn := 1.0 / (f - n);
    PerspectiveDepth(n, f, fmn, n);
    PerspectiveDepth(n, f, fmn, f);
  }

  /** The depth row at the point z = -d on either plane d = n or d = f. */
  lemma PerspectiveDepth(n: real, f: real, fmn: real, d: real)
    requires fmn * (f - n) == 1.0
    requires d == n || d == f
    ensures -(f + n) * fmn * -d + -2.0 * (f * n) * fmn == (if d == n then -n else f)
  {
    assert -(f + n) * fmn * -d + -2.0 * (f * n) * fmn == fmn * (d * (f + n) - 2.0 * f * n);
    if d == n {
      assert d * (f + n) - 2.0 * f * n == -n * (f - n);
    } else {
      assert d * (f + n) - 2.0 * f * n == f * (f - n);
    }
  }

  /** As written: the homogeneous inverse is not implemented and every input
      gives the identity. */
  function InverseHomogeneous(mat: Mat4x4): Mat4x4
  {
    InitIdentity()
  }

  /** No matrix that moves the origin (a non-zero position in [0][3]), rigid or
      not, is undone by InverseHomogeneous. */
  lemma InverseHomogeneousNotInverse(m: Mat4x4)
    requires m.m03 != 0.0
    ensures MulMat4x4(InverseHomogeneous(m), m) != InitIdentity()
  {
    var inv := InverseHomogeneous(m);
    assert inv.m00 == 1.0 && inv.m01 == 0.0 && inv.m02 == 0.0 && inv.m03 == 0.0;
    assert MulMat4x4(inv, m).m03 == m.m03;
  }

  /** The identity is rigid. */
  lemma IdentityIsRigid()
    ensures IsRigid(InitIdentity())
  {
  }

  /** Translate writes only the position, so a rigid matrix stays rigid. */
  lemma TranslateKeepsRigid(m: Mat4x4, t: Vec3)
    requires IsRigid(m)
    ensures IsRigid(Translate(m, t))
  {
  }

  /** A rotation and a position only: the upper-left 3x3 block has orthonormal
      columns and the last row is (0, 0, 0, 1). */
  predicate IsRigid(m: Mat4x4)
  {
    && m.m00 * m.m00 + m.m10 * m.m10 + m.m20 * m.m20 == 1.0
    && m.m01 * m.m01 + m.m11 * m.m11 + m.m21 * m.m21 == 1.0
    && m.m02 * m.m02 + m.m12 * m.m12 + m.m22 * m.m22 == 1.0
    && m.m00 * m.m01 + m.m10 * m.m11 + m.m20 * m.m21 == 0.0
    && m.m00 * m.m02 + m.m10 * m.m12 + m.m20 * m.m22 == 0.0
    && m.m01 * m.m02 + m.m11 * m.m12 + m.m21 * m.m22 == 0.0
    && m.m30 == 0.0 && m.m31 == 0.0 && m.m32 == 0.0 && m.m33 == 1.0
  }

  /** The inverse the declaration describes: the transposed rotation block and
      the position rotated back and negated. */
  function InverseRigid(m: Mat4x4): Mat4x4
  {
    Mat4x4(m.m00, m.m10, m.m20, -(m.m00 * m.m03 + m.m10 * m.m13 + m.m20 * m.m23),
           m.m01, m.m11, m.m21, -(m.m01 * m.m03 + m.m11 * m.m13 + m.m21 * m.m23),
           m.m02, m.m12, m.m22, -(m.m02 * m.m03 + m.m12 * m.m13 + m.m22 * m.m23),
           0.0, 0.0, 0.0, 1.0)
  }

  /** For a rigid matrix, InverseRigid undoes it. */
  lemma InverseRigidIsInverse(m: Mat4x4)
    requires IsRigid(m)
    ensures MulMat4x4(InverseRigid(m), m) == InitIdentity()
  {
  }

  /** Sets the rotation of the quaternion r into the upper-left 3x3 block. */
  function Rotate(m: Mat4x4, r: Quat): (res: Mat4x4)
    ensures forall i: nat, j: nat | i < 3 && j < 3 :: res.At(i, j) == Matrix3.InitRotationFromQuat(r).At(i, j)
    ensures forall i: nat, j: nat | i < 4 && j < 4 && (i == 3 || j == 3) :: res.At(i, j) == m.At(i, j)
  {
    var i2 := r.i * r.i * 2.0;
    var j2 := r.j * r.j * 2.0;
    var k2 := r.k * r.k * 2.0;
    var ij := r.i * r.j * 2.0;
    var jk := r.j * r.k * 2.0;
    var ik := r.i * r.k * 2.0;
    var iw := r.i * r.w * 2.0;
    var jw := r.j * r.w * 2.0;
    var kw := r.k * r.w * 2.0;
    m.(m00 := 1.0 - j2 - k2, m01 := ij - kw, m02 := ik + jw,
       m10 := ij + kw, m11 := 1.0 - i2 - k2, m12 := jk - iw,
       m20 := ik - jw, m21 := jk + iw, m22 := 1.0 - i2 - j2)
  }

  /** The 3x3 block Rotate writes is the 3x3 rotation matrix of the same quaternion,
      and rotating the identity embeds that matrix. */
  lemma RotateIsMat3x3Rotation(m: Mat4x4, q: Quat)
    ensures Matrix3.FromMat4x4(Rotate(m, q)) == Matrix3.InitRotationFromQuat(q)
    ensures Rotate(InitIdentity(), q) == FromMat3x3(Matrix3.InitRotationFromQuat(q))
  {
    Mat3x3Cells(Matrix3.FromMat4x4(Rotate(m, q)), Matrix3.InitRotationFromQuat(q));
    Mat4x4Cells(Rotate(InitIdentity(), q), FromMat3x3(Matrix3.InitRotationFromQuat(q)));
  }

  /** Sets the rotation by r radians about y into the cells [0][0], [0][2], [2][0] and [2][2]. */
  function RotateY(lib: Libm, m: Mat4x4, r: real): (res: Mat4x4)
    ensures res.At(0, 0) == lib.cos(r) && res.At(0, 2) == lib.sin(r)
    ensures res.At(2, 0) == -lib.sin(r) && res.At(2, 2) == lib.cos(r)
    ensures forall i: nat, j: nat | i < 4 && j < 4 && !((i == 0 || i == 2) && (j == 0 || j == 2)) :: res.At(i, j) == m.At(i, j)
  {
    var sinTheta := lib.sin(r);
    var cosTheta := lib.cos(r);
    m.(m00 := cosTheta, m02 := sinTheta, m20 := -sinTheta, m22 := cosTheta)
  }

  /** Rotating the identity about y and applying it turns (x, z) and keeps y and w. */
  lemma RotateYIdentity(lib: Libm, r: real, v: Vec4)
    ensures MulVec4(RotateY(lib, InitIdentity(), r), v)
         == Vec4(lib.cos(r) * v.x + lib.sin(r) * v.z, v.y, -lib.sin(r) * v.x + lib.cos(r) * v.z, v.w)
  {
  }

  /** Sets the scale factors on the first three diagonal cells. */
  function Scale(m: Mat4x4, s: Vec3): (res: Mat4x4)
    ensures res.At(0, 0) == s.x && res.At(1, 1) == s.y && res.At(2, 2) == s.z
    ensures forall i: nat, j: nat | i < 4 && j < 4 && !(i == j && i < 3) :: res.At(i, j) == m.At(i, j)
  {
    m.(m00 := s.x, m11 := s.y, m22 := s.z)
  }

  /** Sets the translation into the last column of the first three rows. */
  function Translate(m: Mat4x4, t: Vec3): (res: Mat4x4)
    ensures res.At(0, 3) == t.x && res.At(1, 3) == t.y && res.At(2, 3) == t.z
    ensures forall i: nat, j: nat | i < 4 && j < 4 && !(j == 3 && i < 3) :: res.At(i, j) == m.At(i, j)
  {
    m.(m03 := t.x, m13 := t.y, m23 := t.z)
  }

  /** On the identity, Scale scales a point and Translate moves it (in homogeneous coordinates). */
  lemma ScaleTranslateIdentity(s: Vec3, t: Vec3, v: Vec3)
    ensures MulVec4(Scale(InitIdentity(), s), Vec4(v.x, v.y, v.z, 1.0)) == Vec4(s.x * v.x, s.y * v.y, s.z * v.z, 1.0)
    ensures MulVec4(Translate(InitIdentity(), t), Vec4(v.x, v.y, v.z, 1.0)) == Vec4(v.x + t.x, v.y + t.y, v.z + t.z, 1.0)
  {
  }

  /** Embeds a 3x3 matrix in the upper-left block, with (0, 0, 0, 1) as the last row and column. */
  function FromMat3x3(m: Mat3x3): (r: Mat4x4)
    ensures forall i: nat, j: nat | i < 3 && j < 3 :: r.At(i, j) == m.At(i, j)
    ensures forall i: nat | i < 3 :: r.At(3, i) == 0.0 && r.At(i, 3) == 0.0
    ensures r.At(3, 3) == 1.0
  {
    Mat4x4(m.m00, m.m01, m.m02, 0.0,
           m.m10, m.m11, m.m12, 0.0,
           m.m20, m.m21, m.m22, 0.0,
           0.0, 0.0, 0.0, 1.0)
  }

  /** Taking the upper-left block of the embedding gives the 3x3 matrix back,
      and the embedding acts on (v, 0) as the 3x3 matrix acts on v. */
  lemma FromMat3x3RoundTrip(m: Mat3x3, v: Vec3)
    ensures Matrix3.FromMat4x4(FromMat3x3(m)) == m
    ensures var p := Matrix3.MulVec3(m, v);
            MulVec4(FromMat3x3(m), Vec4(v.x, v.y, v.z, 0.0)) == Vec4(p.x, p.y, p.z, 0.0)
  {
  }

  /** The matrix product a·b. */
  function MulMat4x4(a: Mat4x4, b: Mat4x4): Mat4x4
  {
    Mat4x4(a.m00 * b.m00 + a.m01 * b.m10 + a.m02 * b.m20 + a.m03 * b.m30, a.m00 * b.m01 + a.m01 * b.m11 + a.m02 * b.m21 + a.m03 * b.m31, a.m00 * b.m02 + a.m01 * b.m12 + a.m02 * b.m22 + a.m03 * b.m32, a.m00 * b.m03 + a.m01 * b.m13 + a.m02 * b.m23 + a.m03 * b.m33,
           a.m10 * b.m00 + a.m11 * b.m10 + a.m12 * b.m20 + a.m13 * b.m30, a.m10 * b.m01 + a.m11 * b.m11 + a.m12 * b.m21 + a.m13 * b.m31, a.m10 * b.m02 + a.m11 * b.m12 + a.m12 * b.m22 + a.m13 * b.m32, a.m10 * b.m03 + a.m11 * b.m13 + a.m12 * b.m23 + a.m13 * b.m33,
           a.m20 * b.m00 + a.m21 * b.m10 + a.m22 * b.m20 + a.m23 * b.m30, a.m20 * b.m01 + a.m21 * b.m11 + a.m22 * b.m21 + a.m23 * b.m31, a.m20 * b.m02 + a.m21 * b.m12 + a.m22 * b.m22 + a.m23 * b.m32, a.m20 * b.m03 + a.m21 * b.m13 + a.m22 * b.m23 + a.m23 * b.m33,
           a.m30 * b.m00 + a.m31 * b.m10 + a.m32 * b.m20 + a.m33 * b.m30, a.m30 * b.m01 + a.m31 * b.m11 + a.m32 * b.m21 + a.m33 * b.m31, a.m30 * b.m02 + a.m31 * b.m12 + a.m32 * b.m22 + a.m33 * b.m32, a.m30 * b.m03 + a.m31 * b.m13 + a.m32 * b.m23 + a.m33 * b.m33)
  }

  /** The first n terms of the sum over k of a[i][k]·b[k][j]. */
  function RowTimesColumn(a: Mat4x4, b: Mat4x4, i: nat, j: nat, n: nat): real
    requires i < 4 && j < 4 && n <= 4
  {
    if n == 0 then 0.0 else RowTimesColumn(a, b, i, j, n - 1) + a.At(i, n - 1) * b.At(n - 1, j)
  }

  /** Cell (i, j) of a·b is row i of a times column j of b. */
  lemma MulMat4x4RowColumn(a: Mat4x4, b: Mat4x4)
    ensures forall i: nat, j: nat | i < 4 && j < 4 :: MulMat4x4(a, b).At(i, j) == RowTimesColumn(a, b, i, j, 4)
  {
    forall i: nat, j: nat | i < 4 && j < 4
      ensures MulMat4x4(a, b).At(i, j) == RowTimesColumn(a, b, i, j, 4)
    {
      if i == 0 && j == 0 {
        RowTimesColumn00(a, b);
      } else if i == 0 && j == 1 {
        RowTimesColumn01(a, b);
      } else if i == 0 && j == 2 {
        RowTimesColumn02(a, b);
      } else if i == 0 && j == 3 {
        RowTimesColumn03(a, b);
      } else if i == 1 && j == 0 {
        RowTimesColumn10(a, b);
      } else if i == 1 && j == 1 {
        RowTimesColumn11(a, b);
      } else if i == 1 && j == 2 {
        RowTimesColumn12(a, b);
      } else if i == 1 && j == 3 {
        RowTimesColumn13(a, b);
      } else if i == 2 && j == 0 {
        RowTimesColumn20(a, b);
      } else if i == 2 && j == 1 {
        RowTimesColumn21(a, b);
      } else if i == 2 && j == 2 {
        RowTimesColumn22(a, b);
      } else if i == 2 && j == 3 {
        RowTimesColumn23(a, b);
      } else if i == 3 && j == 0 {
        RowTimesColumn30(a, b);
      } else if i == 3 && j == 1 {
        RowTimesColumn31(a, b);
      } else if i == 3 && j == 2 {
        RowTimesColumn32(a, b);
      } else {
        RowTimesColumn33(a, b);
      }
    }
  }

  // MulMat4x4RowColumn one cell at a time.

  lemma RowTimesColumn00(a: Mat4x4, b: Mat4x4)
    ensures MulMat4x4(a, b).At(0, 0) == RowTimesColumn(a, b, 0, 0, 4)
  {
    assert RowTimesColumn(a, b, 0, 0, 1) == a.m00 * b.m00;
    assert RowTimesColumn(a, b, 0, 0, 2) == a.m00 * b.m00 + a.m01 * b.m10;
    assert RowTimesColumn(a, b, 0, 0, 3) == a.m00 * b.m00 + a.m01 * b.m10 + a.m02 * b.m20;
  }

  lemma RowTimesColumn01(a: Mat4x4, b: Mat4x4)
    ensures MulMat4x4(a, b).At(0, 1) == RowTimesColumn(a, b, 0, 1, 4)
  {
    assert RowTimesColumn(a, b, 0, 1, 1) == a.m00 * b.m01;
    assert RowTimesColumn(a, b, 0, 1, 2) == a.m00 * b.m01 + a.m01 * b.m11;
    assert RowTimesColumn(a, b, 0, 1, 3) == a.m00 * b.m01 + a.m01 * b.m11 + a.m02 * b.m21;
  }

  lemma RowTimesColumn02(a: Mat4x4, b: Mat4x4)
    ensures MulMat4x4(a, b).At(0, 2) == RowTimesColumn(a, b, 0, 2, 4)
  {
    assert RowTimesColumn(a, b, 0, 2, 1) == a.m00 * b.m02;
    assert RowTimesColumn(a, b, 0, 2, 2) == a.m00 * b.m02 + a.m01 * b.m12;
    assert RowTimesColumn(a, b, 0, 2, 3) == a.m00 * b.m02 + a.m01 * b.m12 + a.m02 * b.m22;
  }

  lemma RowTimesColumn03(a: Mat4x4, b: Mat4x4)
    ensures MulMat4x4(a, b).At(0, 3) == RowTimesColumn(a, b, 0, 3, 4)
  {
    assert RowTimesColumn(a, b, 0, 3, 1) == a.m00 * b.m03;
    assert RowTimesColumn(a, b, 0, 3, 2) == a.m00 * b.m03 + a.m01 * b.m13;
    assert RowTimesColumn(a, b, 0, 3, 3) == a.m00 * b.m03 + a.m01 * b.m13 + a.m02 * b.m23;
  }

  lemma RowTimesColumn10(a: Mat4x4, b: Mat4x4)
    ensures MulMat4x4(a, b).At(1, 0) == RowTimesColumn(a, b, 1, 0, 4)
  {
    assert RowTimesColumn(a, b, 1, 0, 1) == a.m10 * b.m00;
    assert RowTimesColumn(a, b, 1, 0, 2) == a.m10 * b.m00 + a.m11 * b.m10;
    assert RowTimesColumn(a, b, 1, 0, 3) == a.m10 * b.m00 + a.m11 * b.m10 + a.m12 * b.m20;
  }

  lemma RowTimesColumn11(a: Mat4x4, b: Mat4x4)
    ensures MulMat4x4(a, b).At(1, 1) == RowTimesColumn(a, b, 1, 1, 4)
  {
    assert RowTimesColumn(a, b, 1, 1, 1) == a.m10 * b.m01;
    assert RowTimesColumn(a, b, 1, 1, 2) == a.m10 * b.m01 + a.m11 * b.m11;
    assert RowTimesColumn(a, b, 1, 1, 3) == a.m10 * b.m01 + a.m11 * b.m11 + a.m12 * b.m21;
  }

  lemma RowTimesColumn12(a: Mat4x4, b: Mat4x4)
    ensures MulMat4x4(a, b).At(1, 2) == RowTimesColumn(a, b, 1, 2, 4)
  {
    assert RowTimesColumn(a, b, 1, 2, 1) == a.m10 * b.m02;
    assert RowTimesColumn(a, b, 1, 2, 2) == a.m10 * b.m02 + a.m11 * b.m12;
    assert RowTimesColumn(a, b, 1, 2, 3) == a.m10 * b.m02 + a.m11 * b.m12 + a.m12 * b.m22;
  }

  lemma RowTimesColumn13(a: Mat4x4, b: Mat4x4)
    ensures MulMat4x4(a, b).At(1, 3) == RowTimesColumn(a, b, 1, 3, 4)
  {
    assert RowTimesColumn(a, b, 1, 3, 1) == a.m10 * b.m03;
    assert RowTimesColumn(a, b, 1, 3, 2) == a.m10 * b.m03 + a.m11 * b.m13;
    assert RowTimesColumn(a, b, 1, 3, 3) == a.m10 * b.m03 + a.m11 * b.m13 + a.m12 * b.m23;
  }

  lemma RowTimesColumn20(a: Mat4x4, b: Mat4x4)
    ensures MulMat4x4(a, b).At(2, 0) == RowTimesColumn(a, b, 2, 0, 4)
  {
    assert RowTimesColumn(a, b, 2, 0, 1) == a.m20 * b.m00;
    assert RowTimesColumn(a, b, 2, 0, 2) == a.m20 * b.m00 + a.m21 * b.m10;
    assert RowTimesColumn(a, b, 2, 0, 3) == a.m20 * b.m00 + a.m21 * b.m10 + a.m22 * b.m20;
  }

  lemma RowTimesColumn21(a: Mat4x4, b: Mat4x4)
    ensures MulMat4x4(a, b).At(2, 1) == RowTimesColumn(a, b, 2, 1, 4)
  {
    assert RowTimesColumn(a, b, 2, 1, 1) == a.m20 * b.m01;
    assert RowTimesColumn(a, b, 2, 1, 2) == a.m20 * b.m01 + a.m21 * b.m11;
    assert RowTimesColumn(a, b, 2, 1, 3) == a.m20 * b.m01 + a.m21 * b.m11 + a.m22 * b.m21;
  }

  lemma RowTimesColumn22(a: Mat4x4, b: Mat4x4)
    ensures MulMat4x4(a, b).At(2, 2) == RowTimesColumn(a, b, 2, 2, 4)
  {
    assert RowTimesColumn(a, b, 2, 2, 1) == a.m20 * b.m02;
    assert RowTimesColumn(a, b, 2, 2, 2) == a.m20 * b.m02 + a.m21 * b.m12;
    assert RowTimesColumn(a, b, 2, 2, 3) == a.m20 * b.m02 + a.m21 * b.m12 + a.m22 * b.m22;
  }

  lemma RowTimesColumn23(a: Mat4x4, b: Mat4x4)
    ensures MulMat4x4(a, b).At(2, 3) == RowTimesColumn(a, b, 2, 3, 4)
  {
    assert RowTimesColumn(a, b, 2, 3, 1) == a.m20 * b.m03;
    assert RowTimesColumn(a, b, 2, 3, 2) == a.m20 * b.m03 + a.m21 * b.m13;
    assert RowTimesColumn(a, b, 2, 3, 3) == a.m20 * b.m03 + a.m21 * b.m13 + a.m22 * b.m23;
  }

  lemma RowTimesColumn30(a: Mat4x4, b: Mat4x4)
    ensures MulMat4x4(a, b).At(3, 0) == RowTimesColumn(a, b, 3, 0, 4)
  {
    assert RowTimesColumn(a, b, 3, 0, 1) == a.m30 * b.m00;
    assert RowTimesColumn(a, b, 3, 0, 2) == a.m30 * b.m00 + a.m31 * b.m10;
    assert RowTimesColumn(a, b, 3, 0, 3) == a.m30 * b.m00 + a.m31 * b.m10 + a.m32 * b.m20;
  }

  lemma RowTimesColumn31(a: Mat4x4, b: Mat4x4)
    ensures MulMat4x4(a, b).At(3, 1) == RowTimesColumn(a, b, 3, 1, 4)
  {
    assert RowTimesColumn(a, b, 3, 1, 1) == a.m30 * b.m01;
    assert RowTimesColumn(a, b, 3, 1, 2) == a.m30 * b.m01 + a.m31 * b.m11;
    assert RowTimesColumn(a, b, 3, 1, 3) == a.m30 * b.m01 + a.m31 * b.m11 + a.m32 * b.m21;
  }

  lemma RowTimesColumn32(a: Mat4x4, b: Mat4x4)
    ensures MulMat4x4(a, b).At(3, 2) == RowTimesColumn(a, b, 3, 2, 4)
  {
    assert RowTimesColumn(a, b, 3, 2, 1) == a.m30 * b.m02;
    assert RowTimesColumn(a, b, 3, 2, 2) == a.m30 * b.m02 + a.m31 * b.m12;
    assert RowTimesColumn(a, b, 3, 2, 3) == a.m30 * b.m02 + a.m31 * b.m12 + a.m32 * b.m22;
  }

  lemma RowTimesColumn33(a: Mat4x4, b: Mat4x4)
    ensures MulMat4x4(a, b).At(3, 3) == RowTimesColumn(a, b, 3, 3, 4)
  {
    assert RowTimesColumn(a, b, 3, 3, 1) == a.m30 * b.m03;
    assert RowTimesColumn(a, b, 3, 3, 2) == a.m30 * b.m03 + a.m31 * b.m13;
    assert RowTimesColumn(a, b, 3, 3, 3) == a.m30 * b.m03 + a.m31 * b.m13 + a.m32 * b.m23;
  }

  /** The triple loop of the source: each cell is accumulated from zero over k,
      and the result is the matrix product. */
  method MulMat4x4Loops(a: Mat4x4, b: Mat4x4) returns (res: Mat4x4)
    ensures res == MulMat4x4(a, b)
  {
    res := Zero();
    for i: nat := 0 to 4
      invariant forall i': nat, j': nat | i' < i && j' < 4 :: res.At(i', j') == RowTimesColumn(a, b, i', j', 4)
    {
      for j: nat := 0 to 4
        invariant forall i': nat, j': nat | i' < i && j' < 4 :: res.At(i', j') == RowTimesColumn(a, b, i', j', 4)
        invariant forall j': nat | j' < j :: res.At(i, j') == RowTimesColumn(a, b, i, j', 4)
      {
        var sum := 0.0;
        for k: nat := 0 to 4
          invariant sum == RowTimesColumn(a, b, i, j, k)
        {
          sum := sum + a.At(i, k) * b.At(k, j);
        }
        res := res.Set(i, j, sum);
      }
    }
    MulMat4x4RowColumn(a, b);
    Mat4x4Cells(res, MulMat4x4(a, b));
  }

  /** The product of a matrix and a column vector. */
  function MulVec4(a: Mat4x4, b: Vec4): Vec4
  {
    Vec4(a.m00 * b.x + a.m01 * b.y + a.m02 * b.z + a.m03 * b.w,
         a.m10 * b.x + a.m11 * b.y + a.m12 * b.z + a.m13 * b.w,
         a.m20 * b.x + a.m21 * b.y + a.m22 * b.z + a.m23 * b.w,
         a.m30 * b.x + a.m31 * b.y + a.m32 * b.z + a.m33 * b.w)
  }

  /** The identity is a unit of the product on both sides and leaves vectors unchanged. */
  lemma IdentityIsUnit(m: Mat4x4, v: Vec4)
    ensures MulMat4x4(InitIdentity(), m) == m
    ensures MulMat4x4(m, InitIdentity()) == m
    ensures MulVec4(InitIdentity(), v) == v
  {
  }

  /** Applying a·b to v is applying b and then a. */
  lemma MulVec4Compose(a: Mat4x4, b: Mat4x4, v: Vec4)
    ensures MulVec4(MulMat4x4(a, b), v) == MulVec4(a, MulVec4(b, v))
  {
    MulVec4ComposeX(a, b, v);
    MulVec4ComposeY(a, b, v);
    MulVec4ComposeZ(a, b, v);
    MulVec4ComposeW(a, b, v);
  }

  lemma MulVec4ComposeX(a: Mat4x4, b: Mat4x4, v: Vec4)
    ensures MulVec4(MulMat4x4(a, b), v).x == MulVec4(a, MulVec4(b, v)).x
  {
    var ab := MulMat4x4(a, b);
    var bv := MulVec4(b, v);
    PolyAssoc4(a.m00, a.m01, a.m02, a.m03, b.m00, b.m01, b.m02, b.m03, b.m10, b.m11, b.m12, b.m13, b.m20, b.m21, b.m22, b.m23, b.m30, b.m31, b.m32, b.m33,
               v.x, v.y, v.z, v.w, ab.m00, ab.m01, ab.m02, ab.m03, bv.x, bv.y, bv.z, bv.w);
  }

  lemma MulVec4ComposeY(a: Mat4x4, b: Mat4x4, v: Vec4)
    ensures MulVec4(MulMat4x4(a, b), v).y == MulVec4(a, MulVec4(b, v)).y
  {
    var ab := MulMat4x4(a, b);
    var bv := MulVec4(b, v);
    PolyAssoc4(a.m10, a.m11, a.m12, a.m13, b.m00, b.m01, b.m02, b.m03, b.m10, b.m11, b.m12, b.m13, b.m20, b.m21, b.m22, b.m23, b.m30, b.m31, b.m32, b.m33,
               v.x, v.y, v.z, v.w, ab.m10, ab.m11, ab.m12, ab.m13, bv.x, bv.y, bv.z, bv.w);
  }

  lemma MulVec4ComposeZ(a: Mat4x4, b: Mat4x4, v: Vec4)
    ensures MulVec4(MulMat4x4(a, b), v).z == MulVec4(a, MulVec4(b, v)).z
  {
    var ab := MulMat4x4(a, b);
    var bv := MulVec4(b, v);
    PolyAssoc4(a.m20, a.m21, a.m22, a.m23, b.m00, b.m01, b.m02, b.m03, b.m10, b.m11, b.m12, b.m13, b.m20, b.m21, b.m22, b.m23, b.m30, b.m31, b.m32, b.m33,
               v.x, v.y, v.z, v.w, ab.m20, ab.m21, ab.m22, ab.m23, bv.x, bv.y, bv.z, bv.w);
  }

  lemma MulVec4ComposeW(a: Mat4x4, b: Mat4x4, v: Vec4)
    ensures MulVec4(MulMat4x4(a, b), v).w == MulVec4(a, MulVec4(b, v)).w
  {
    var ab := MulMat4x4(a, b);
    var bv := MulVec4(b, v);
    PolyAssoc4(a.m30, a.m31, a.m32, a.m33, b.m00, b.m01, b.m02, b.m03, b.m10, b.m11, b.m12, b.m13, b.m20, b.m21, b.m22, b.m23, b.m30, b.m31, b.m32, b.m33,
               v.x, v.y, v.z, v.w, ab.m30, ab.m31, ab.m32, ab.m33, bv.x, bv.y, bv.z, bv.w);
  }

  /** The matrix product is associative. */
  lemma MulMat4x4Associative(a: Mat4x4, b: Mat4x4, c: Mat4x4)
    ensures MulMat4x4(MulMat4x4(a, b), c) == MulMat4x4(a, MulMat4x4(b, c))
  {
    MulMat4x4AssociativeCell00(a, b, c);
    MulMat4x4AssociativeCell01(a, b, c);
    MulMat4x4AssociativeCell02(a, b, c);
    MulMat4x4AssociativeCell03(a, b, c);
    MulMat4x4AssociativeCell10(a, b, c);
    MulMat4x4AssociativeCell11(a, b, c);
    MulMat4x4AssociativeCell12(a, b, c);
    MulMat4x4AssociativeCell13(a, b, c);
    MulMat4x4AssociativeCell20(a, b, c);
    MulMat4x4AssociativeCell21(a, b, c);
    MulMat4x4AssociativeCell22(a, b, c);
    MulMat4x4AssociativeCell23(a, b, c);
    MulMat4x4AssociativeCell30(a, b, c);
    MulMat4x4AssociativeCell31(a, b, c);
    MulMat4x4AssociativeCell32(a, b, c);
    MulMat4x4AssociativeCell33(a, b, c);
  }

  // MulMat4x4Associative one cell at a time.

  lemma MulMat4x4AssociativeCell00(a: Mat4x4, b: Mat4x4, c: Mat4x4)
    ensures MulMat4x4(MulMat4x4(a, b), c).m00 == MulMat4x4(a, MulMat4x4(b, c)).m00
  {
    var ab := MulMat4x4(a, b);
    var bc := MulMat4x4(b, c);
    PolyAssoc4(a.m00, a.m01, a.m02, a.m03, b.m00, b.m01, b.m02, b.m03, b.m10, b.m11, b.m12, b.m13, b.m20, b.m21, b.m22, b.m23, b.m30, b.m31, b.m32, b.m33,
               c.m00, c.m10, c.m20, c.m30, ab.m00, ab.m01, ab.m02, ab.m03,
               bc.m00, bc.m10, bc.m20, bc.m30);
  }

  lemma MulMat4x4AssociativeCell01(a: Mat4x4, b: Mat4x4, c: Mat4x4)
    ensures MulMat4x4(MulMat4x4(a, b), c).m01 == MulMat4x4(a, MulMat4x4(b, c)).m01
  {
    var ab := MulMat4x4(a, b);
    var bc := MulMat4x4(b, c);
    PolyAssoc4(a.m00, a.m01, a.m02, a.m03, b.m00, b.m01, b.m02, b.m03, b.m10, b.m11, b.m12, b.m13, b.m20, b.m21, b.m22, b.m23, b.m30, b.m31, b.m32, b.m33,
               c.m01, c.m11, c.m21, c.m31, ab.m00, ab.m01, ab.m02, ab.m03,
               bc.m01, bc.m11, bc.m21, bc.m31);
  }

  lemma MulMat4x4AssociativeCell02(a: Mat4x4, b: Mat4x4, c: Mat4x4)
    ensures MulMat4x4(MulMat4x4(a, b), c).m02 == MulMat4x4(a, MulMat4x4(b, c)).m02
  {
    var ab := MulMat4x4(a, b);
    var bc := MulMat4x4(b, c);
    PolyAssoc4(a.m00, a.m01, a.m02, a.m03, b.m00, b.m01, b.m02, b.m03, b.m10, b.m11, b.m12, b.m13, b.m20, b.m21, b.m22, b.m23, b.m30, b.m31, b.m32, b.m33,
               c.m02, c.m12, c.m22, c.m32, ab.m00, ab.m01, ab.m02, ab.m03,
               bc.m02, bc.m12, bc.m22, bc.m32);
  }

  lemma MulMat4x4AssociativeCell03(a: Mat4x4, b: Mat4x4, c: Mat4x4)
    ensures MulMat4x4(MulMat4x4(a, b), c).m03 == MulMat4x4(a, MulMat4x4(b, c)).m03
  {
    var ab := MulMat4x4(a, b);
    var bc := MulMat4x4(b, c);
    PolyAssoc4(a.m00, a.m01, a.m02, a.m03, b.m00, b.m01, b.m02, b.m03, b.m10, b.m11, b.m12, b.m13, b.m20, b.m21, b.m22, b.m23, b.m30, b.m31, b.m32, b.m33,
               c.m03, c.m13, c.m23, c.m33, ab.m00, ab.m01, ab.m02, ab.m03,
               bc.m03, bc.m13, bc.m23, bc.m33);
  }

  lemma MulMat4x4AssociativeCell10(a: Mat4x4, b: Mat4x4, c: Mat4x4)
    ensures MulMat4x4(MulMat4x4(a, b), c).m10 == MulMat4x4(a, MulMat4x4(b, c)).m10
  {
    var ab := MulMat4x4(a, b);
    var bc := MulMat4x4(b, c);
    PolyAssoc4(a.m10, a.m11, a.m12, a.m13, b.m00, b.m01, b.m02, b.m03, b.m10, b.m11, b.m12, b.m13, b.m20, b.m21, b.m22, b.m23, b.m30, b.m31, b.m32, b.m33,
               c.m00, c.m10, c.m20, c.m30, ab.m10, ab.m11, ab.m12, ab.m13,
               bc.m00, bc.m10, bc.m20, bc.m30);
  }

  lemma MulMat4x4AssociativeCell11(a: Mat4x4, b: Mat4x4, c: Mat4x4)
    ensures MulMat4x4(MulMat4x4(a, b), c).m11 == MulMat4x4(a, MulMat4x4(b, c)).m11
  {
    var ab := MulMat4x4(a, b);
    var bc := MulMat4x4(b, c);
    PolyAssoc4(a.m10, a.m11, a.m12, a.m13, b.m00, b.m01, b.m02, b.m03, b.m10, b.m11, b.m12, b.m13, b.m20, b.m21, b.m22, b.m23, b.m30, b.m31, b.m32, b.m33,
               c.m01, c.m11, c.m21, c.m31, ab.m10, ab.m11, ab.m12, ab.m13,
               bc.m01, bc.m11, bc.m21, bc.m31);
  }

  lemma MulMat4x4AssociativeCell12(a: Mat4x4, b: Mat4x4, c: Mat4x4)
    ensures MulMat4x4(MulMat4x4(a, b), c).m12 == MulMat4x4(a, MulMat4x4(b, c)).m12
  {
    var ab := MulMat4x4(a, b);
    var bc := MulMat4x4(b, c);
    PolyAssoc4(a.m10, a.m11, a.m12, a.m13, b.m00, b.m01, b.m02, b.m03, b.m10, b.m11, b.m12, b.m13, b.m20, b.m21, b.m22, b.m23, b.m30, b.m31, b.m32, b.m33,
               c.m02, c.m12, c.m22, c.m32, ab.m10, ab.m11, ab.m12, ab.m13,
               bc.m02, bc.m12, bc.m22, bc.m32);
  }

  lemma MulMat4x4AssociativeCell13(a: Mat4x4, b: Mat4x4, c: Mat4x4)
    ensures MulMat4x4(MulMat4x4(a, b), c).m13 == MulMat4x4(a, MulMat4x4(b, c)).m13
  {
    var ab := MulMat4x4(a, b);
    var bc := MulMat4x4(b, c);
    PolyAssoc4(a.m10, a.m11, a.m12, a.m13, b.m00, b.m01, b.m02, b.m03, b.m10, b.m11, b.m12, b.m13, b.m20, b.m21, b.m22, b.m23, b.m30, b.m31, b.m32, b.m33,
               c.m03, c.m13, c.m23, c.m33, ab.m10, ab.m11, ab.m12, ab.m13,
               bc.m03, bc.m13, bc.m23, bc.m33);
  }

  lemma MulMat4x4AssociativeCell20(a: Mat4x4, b: Mat4x4, c: Mat4x4)
    ensures MulMat4x4(MulMat4x4(a, b), c).m20 == MulMat4x4(a, MulMat4x4(b, c)).m20
  {
    var ab := MulMat4x4(a, b);
    var bc := MulMat4x4(b, c);
    PolyAssoc4(a.m20, a.m21, a.m22, a.m23, b.m00, b.m01, b.m02, b.m03, b.m10, b.m11, b.m12, b.m13, b.m20, b.m21, b.m22, b.m23, b.m30, b.m31, b.m32, b.m33,
               c.m00, c.m10, c.m20, c.m30, ab.m20, ab.m21, ab.m22, ab.m23,
               bc.m00, bc.m10, bc.m20, bc.m30);
  }

  lemma MulMat4x4AssociativeCell21(a: Mat4x4, b: Mat4x4, c: Mat4x4)
    ensures MulMat4x4(MulMat4x4(a, b), c).m21 == MulMat4x4(a, MulMat4x4(b, c)).m21
  {
    var ab := MulMat4x4(a, b);
    var bc := MulMat4x4(b, c);
    PolyAssoc4(a.m20, a.m21, a.m22, a.m23, b.m00, b.m01, b.m02, b.m03, b.m10, b.m11, b.m12, b.m13, b.m20, b.m21, b.m22, b.m23, b.m30, b.m31, b.m32, b.m33,
               c.m01, c.m11, c.m21, c.m31, ab.m20, ab.m21, ab.m22, ab.m23,
               bc.m01, bc.m11, bc.m21, bc.m31);
  }

  lemma MulMat4x4AssociativeCell22(a: Mat4x4, b: Mat4x4, c: Mat4x4)
    ensures MulMat4x4(MulMat4x4(a, b), c).m22 == MulMat4x4(a, MulMat4x4(b, c)).m22
  {
    var ab := MulMat4x4(a, b);
    var bc := MulMat4x4(b, c);
    PolyAssoc4(a.m20, a.m21, a.m22, a.m23, b.m00, b.m01, b.m02, b.m03, b.m10, b.m11, b.m12, b.m13, b.m20, b.m21, b.m22, b.m23, b.m30, b.m31, b.m32, b.m33,
               c.m02, c.m12, c.m22, c.m32, ab.m20, ab.m21, ab.m22, ab.m23,
               bc.m02, bc.m12, bc.m22, bc.m32);
  }

  lemma MulMat4x4AssociativeCell23(a: Mat4x4, b: Mat4x4, c: Mat4x4)
    ensures MulMat4x4(MulMat4x4(a, b), c).m23 == MulMat4x4(a, MulMat4x4(b, c)).m23
  {
    var ab := MulMat4x4(a, b);
    var bc := MulMat4x4(b, c);
    PolyAssoc4(a.m20, a.m21, a.m22, a.m23, b.m00, b.m01, b.m02, b.m03, b.m10, b.m11, b.m12, b.m13, b.m20, b.m21, b.m22, b.m23, b.m30, b.m31, b.m32, b.m33,
               c.m03, c.m13, c.m23, c.m33, ab.m20, ab.m21, ab.m22, ab.m23,
               bc.m03, bc.m13, bc.m23, bc.m33);
  }

  lemma MulMat4x4AssociativeCell30(a: Mat4x4, b: Mat4x4, c: Mat4x4)
    ensures MulMat4x4(MulMat4x4(a, b), c).m30 == MulMat4x4(a, MulMat4x4(b, c)).m30
  {
    var ab := MulMat4x4(a, b);
    var bc := MulMat4x4(b, c);
    PolyAssoc4(a.m30, a.m31, a.m32, a.m33, b.m00, b.m01, b.m02, b.m03, b.m10, b.m11, b.m12, b.m13, b.m20, b.m21, b.m22, b.m23, b.m30, b.m31, b.m32, b.m33,
               c.m00, c.m10, c.m20, c.m30, ab.m30, ab.m31, ab.m32, ab.m33,
               bc.m00, bc.m10, bc.m20, bc.m30);
  }

  lemma MulMat4x4AssociativeCell31(a: Mat4x4, b: Mat4x4, c: Mat4x4)
    ensures MulMat4x4(MulMat4x4(a, b), c).m31 == MulMat4x4(a, MulMat4x4(b, c)).m31
  {
    var ab := MulMat4x4(a, b);
    var bc := MulMat4x4(b, c);
    PolyAssoc4(a.m30, a.m31, a.m32, a.m33, b.m00, b.m01, b.m02, b.m03, b.m10, b.m11, b.m12, b.m13, b.m20, b.m21, b.m22, b.m23, b.m30, b.m31, b.m32, b.m33,
               c.m01, c.m11, c.m21, c.m31, ab.m30, ab.m31, ab.m32, ab.m33,
               bc.m01, bc.m11, bc.m21, bc.m31);
  }

  lemma MulMat4x4AssociativeCell32(a: Mat4x4, b: Mat4x4, c: Mat4x4)
    ensures MulMat4x4(MulMat4x4(a, b), c).m32 == MulMat4x4(a, MulMat4x4(b, c)).m32
  {
    var ab := MulMat4x4(a, b);
    var bc := MulMat4x4(b, c);
    PolyAssoc4(a.m30, a.m31, a.m32, a.m33, b.m00, b.m01, b.m02, b.m03, b.m10, b.m11, b.m12, b.m13, b.m20, b.m21, b.m22, b.m23, b.m30, b.m31, b.m32, b.m33,
               c.m02, c.m12, c.m22, c.m32, ab.m30, ab.m31, ab.m32, ab.m33,
               bc.m02, bc.m12, bc.m22, bc.m32);
  }

  lemma MulMat4x4AssociativeCell33(a: Mat4x4, b: Mat4x4, c: Mat4x4)
    ensures MulMat4x4(MulMat4x4(a, b), c).m33 == MulMat4x4(a, MulMat4x4(b, c)).m33
  {
    var ab := MulMat4x4(a, b);
    var bc := MulMat4x4(b, c);
    PolyAssoc4(a.m30, a.m31, a.m32, a.m33, b.m00, b.m01, b.m02, b.m03, b.m10, b.m11, b.m12, b.m13, b.m20, b.m21, b.m22, b.m23, b.m30, b.m31, b.m32, b.m33,
               c.m03, c.m13, c.m23, c.m33, ab.m30, ab.m31, ab.m32, ab.m33,
               bc.m03, bc.m13, bc.m23, bc.m33);
  }

  /** One cell of (a·b)·c against a·(b·c): the row (a0, a1, a2, a3) of a, the matrix b,
      the column (c0, c1, c2, c3) of c, the row l of a·b and the column r of b·c. */
  lemma PolyAssoc4(a0: real, a1: real, a2: real, a3: real,
                   b00: real, b01: real, b02: real, b03: real, b10: real, b11: real, b12: real, b13: real,
                   b20: real, b21: real, b22: real, b23: real, b30: real, b31: real, b32: real, b33: real,
                   c0: real, c1: real, c2: real, c3: real,
                   l0: real, l1: real, l2: real, l3: real, r0: real, r1: real, r2: real, r3: real)
    requires l0 == a0 * b00 + a1 * b10 + a2 * b20 + a3 * b30
    requires l1 == a0 * b01 + a1 * b11 + a2 * b21 + a3 * b31
    requires l2 == a0 * b02 + a1 * b12 + a2 * b22 + a3 * b32
    requires l3 == a0 * b03 + a1 * b13 + a2 * b23 + a3 * b33
    requires r0 == b00 * c0 + b01 * c1 + b02 * c2 + b03 * c3
    requires r1 == b10 * c0 + b11 * c1 + b12 * c2 + b13 * c3
    requires r2 == b20 * c0 + b21 * c1 + b22 * c2 + b23 * c3
    requires r3 == b30 * c0 + b31 * c1 + b32 * c2 + b33 * c3
    ensures l0 * c0 + l1 * c1 + l2 * c2 + l3 * c3 == a0 * r0 + a1 * r1 + a2 * r2 + a3 * r3
  {
  }
}
