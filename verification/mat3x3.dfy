/** 3x3 matrix operations (mat3x3.c): builders for 2D transforms and the
    products with matrices and vectors. The builders that update a matrix in place in the
    source are functions here that return the updated matrix. */
module Matrix3 {
  import opened M3d
  import opened CMath
  import Quaternion

  /** Every cell zero (setAllZeroInternal). */
  function Zero(): Mat3x3
  {
    Mat3x3(0.0, 0.0, 0.0, 0.0, 0.0, 0.0, 0.0, 0.0, 0.0)
  }

  /** The identity: ones on the diagonal, zeros elsewhere. */
  function InitIdentity(): (r: Mat3x3)
    ensures forall i: nat, j: nat | i < 3 && j < 3 :: r.At(i, j) == if i == j then 1.0 else 0.0
  {
    Zero().(m00 := 1.0, m11 := 1.0, m22 := 1.0)
  }

  /** The 2D orthographic projection taking x in [l, r] and y in [b, t] to [-1, 1]. */
  function InitOrtho(r: real, l: real, t: real, b: real): Mat3x3
    requires r != l && t != b
  {
    var rml := 1.0 / (r - l);
    var tmb := 1.0 / (t - b);
    Zero().(m00 := 2.0 * rml, m11 := 2.0 * tmb, m22 := 1.0, m02 := -(r + l) * rml, m12 := -(t + b) * tmb)
  }

  /** InitOrtho sends the corner (r, t) to (1, 1) and the corner (l, b) to (-1, -1). */
  lemma InitOrthoCorners(r: real, l: real, t: real, b: real)
    requires r != l && t != b
    ensures MulVec3(InitOrtho(r, l, t, b), Vec3(r, t, 1.0)) == Vec3(1.0, 1.0, 1.0)
    ensures MulVec3(InitOrtho(r, l, t, b), Vec3(l, b, 1.0)) == Vec3(-1.0, -1.0, 1.0)
  {
    var rml := 1.0 / (r - l);
    var tmb := 1.0 / (t - b);
    assert rml * (r - l) == 1.0 && tmb * (t - b) == 1.0;
    assert 2.0 * rml * r + -(r + l) * rml == rml * (r - l);
    assert 2.0 * tmb * t + -(t + b) * tmb == tmb * (t - b);
    assert 2.0 * rml * l + -(r + l) * rml == -(rml * (r - l));
    assert 2.0 * tmb * b + -(t + b) * tmb == -(tmb * (t - b));
  }

  /** The orthographic projection of the w by h box centred on the origin. */
  function InitOrthoCentered(w: real, h: real): Mat3x3
    requires w != 0.0 && h != 0.0
  {
    Zero().(m00 := 2.0 / w, m11 := 2.0 / h, m22 := 1.0)
  }

  /** The centred projection is InitOrtho of the box [-w/2, w/2] by [-h/2, h/2]. */
  lemma InitOrthoCenteredIsOrtho(w: real, h: real)
    requires w != 0.0 && h != 0.0
    ensures InitOrthoCentered(w, h) == InitOrtho(w / 2.0, -w / 2.0, h / 2.0, -h / 2.0)
  {
  }

  /** The rotation matrix of a quaternion. */
  function InitRotationFromQuat(quat: Quat): Mat3x3
  {
    var i2 := quat.i * quat.i * 2.0;
    var j2 := quat.j * quat.j * 2.0;
    var k2 := quat.k * quat.k * 2.0;
    var ij := quat.i * quat.j * 2.0;
    var jk := quat.j * quat.k * 2.0;
    var ik := quat.i * quat.k * 2.0;
    var iw := quat.i * quat.w * 2.0;
    var jw := quat.j * quat.w * 2.0;
    var kw := quat.k * quat.w * 2.0;
    Mat3x3(1.0 - j2 - k2, ij - kw, ik + jw,
           ij + kw, 1.0 - i2 - k2, jk - iw,
           ik - jw, jk + iw, 1.0 - i2 - j2)
  }

  /** The identity quaternion gives the identity matrix. */
  lemma InitRotationFromIdentity(q: Quat)
    requires q == Quaternion.Identity()
    ensures InitRotationFromQuat(q) == InitIdentity()
  {
  }

  /** For a unit quaternion, multiplying by its matrix rotates a vector exactly
      as the quaternion does. */
  lemma InitRotationFromQuatRotates(q: Quat, v: Vec3)
    requires Quaternion.IsUnit(q)
    ensures MulVec3(InitRotationFromQuat(q), v) == Quaternion.RotateVec3(q, v)
  {
    InitRotationFromQuatRotatesX(q, v);
    InitRotationFromQuatRotatesY(q, v);
    InitRotationFromQuatRotatesZ(q, v);
  }

  // One row of the rotation matrix against the matching component of q·(v, 0)·conj(q),
  // first on the matrix and quaternion, then over plain reals.

  lemma InitRotationFromQuatRotatesX(q: Quat, v: Vec3)
    requires Quaternion.IsUnit(q)
    ensures MulVec3(InitRotationFromQuat(q), v).x == Quaternion.RotateVec3(q, v).x
  {
    var u := Quaternion.Pure(v);
    var p := Quaternion.MulQuat(q, u);
    var c := Quaternion.Conjugate(q);
    var t := Quaternion.MulQuat(p, c);
    var m := InitRotationFromQuat(q);
    assert Quaternion.Pure(Quaternion.RotateVec3(q, v)) == t;
    RotationX(q.i, q.j, q.k, q.w, v.x, v.y, v.z, u.i, u.j, u.k, u.w, p.i, p.j, p.k, p.w,
              c.i, c.j, c.k, c.w, t.i, m.m00, m.m01, m.m02);
  }

  lemma RotationX(qi: real, qj: real, qk: real, qw: real, vx: real, vy: real, vz: real,
                  ui: real, uj: real, uk: real, uw: real, pi: real, pj: real, pk: real, pw: real,
                  ci: real, cj: real, ck: real, cw: real, ti: real, m0: real, m1: real, m2: real)
    requires qi * qi + qj * qj + qk * qk + qw * qw == 1.0
    requires ui == vx && uj == vy && uk == vz && uw == 0.0
    requires ci == -qi && cj == -qj && ck == -qk && cw == qw
    requires pi == qw * ui + qi * uw + qj * uk - qk * uj
    requires pj == qw * uj - qi * uk + qj * uw + qk * ui
    requires pk == qw * uk + qi * uj - qj * ui + qk * uw
    requires pw == qw * uw - qi * ui - qj * uj - qk * uk
    requires ti == pw * ci + pi * cw + pj * ck - pk * cj
    requires m0 == 1.0 - qj * qj * 2.0 - qk * qk * 2.0
    requires m1 == qi * qj * 2.0 - qk * qw * 2.0
    requires m2 == qi * qk * 2.0 + qj * qw * 2.0
    ensures ti == m0 * vx + m1 * vy + m2 * vz
  {
    assert ti == qi * qi * vx + 2.0 * qi * qj * vy + 2.0 * qi * qk * vz + 2.0 * qj * qw * vz + qw * qw * vx - qj * qj * vx - qk * qk * vx - 2.0 * qk * qw * vy;
    assert (qi * qi + qw * qw) * vx == (1.0 - qj * qj - qk * qk) * vx;
  }

  lemma InitRotationFromQuatRotatesY(q: Quat, v: Vec3)
    requires Quaternion.IsUnit(q)
    ensures MulVec3(InitRotationFromQuat(q), v).y == Quaternion.RotateVec3(q, v).y
  {
    var u := Quaternion.Pure(v);
    var p := Quaternion.MulQuat(q, u);
    var c := Quaternion.Conjugate(q);
    var t := Quaternion.MulQuat(p, c);
    var m := InitRotationFromQuat(q);
    assert Quaternion.Pure(Quaternion.RotateVec3(q, v)) == t;
    RotationY(q.i, q.j, q.k, q.w, v.x, v.y, v.z, u.i, u.j, u.k, u.w, p.i, p.j, p.k, p.w,
              c.i, c.j, c.k, c.w, t.j, m.m10, m.m11, m.m12);
  }

  lemma RotationY(qi: real, qj: real, qk: real, qw: real, vx: real, vy: real, vz: real,
                  ui: real, uj: real, uk: real, uw: real, pi: real, pj: real, pk: real, pw: real,
                  ci: real, cj: real, ck: real, cw: real, tj: real, m0: real, m1: real, m2: real)
    requires qi * qi + qj * qj + qk * qk + qw * qw == 1.0
    requires ui == vx && uj == vy && uk == vz && uw == 0.0
    requires ci == -qi && cj == -qj && ck == -qk && cw == qw
    requires pi == qw * ui + qi * uw + qj * uk - qk * uj
    requires pj == qw * uj - qi * uk + qj * uw + qk * ui
    requires pk == qw * uk + qi * uj - qj * ui + qk * uw
    requires pw == qw * uw - qi * ui - qj * uj - qk * uk
    requires tj == pw * cj - pi * ck + pj * cw + pk * ci
    requires m0 == qi * qj * 2.0 + qk * qw * 2.0
    requires m1 == 1.0 - qi * qi * 2.0 - qk * qk * 2.0
    requires m2 == qj * qk * 2.0 - qi * qw * 2.0
    ensures tj == m0 * vx + m1 * vy + m2 * vz
  {
    assert tj == 2.0 * qi * qj * vx + qj * qj * vy + 2.0 * qj * qk * vz + 2.0 * qk * qw * vx + qw * qw * vy - qi * qi * vy - 2.0 * qi * qw * vz - qk * qk * vy;
    assert (qj * qj + qw * qw) * vy == (1.0 - qi * qi - qk * qk) * vy;
  }

  lemma InitRotationFromQuatRotatesZ(q: Quat, v: Vec3)
    requires Quaternion.IsUnit(q)
    ensures MulVec3(InitRotationFromQuat(q), v).z == Quaternion.RotateVec3(q, v).z
  {
    var u := Quaternion.Pure(v);
    var p := Quaternion.MulQuat(q, u);
    var c := Quaternion.Conjugate(q);
    var t := Quaternion.MulQuat(p, c);
    var m := InitRotationFromQuat(q);
    assert Quaternion.Pure(Quaternion.RotateVec3(q, v)) == t;
    RotationZ(q.i, q.j, q.k, q.w, v.x, v.y, v.z, u.i, u.j, u.k, u.w, p.i, p.j, p.k, p.w,
              c.i, c.j, c.k, c.w, t.k, m.m20, m.m21, m.m22);
  }

  lemma RotationZ(qi: real, qj: real, qk: real, qw: real, vx: real, vy: real, vz: real,
                  ui: real, uj: real, uk: real, uw: real, pi: real, pj: real, pk: real, pw: real,
                  ci: real, cj: real, ck: real, cw: real, tk: real, m0: real, m1: real, m2: real)
    requires qi * qi + qj * qj + qk * qk + qw * qw == 1.0
    requires ui == vx && uj == vy && uk == vz && uw == 0.0
    requires ci == -qi && cj == -qj && ck == -qk && cw == qw
    requires pi == qw * ui + qi * uw + qj * uk - qk * uj
    requires pj == qw * uj - qi * uk + qj * uw + qk * ui
    requires pk == qw * uk + qi * uj - qj * ui + qk * uw
    requires pw == qw * uw - qi * ui - qj * uj - qk * uk
    requires tk == pw * ck + pi * cj - pj * ci + pk * cw
    requires m0 == qi * qk * 2.0 - qj * qw * 2.0
    requires m1 == qj * qk * 2.0 + qi * qw * 2.0
    requires m2 == 1.0 - qi * qi * 2.0 - qj * qj * 2.0
    ensures tk == m0 * vx + m1 * vy + m2 * vz
  {
    assert tk == 2.0 * qi * qk * vx + 2.0 * qi * qw * vy + 2.0 * qj * qk * vy + qk * qk * vz + qw * qw * vz - qi * qi * vz - qj * qj * vz - 2.0 * qj * qw * vx;
    assert (qk * qk + qw * qw) * vz == (1.0 - qi * qi - qj * qj) * vz;
  }
  /** Sets the 2D rotation by r radians about z into the upper-left 2x2 block. */
  function Rotate(lib: Libm, m: Mat3x3, r: real): (res: Mat3x3)
    ensures res.At(0, 0) == lib.cos(r) && res.At(0, 1) == -lib.sin(r)
    ensures res.At(1, 0) == lib.sin(r) && res.At(1, 1) == lib.cos(r)
    ensures forall i: nat, j: nat | i < 3 && j < 3 && (i == 2 || j == 2) :: res.At(i, j) == m.At(i, j)
  {
    var cosTheta := lib.cos(r);
    var sinTheta := lib.sin(r);
    m.(m00 := cosTheta, m01 := -sinTheta, m10 := sinTheta, m11 := cosTheta)
  }

  /** Rotating the identity and applying it turns (x, y) by r and keeps the last component. */
  lemma RotateIdentity(lib: Libm, r: real, v: Vec3)
    ensures MulVec3(Rotate(lib, InitIdentity(), r), v)
         == Vec3(lib.cos(r) * v.x - lib.sin(r) * v.y, lib.sin(r) * v.x + lib.cos(r) * v.y, v.z)
  {
  }

  /** Sets the scale factors on the first two diagonal cells. */
  function Scale(m: Mat3x3, s: Vec2): (res: Mat3x3)
    ensures res.At(0, 0) == s.x && res.At(1, 1) == s.y
    ensures forall i: nat, j: nat | i < 3 && j < 3 && !(i == j && i < 2) :: res.At(i, j) == m.At(i, j)
  {
    m.(m00 := s.x, m11 := s.y)
  }

  /** Sets the translation into the last column of the first two rows. */
  function Translate(m: Mat3x3, t: Vec2): (res: Mat3x3)
    ensures res.At(0, 2) == t.x && res.At(1, 2) == t.y
    ensures forall i: nat, j: nat | i < 3 && j < 3 && !(j == 2 && i < 2) :: res.At(i, j) == m.At(i, j)
  {
    m.(m02 := t.x, m12 := t.y)
  }

  /** On the identity, Scale scales a point and Translate moves it (in homogeneous coordinates). */
  lemma ScaleTranslateIdentity(s: Vec2, t: Vec2, v: Vec2)
    ensures MulVec3(Scale(InitIdentity(), s), Vec3(v.x, v.y, 1.0)) == Vec3(s.x * v.x, s.y * v.y, 1.0)
    ensures MulVec3(Translate(InitIdentity(), t), Vec3(v.x, v.y, 1.0)) == Vec3(v.x + t.x, v.y + t.y, 1.0)
  {
  }

  /** The upper-left 3x3 block of a 4x4 matrix. */
  function FromMat4x4(m: Mat4x4): (r: Mat3x3)
    ensures forall i: nat, j: nat | i < 3 && j < 3 :: r.At(i, j) == m.At(i, j)
  {
    Mat3x3(m.m00, m.m01, m.m02, m.m10, m.m11, m.m12, m.m20, m.m21, m.m22)
  }

  /** The matrix product a·b. */
  function MulMat3x3(a: Mat3x3, b: Mat3x3): Mat3x3
  {
    Mat3x3(a.m00 * b.m00 + a.m01 * b.m10 + a.m02 * b.m20, a.m00 * b.m01 + a.m01 * b.m11 + a.m02 * b.m21, a.m00 * b.m02 + a.m01 * b.m12 + a.m02 * b.m22,
           a.m10 * b.m00 + a.m11 * b.m10 + a.m12 * b.m20, a.m10 * b.m01 + a.m11 * b.m11 + a.m12 * b.m21, a.m10 * b.m02 + a.m11 * b.m12 + a.m12 * b.m22,
           a.m20 * b.m00 + a.m21 * b.m10 + a.m22 * b.m20, a.m20 * b.m01 + a.m21 * b.m11 + a.m22 * b.m21, a.m20 * b.m02 + a.m21 * b.m12 + a.m22 * b.m22)
  }

  /** The first n terms of the sum over k of a[i][k]·b[k][j]. */
  function RowTimesColumn(a: Mat3x3, b: Mat3x3, i: nat, j: nat, n: nat): real
    requires i < 3 && j < 3 && n <= 3
  {
    if n == 0 then 0.0 else RowTimesColumn(a, b, i, j, n - 1) + a.At(i, n - 1) * b.At(n - 1, j)
  }

  /** Cell (i, j) of a·b is row i of a times column j of b. */
  lemma MulMat3x3RowColumn(a: Mat3x3, b: Mat3x3)
    ensures forall i: nat, j: nat | i < 3 && j < 3 :: MulMat3x3(a, b).At(i, j) == RowTimesColumn(a, b, i, j, 3)
  {
    forall i: nat, j: nat | i < 3 && j < 3
      ensures MulMat3x3(a, b).At(i, j) == RowTimesColumn(a, b, i, j, 3)
    {
      if i == 0 && j == 0 {
        RowTimesColumn00(a, b);
      } else if i == 0 && j == 1 {
        RowTimesColumn01(a, b);
      } else if i == 0 && j == 2 {
        RowTimesColumn02(a, b);
      } else if i == 1 && j == 0 {
        RowTimesColumn10(a, b);
      } else if i == 1 && j == 1 {
        RowTimesColumn11(a, b);
      } else if i == 1 && j == 2 {
        RowTimesColumn12(a, b);
      } else if i == 2 && j == 0 {
        RowTimesColumn20(a, b);
      } else if i == 2 && j == 1 {
        RowTimesColumn21(a, b);
      } else {
        RowTimesColumn22(a, b);
      }
    }
  }

  // MulMat3x3RowColumn one cell at a time.

  lemma RowTimesColumn00(a: Mat3x3, b: Mat3x3)
    ensures MulMat3x3(a, b).At(0, 0) == RowTimesColumn(a, b, 0, 0, 3)
  {
    assert RowTimesColumn(a, b, 0, 0, 1) == a.m00 * b.m00;
    assert RowTimesColumn(a, b, 0, 0, 2) == a.m00 * b.m00 + a.m01 * b.m10;
  }

  lemma RowTimesColumn01(a: Mat3x3, b: Mat3x3)
    ensures MulMat3x3(a, b).At(0, 1) == RowTimesColumn(a, b, 0, 1, 3)
  {
    assert RowTimesColumn(a, b, 0, 1, 1) == a.m00 * b.m01;
    assert RowTimesColumn(a, b, 0, 1, 2) == a.m00 * b.m01 + a.m01 * b.m11;
  }

  lemma RowTimesColumn02(a: Mat3x3, b: Mat3x3)
    ensures MulMat3x3(a, b).At(0, 2) == RowTimesColumn(a, b, 0, 2, 3)
  {
    assert RowTimesColumn(a, b, 0, 2, 1) == a.m00 * b.m02;
    assert RowTimesColumn(a, b, 0, 2, 2) == a.m00 * b.m02 + a.m01 * b.m12;
  }

  lemma RowTimesColumn10(a: Mat3x3, b: Mat3x3)
    ensures MulMat3x3(a, b).At(1, 0) == RowTimesColumn(a, b, 1, 0, 3)
  {
    assert RowTimesColumn(a, b, 1, 0, 1) == a.m10 * b.m00;
    assert RowTimesColumn(a, b, 1, 0, 2) == a.m10 * b.m00 + a.m11 * b.m10;
  }

  lemma RowTimesColumn11(a: Mat3x3, b: Mat3x3)
    ensures MulMat3x3(a, b).At(1, 1) == RowTimesColumn(a, b, 1, 1, 3)
  {
    assert RowTimesColumn(a, b, 1, 1, 1) == a.m10 * b.m01;
    assert RowTimesColumn(a, b, 1, 1, 2) == a.m10 * b.m01 + a.m11 * b.m11;
  }

  lemma RowTimesColumn12(a: Mat3x3, b: Mat3x3)
    ensures MulMat3x3(a, b).At(1, 2) == RowTimesColumn(a, b, 1, 2, 3)
  {
    assert RowTimesColumn(a, b, 1, 2, 1) == a.m10 * b.m02;
    assert RowTimesColumn(a, b, 1, 2, 2) == a.m10 * b.m02 + a.m11 * b.m12;
  }

  lemma RowTimesColumn20(a: Mat3x3, b: Mat3x3)
    ensures MulMat3x3(a, b).At(2, 0) == RowTimesColumn(a, b, 2, 0, 3)
  {
    assert RowTimesColumn(a, b, 2, 0, 1) == a.m20 * b.m00;
    assert RowTimesColumn(a, b, 2, 0, 2) == a.m20 * b.m00 + a.m21 * b.m10;
  }

  lemma RowTimesColumn21(a: Mat3x3, b: Mat3x3)
    ensures MulMat3x3(a, b).At(2, 1) == RowTimesColumn(a, b, 2, 1, 3)
  {
    assert RowTimesColumn(a, b, 2, 1, 1) == a.m20 * b.m01;
    assert RowTimesColumn(a, b, 2, 1, 2) == a.m20 * b.m01 + a.m21 * b.m11;
  }

  lemma RowTimesColumn22(a: Mat3x3, b: Mat3x3)
    ensures MulMat3x3(a, b).At(2, 2) == RowTimesColumn(a, b, 2, 2, 3)
  {
    assert RowTimesColumn(a, b, 2, 2, 1) == a.m20 * b.m02;
    assert RowTimesColumn(a, b, 2, 2, 2) == a.m20 * b.m02 + a.m21 * b.m12;
  }

  /** The triple loop of the source: each cell is accumulated from zero over k,
      and the result is the matrix product. */
  method MulMat3x3Loops(a: Mat3x3, b: Mat3x3) returns (res: Mat3x3)
    ensures res == MulMat3x3(a, b)
  {
    res := Zero();
    for i: nat := 0 to 3
      invariant forall i': nat, j': nat | i' < i && j' < 3 :: res.At(i', j') == RowTimesColumn(a, b, i', j', 3)
    {
      for j: nat := 0 to 3
        invariant forall i': nat, j': nat | i' < i && j' < 3 :: res.At(i', j') == RowTimesColumn(a, b, i', j', 3)
        invariant forall j': nat | j' < j :: res.At(i, j') == RowTimesColumn(a, b, i, j', 3)
      {
        var sum := 0.0;
        for k: nat := 0 to 3
          invariant sum == RowTimesColumn(a, b, i, j, k)
        {
          sum := sum + a.At(i, k) * b.At(k, j);
        }
        res := res.Set(i, j, sum);
      }
    }
    MulMat3x3RowColumn(a, b);
    Mat3x3Cells(res, MulMat3x3(a, b));
  }

  /** The product of a matrix and a column vector. */
  function MulVec3(a: Mat3x3, b: Vec3): Vec3
  {
    Vec3(a.m00 * b.x + a.m01 * b.y + a.m02 * b.z,
         a.m10 * b.x + a.m11 * b.y + a.m12 * b.z,
         a.m20 * b.x + a.m21 * b.y + a.m22 * b.z)
  }

  /** The identity is a unit of the product on both sides and leaves vectors unchanged. */
  lemma IdentityIsUnit(m: Mat3x3, v: Vec3)
    ensures MulMat3x3(InitIdentity(), m) == m
    ensures MulMat3x3(m, InitIdentity()) == m
    ensures MulVec3(InitIdentity(), v) == v
  {
  }

  /** Applying a·b to v is applying b and then a. */
  lemma MulVec3Compose(a: Mat3x3, b: Mat3x3, v: Vec3)
    ensures MulVec3(MulMat3x3(a, b), v) == MulVec3(a, MulVec3(b, v))
  {
    MulVec3ComposeX(a, b, v);
    MulVec3ComposeY(a, b, v);
    MulVec3ComposeZ(a, b, v);
  }

  lemma MulVec3ComposeX(a: Mat3x3, b: Mat3x3, v: Vec3)
    ensures MulVec3(MulMat3x3(a, b), v).x == MulVec3(a, MulVec3(b, v)).x
  {
    var ab := MulMat3x3(a, b);
    var bv := MulVec3(b, v);
    PolyAssoc3(a.m00, a.m01, a.m02, b.m00, b.m01, b.m02, b.m10, b.m11, b.m12, b.m20, b.m21, b.m22,
               v.x, v.y, v.z, ab.m00, ab.m01, ab.m02, bv.x, bv.y, bv.z);
  }

  lemma MulVec3ComposeY(a: Mat3x3, b: Mat3x3, v: Vec3)
    ensures MulVec3(MulMat3x3(a, b), v).y == MulVec3(a, MulVec3(b, v)).y
  {
    var ab := MulMat3x3(a, b);
    var bv := MulVec3(b, v);
    PolyAssoc3(a.m10, a.m11, a.m12, b.m00, b.m01, b.m02, b.m10, b.m11, b.m12, b.m20, b.m21, b.m22,
               v.x, v.y, v.z, ab.m10, ab.m11, ab.m12, bv.x, bv.y, bv.z);
  }

  lemma MulVec3ComposeZ(a: Mat3x3, b: Mat3x3, v: Vec3)
    ensures MulVec3(MulMat3x3(a, b), v).z == MulVec3(a, MulVec3(b, v)).z
  {
    var ab := MulMat3x3(a, b);
    var bv := MulVec3(b, v);
    PolyAssoc3(a.m20, a.m21, a.m22, b.m00, b.m01, b.m02, b.m10, b.m11, b.m12, b.m20, b.m21, b.m22,
               v.x, v.y, v.z, ab.m20, ab.m21, ab.m22, bv.x, bv.y, bv.z);
  }

  /** The matrix product is associative. */
  lemma MulMat3x3Associative(a: Mat3x3, b: Mat3x3, c: Mat3x3)
    ensures MulMat3x3(MulMat3x3(a, b), c) == MulMat3x3(a, MulMat3x3(b, c))
  {
    MulMat3x3AssociativeCell00(a, b, c);
    MulMat3x3AssociativeCell01(a, b, c);
    MulMat3x3AssociativeCell02(a, b, c);
    MulMat3x3AssociativeCell10(a, b, c);
    MulMat3x3AssociativeCell11(a, b, c);
    MulMat3x3AssociativeCell12(a, b, c);
    MulMat3x3AssociativeCell20(a, b, c);
    MulMat3x3AssociativeCell21(a, b, c);
    MulMat3x3AssociativeCell22(a, b, c);
  }

  // MulMat3x3Associative one cell at a time.

  lemma MulMat3x3AssociativeCell00(a: Mat3x3, b: Mat3x3, c: Mat3x3)
    ensures MulMat3x3(MulMat3x3(a, b), c).m00 == MulMat3x3(a, MulMat3x3(b, c)).m00
  {
    var ab := MulMat3x3(a, b);
    var bc := MulMat3x3(b, c);
    PolyAssoc3(a.m00, a.m01, a.m02, b.m00, b.m01, b.m02, b.m10, b.m11, b.m12, b.m20, b.m21, b.m22,
               c.m00, c.m10, c.m20, ab.m00, ab.m01, ab.m02, bc.m00, bc.m10, bc.m20);
  }

  lemma MulMat3x3AssociativeCell01(a: Mat3x3, b: Mat3x3, c: Mat3x3)
    ensures MulMat3x3(MulMat3x3(a, b), c).m01 == MulMat3x3(a, MulMat3x3(b, c)).m01
  {
    var ab := MulMat3x3(a, b);
    var bc := MulMat3x3(b, c);
    PolyAssoc3(a.m00, a.m01, a.m02, b.m00, b.m01, b.m02, b.m10, b.m11, b.m12, b.m20, b.m21, b.m22,
               c.m01, c.m11, c.m21, ab.m00, ab.m01, ab.m02, bc.m01, bc.m11, bc.m21);
  }

  lemma MulMat3x3AssociativeCell02(a: Mat3x3, b: Mat3x3, c: Mat3x3)
    ensures MulMat3x3(MulMat3x3(a, b), c).m02 == MulMat3x3(a, MulMat3x3(b, c)).m02
  {
    var ab := MulMat3x3(a, b);
    var bc := MulMat3x3(b, c);
    PolyAssoc3(a.m00, a.m01, a.m02, b.m00, b.m01, b.m02, b.m10, b.m11, b.m12, b.m20, b.m21, b.m22,
               c.m02, c.m12, c.m22, ab.m00, ab.m01, ab.m02, bc.m02, bc.m12, bc.m22);
  }

  lemma MulMat3x3AssociativeCell10(a: Mat3x3, b: Mat3x3, c: Mat3x3)
    ensures MulMat3x3(MulMat3x3(a, b), c).m10 == MulMat3x3(a, MulMat3x3(b, c)).m10
  {
    var ab := MulMat3x3(a, b);
    var bc := MulMat3x3(b, c);
    PolyAssoc3(a.m10, a.m11, a.m12, b.m00, b.m01, b.m02, b.m10, b.m11, b.m12, b.m20, b.m21, b.m22,
               c.m00, c.m10, c.m20, ab.m10, ab.m11, ab.m12, bc.m00, bc.m10, bc.m20);
  }

  lemma MulMat3x3AssociativeCell11(a: Mat3x3, b: Mat3x3, c: Mat3x3)
    ensures MulMat3x3(MulMat3x3(a, b), c).m11 == MulMat3x3(a, MulMat3x3(b, c)).m11
  {
    var ab := MulMat3x3(a, b);
    var bc := MulMat3x3(b, c);
    PolyAssoc3(a.m10, a.m11, a.m12, b.m00, b.m01, b.m02, b.m10, b.m11, b.m12, b.m20, b.m21, b.m22,
               c.m01, c.m11, c.m21, ab.m10, ab.m11, ab.m12, bc.m01, bc.m11, bc.m21);
  }

  lemma MulMat3x3AssociativeCell12(a: Mat3x3, b: Mat3x3, c: Mat3x3)
    ensures MulMat3x3(MulMat3x3(a, b), c).m12 == MulMat3x3(a, MulMat3x3(b, c)).m12
  {
    var ab := MulMat3x3(a, b);
    var bc := MulMat3x3(b, c);
    PolyAssoc3(a.m10, a.m11, a.m12, b.m00, b.m01, b.m02, b.m10, b.m11, b.m12, b.m20, b.m21, b.m22,
               c.m02, c.m12, c.m22, ab.m10, ab.m11, ab.m12, bc.m02, bc.m12, bc.m22);
  }

  lemma MulMat3x3AssociativeCell20(a: Mat3x3, b: Mat3x3, c: Mat3x3)
    ensures MulMat3x3(MulMat3x3(a, b), c).m20 == MulMat3x3(a, MulMat3x3(b, c)).m20
  {
    var ab := MulMat3x3(a, b);
    var bc := MulMat3x3(b, c);
    PolyAssoc3(a.m20, a.m21, a.m22, b.m00, b.m01, b.m02, b.m10, b.m11, b.m12, b.m20, b.m21, b.m22,
               c.m00, c.m10, c.m20, ab.m20, ab.m21, ab.m22, bc.m00, bc.m10, bc.m20);
  }

  lemma MulMat3x3AssociativeCell21(a: Mat3x3, b: Mat3x3, c: Mat3x3)
    ensures MulMat3x3(MulMat3x3(a, b), c).m21 == MulMat3x3(a, MulMat3x3(b, c)).m21
  {
    var ab := MulMat3x3(a, b);
    var bc := MulMat3x3(b, c);
    PolyAssoc3(a.m20, a.m21, a.m22, b.m00, b.m01, b.m02, b.m10, b.m11, b.m12, b.m20, b.m21, b.m22,
               c.m01, c.m11, c.m21, ab.m20, ab.m21, ab.m22, bc.m01, bc.m11, bc.m21);
  }

  lemma MulMat3x3AssociativeCell22(a: Mat3x3, b: Mat3x3, c: Mat3x3)
    ensures MulMat3x3(MulMat3x3(a, b), c).m22 == MulMat3x3(a, MulMat3x3(b, c)).m22
  {
    var ab := MulMat3x3(a, b);
    var bc := MulMat3x3(b, c);
    PolyAssoc3(a.m20, a.m21, a.m22, b.m00, b.m01, b.m02, b.m10, b.m11, b.m12, b.m20, b.m21, b.m22,
               c.m02, c.m12, c.m22, ab.m20, ab.m21, ab.m22, bc.m02, bc.m12, bc.m22);
  }

  /** One cell of (a·b)·c against a·(b·c): the row (a0, a1, a2) of a, the matrix b,
      the column (c0, c1, c2) of c, the row l of a·b and the column r of b·c. */
  lemma PolyAssoc3(a0: real, a1: real, a2: real,
                   b00: real, b01: real, b02: real, b10: real, b11: real, b12: real, b20: real, b21: real, b22: real,
                   c0: real, c1: real, c2: real, l0: real, l1: real, l2: real, r0: real, r1: real, r2: real)
    requires l0 == a0 * b00 + a1 * b10 + a2 * b20
    requires l1 == a0 * b01 + a1 * b11 + a2 * b21
    requires l2 == a0 * b02 + a1 * b12 + a2 * b22
    requires r0 == b00 * c0 + b01 * c1 + b02 * c2
    requires r1 == b10 * c0 + b11 * c1 + b12 * c2
    requires r2 == b20 * c0 + b21 * c1 + b22 * c2
    ensures l0 * c0 + l1 * c1 + l2 * c2 == a0 * r0 + a1 * r1 + a2 * r2
  {
  }
}
