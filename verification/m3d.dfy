/** The value types of the library (m3d/m3d.h). Every scalar is a `real`,
    so the float/double build switch and IEEE rounding are abstracted away. */
module M3d {

  /** The library's PI and its degree/radian conversion factors. */
  const Pi: real := 3.1415926535897
  const ToRads: real := Pi / 180.0
  const ToDegs: real := 180.0 / Pi

  /** A two component vector. */
  datatype Vec2 = Vec2(x: real, y: real)

  /** A three component vector. */
  datatype Vec3 = Vec3(x: real, y: real, z: real)

  /** A four component vector (a homogeneous coordinate for Mat4x4). */
  datatype Vec4 = Vec4(x: real, y: real, z: real, w: real)

  /** A quaternion w + i·î + j·ĵ + k·k̂: (i, j, k) is the vector part, w the real part. */
  datatype Quat = Quat(i: real, j: real, k: real, w: real)

  /** A 3x3 matrix stored row-major: field mRC is the cell m[R][C]. */
  datatype Mat3x3 = Mat3x3(
    m00: real, m01: real, m02: real,
    m10: real, m11: real, m12: real,
    m20: real, m21: real, m22: real)
  {
    /** The cell m[row][col]. */
    function At(row: nat, col: nat): real
      requires row < 3 && col < 3
    {
      if row == 0 then (if col == 0 then m00 else if col == 1 then m01 else m02)
      else if row == 1 then (if col == 0 then m10 else if col == 1 then m11 else m12)
      else (if col == 0 then m20 else if col == 1 then m21 else m22)
    }

    /** The assignment m[row][col] = v: that cell becomes v, the other eight keep their value. */
    function Set(row: nat, col: nat, v: real): (r: Mat3x3)
      requires row < 3 && col < 3
      ensures r.At(row, col) == v
      ensures forall i: nat, j: nat | i < 3 && j < 3 && (i != row || j != col) :: r.At(i, j) == At(i, j)
    {
      if row == 0 then
        (if col == 0 then this.(m00 := v) else if col == 1 then this.(m01 := v) else this.(m02 := v))
      else if row == 1 then
        (if col == 0 then this.(m10 := v) else if col == 1 then this.(m11 := v) else this.(m12 := v))
      else
        (if col == 0 then this.(m20 := v) else if col == 1 then this.(m21 := v) else this.(m22 := v))
    }
  }

  /** A 4x4 matrix stored row-major: field mRC is the cell m[R][C]. */
  datatype Mat4x4 = Mat4x4(
    m00: real, m01: real, m02: real, m03: real,
    m10: real, m11: real, m12: real, m13: real,
    m20: real, m21: real, m22: real, m23: real,
    m30: real, m31: real, m32: real, m33: real)
  {
    /** The cell m[row][col]. */
    function At(row: nat, col: nat): real
      requires row < 4 && col < 4
    {
      if row == 0 then (if col == 0 then m00 else if col == 1 then m01 else if col == 2 then m02 else m03)
      else if row == 1 then (if col == 0 then m10 else if col == 1 then m11 else if col == 2 then m12 else m13)
      else if row == 2 then (if col == 0 then m20 else if col == 1 then m21 else if col == 2 then m22 else m23)
      else (if col == 0 then m30 else if col == 1 then m31 else if col == 2 then m32 else m33)
    }

    /** The assignment m[row][col] = v: that cell becomes v, the other fifteen keep their value. */
    function Set(row: nat, col: nat, v: real): (r: Mat4x4)
      requires row < 4 && col < 4
      ensures r.At(row, col) == v
      ensures forall i: nat, j: nat | i < 4 && j < 4 && (i != row || j != col) :: r.At(i, j) == At(i, j)
    {
      if row == 0 then
        (if col == 0 then this.(m00 := v) else if col == 1 then this.(m01 := v)
         else if col == 2 then this.(m02 := v) else this.(m03 := v))
      else if row == 1 then
        (if col == 0 then this.(m10 := v) else if col == 1 then this.(m11 := v)
         else if col == 2 then this.(m12 := v) else this.(m13 := v))
      else if row == 2 then
        (if col == 0 then this.(m20 := v) else if col == 1 then this.(m21 := v)
         else if col == 2 then this.(m22 := v) else this.(m23 := v))
      else
        (if col == 0 then this.(m30 := v) else if col == 1 then this.(m31 := v)
         else if col == 2 then this.(m32 := v) else this.(m33 := v))
    }
  }

  /** A 3x3 matrix is nothing but its nine cells m[row][col]. */
  lemma Mat3x3Cells(a: Mat3x3, b: Mat3x3)
    requires forall i: nat, j: nat | i < 3 && j < 3 :: a.At(i, j) == b.At(i, j)
    ensures a == b
  {
    assert a.At(0, 0) == b.At(0, 0) && a.At(0, 1) == b.At(0, 1) && a.At(0, 2) == b.At(0, 2);
    assert a.At(1, 0) == b.At(1, 0) && a.At(1, 1) == b.At(1, 1) && a.At(1, 2) == b.At(1, 2);
    assert a.At(2, 0) == b.At(2, 0) && a.At(2, 1) == b.At(2, 1) && a.At(2, 2) == b.At(2, 2);
  }

  /** A 4x4 matrix is nothing but its sixteen cells m[row][col]. */
  lemma Mat4x4Cells(a: Mat4x4, b: Mat4x4)
    requires forall i: nat, j: nat | i < 4 && j < 4 :: a.At(i, j) == b.At(i, j)
    ensures a == b
  {
    assert a.At(0, 0) == b.At(0, 0) && a.At(0, 1) == b.At(0, 1) && a.At(0, 2) == b.At(0, 2) && a.At(0, 3) == b.At(0, 3);
    assert a.At(1, 0) == b.At(1, 0) && a.At(1, 1) == b.At(1, 1) && a.At(1, 2) == b.At(1, 2) && a.At(1, 3) == b.At(1, 3);
    assert a.At(2, 0) == b.At(2, 0) && a.At(2, 1) == b.At(2, 1) && a.At(2, 2) == b.At(2, 2) && a.At(2, 3) == b.At(2, 3);
    assert a.At(3, 0) == b.At(3, 0) && a.At(3, 1) == b.At(3, 1) && a.At(3, 2) == b.At(3, 2) && a.At(3, 3) == b.At(3, 3);
  }
}

/** The C math library functions the source calls (math.h). Their values are
    not modelled: an operation that needs one takes the library as a parameter,
    so what is proved about it holds whatever those functions return, unless a
    contract names the fact about them it relies on. */
module CMath {

  datatype Libm = Libm(
    sin: real -> real,
    cos: real -> real,
    tan: real -> real,
    asin: real -> real,
    acos: real -> real,
    atan2: (real, real) -> real,
    sqrt: real -> real)

  /** sqrt(x) is the non-negative square root of x. */
  predicate SqrtAt(lib: Libm, x: real)
  {
    0.0 <= lib.sqrt(x) && lib.sqrt(x) * lib.sqrt(x) == x
  }

  /** sin(a) and cos(a) lie on the unit circle. */
  predicate OnUnitCircle(lib: Libm, a: real)
  {
    lib.sin(a) * lib.sin(a) + lib.cos(a) * lib.cos(a) == 1.0
  }
}
