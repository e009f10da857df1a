/** Vec3 operations (vec3.c): those of Vec2 plus the cross product. */
module Vector3 {
  import opened M3d
  import opened CMath
  import Math1D
  import Polynomials

  /** The vector (s, s, s). */
  function Splat(s: real): Vec3
  {
    Vec3(s, s, s)
  }

  function Dot(a: Vec3, b: Vec3): real
  {
    a.x * b.x + a.y * b.y + a.z * b.z
  }

  /** The dot product does not depend on the order of its operands. */
  lemma DotSymmetric(a: Vec3, b: Vec3)
    ensures Dot(a, b) == Dot(b, a)
  {
  }

  /** The cross product a × b: perpendicular to both a and b. */
  function Cross(a: Vec3, b: Vec3): (r: Vec3)
    ensures Dot(r, a) == 0.0 && Dot(r, b) == 0.0
  {
    Vec3(a.y * b.z - a.z * b.y,
         a.z * b.x - a.x * b.z,
         a.x * b.y - a.y * b.x)
  }

  /** Swapping the operands of the cross product negates it. */
  lemma CrossAntiCommutative(a: Vec3, b: Vec3)
    ensures Cross(a, b) == MulValue(Cross(b, a), -1.0)
  {
  }

  /** The right-handed basis: x × y = z. */
  lemma CrossBasis()
    ensures Cross(Vec3(1.0, 0.0, 0.0), Vec3(0.0, 1.0, 0.0)) == Vec3(0.0, 0.0, 1.0)
  {
  }

  /** The squared length is v·v. */
  function LengthSqr(v: Vec3): (r: real)
    ensures r == Dot(v, v)
  {
    v.x * v.x + v.y * v.y + v.z * v.z
  }

  /** A squared length is never negative. */
  lemma LengthSqrNonNegative(v: Vec3)
    ensures 0.0 <= LengthSqr(v)
  {
  }

  /** The length: sqrt of the squared length. */
  function Length(lib: Libm, v: Vec3): real
  {
    lib.sqrt(LengthSqr(v))
  }

  /** The distance between a and b, the length of b - a. */
  function Distance(lib: Libm, a: Vec3, b: Vec3): (r: real)
    ensures r == Length(lib, SubVec3(a, b))
  {
    assert LengthSqr(SubVec3(b, a)) == LengthSqr(SubVec3(a, b));
    Length(lib, SubVec3(b, a))
  }

  /** The distance from a to b is the distance from b to a. */
  lemma DistanceSymmetric(lib: Libm, a: Vec3, b: Vec3)
    ensures Distance(lib, a, b) == Distance(lib, b, a)
  {
  }

  /** The product of the two lengths, the denominator of Angle. */
  function LengthProduct(lib: Libm, a: Vec3, b: Vec3): real
  {
    Length(lib, a) * Length(lib, b)
  }

  /** The angle acos(a·b / (|a|·|b|)). */
  function Angle(lib: Libm, a: Vec3, b: Vec3): real
    requires LengthProduct(lib, a, b) != 0.0
  {
    var numerator := Dot(a, b);
    var denominator := LengthProduct(lib, a, b);
    lib.acos(numerator / denominator)
  }

  /** The angle is the same whichever vector comes first. */
  lemma AngleSymmetric(lib: Libm, a: Vec3, b: Vec3)
    requires LengthProduct(lib, a, b) != 0.0
    ensures LengthProduct(lib, b, a) != 0.0
    ensures Angle(lib, a, b) == Angle(lib, b, a)
  {
  }

  /** With an exact square root, a non-zero vector makes the angle acos(1) with itself. */
  lemma AngleSelf(lib: Libm, a: Vec3)
    requires SqrtAt(lib, LengthSqr(a))
    requires LengthSqr(a) != 0.0
    ensures LengthProduct(lib, a, a) != 0.0
    ensures Angle(lib, a, a) == lib.acos(1.0)
  {
    assert LengthProduct(lib, a, a) == Dot(a, a);
    assert Dot(a, a) / LengthProduct(lib, a, a) == 1.0;
  }




  /** Component-wise linear interpolation: a + t·(b - a), exact at both ends, t not clamped. */
  function Lerp(a: Vec3, b: Vec3, t: real): (r: Vec3)
    ensures SubVec3(r, a) == MulValue(SubVec3(b, a), t)
    ensures t == 0.0 ==> r == a
    ensures t == 1.0 ==> r == b
  {
    Vec3(Math1D.Lerp(a.x, b.x, t), Math1D.Lerp(a.y, b.y, t), Math1D.Lerp(a.z, b.z, t))
  }

  /** Each component is the larger of the pair, taken from a or from b. */
  function Max(a: Vec3, b: Vec3): (r: Vec3)
    ensures a.x <= r.x && b.x <= r.x && (r.x == a.x || r.x == b.x)
    ensures a.y <= r.y && b.y <= r.y && (r.y == a.y || r.y == b.y)
    ensures a.z <= r.z && b.z <= r.z && (r.z == a.z || r.z == b.z)
  {
    Vec3(Math1D.Max(a.x, b.x), Math1D.Max(a.y, b.y), Math1D.Max(a.z, b.z))
  }

  /** Each component is the smaller of the pair, taken from a or from b. */
  function Min(a: Vec3, b: Vec3): (r: Vec3)
    ensures r.x <= a.x && r.x <= b.x && (r.x == a.x || r.x == b.x)
    ensures r.y <= a.y && r.y <= b.y && (r.y == a.y || r.y == b.y)
    ensures r.z <= a.z && r.z <= b.z && (r.z == a.z || r.z == b.z)
  {
    Vec3(Math1D.Min(a.x, b.x), Math1D.Min(a.y, b.y), Math1D.Min(a.z, b.z))
  }

  /** Min lies below Max in every component, and both ignore the order of their operands. */
  lemma MinBelowMax(a: Vec3, b: Vec3)
    ensures Min(a, b).x <= Max(a, b).x && Min(a, b).y <= Max(a, b).y && Min(a, b).z <= Max(a, b).z
    ensures Min(a, b) == Min(b, a) && Max(a, b) == Max(b, a)
  {
  }

  /** v divided by its length: a vector along v that, scaled back by the length, gives v. */
  function Normalized(lib: Libm, v: Vec3): (r: Vec3)
    requires Length(lib, v) != 0.0
    ensures MulValue(r, Length(lib, v)) == v
  {
    DivValue(v, Length(lib, v))
  }

  /** When sqrt is exact, a normalized vector has unit length. */
  lemma NormalizedIsUnit(lib: Libm, v: Vec3)
    requires Length(lib, v) != 0.0
    requires SqrtAt(lib, LengthSqr(v))
    ensures LengthSqr(Normalized(lib, v)) == 1.0
  {
    Polynomials.DivByLength3(v.x, v.y, v.z, Length(lib, v));
  }

  /** The reflection v - 2·(v·n)/|n|²·n of v about the normal n, which need not
      have unit length: it flips the component along n and keeps the length. */
  function Reflect(v: Vec3, n: Vec3): (r: Vec3)
    requires LengthSqr(n) != 0.0
    ensures Dot(r, n) == -Dot(v, n)
    ensures LengthSqr(r) == LengthSqr(v)
  {
    var numerator := Dot(MulValue(v, 2.0), n);
    var s := numerator / LengthSqr(n);
    var a := MulValue(n, s);
    assert s * LengthSqr(n) == 2.0 * Dot(v, n);
    assert Dot(a, n) == s * LengthSqr(n);
    assert Dot(v, a) == s * Dot(v, n);
    assert LengthSqr(a) == s * (s * LengthSqr(n));
    Vec3(v.x - a.x, v.y - a.y, v.z - a.z)
  }

  /** Reflecting twice about the same normal gives back the original vector. */
  lemma ReflectInvolution(v: Vec3, n: Vec3)
    requires LengthSqr(n) != 0.0
    ensures Reflect(Reflect(v, n), n) == v
  {
    var r := Reflect(v, n);
    var s := Dot(MulValue(v, 2.0), n) / LengthSqr(n);
    var s' := Dot(MulValue(r, 2.0), n) / LengthSqr(n);
    assert r == SubVec3(v, MulValue(n, s));
    assert Dot(MulValue(r, 2.0), n) == -Dot(MulValue(v, 2.0), n);
    assert s' == -s;
  }

  /** Reflecting about the y axis negates the y component and keeps the others. */
  lemma ReflectAboutYAxis(v: Vec3)
    ensures Reflect(v, Vec3(0.0, 1.0, 0.0)) == Vec3(v.x, -v.y, v.z)
  {
    var n := Vec3(0.0, 1.0, 0.0);
    assert LengthSqr(n) == 1.0;
    assert Dot(MulValue(v, 2.0), n) == 2.0 * v.y;
  }

  /** A vector going down and right bounces off the floor going up and right. */
  lemma ReflectOffFloor()
    ensures Reflect(Vec3(1.0, -1.0, 0.0), Vec3(0.0, 1.0, 0.0)) == Vec3(1.0, 1.0, 0.0)
  {
    ReflectAboutYAxis(Vec3(1.0, -1.0, 0.0));
  }

  /** The direction slerp moves toward: b minus its projection on a, with the
      dot product clamped to [-1, 1]. */
  function SlerpOffset(a: Vec3, b: Vec3): Vec3
  {
    var dot := Math1D.Clamp(Dot(a, b), -1.0, 1.0);
    SubVec3(b, MulValue(a, dot))
  }

  /** Spherical interpolation cos(θ)·a + sin(θ)·offset with θ = acos(dot)·t;
      at t = 0 it is a, given cos 0 = 1 and sin 0 = 0. */
  function Slerp(lib: Libm, a: Vec3, b: Vec3, t: real): (r: Vec3)
    requires Length(lib, SlerpOffset(a, b)) != 0.0
    ensures t == 0.0 && lib.cos(0.0) == 1.0 && lib.sin(0.0) == 0.0 ==> r == a
  {
    var dot := Math1D.Clamp(Dot(a, b), -1.0, 1.0);
    var theta := lib.acos(dot) * t;
    var offset := Normalized(lib, SubVec3(b, MulValue(a, dot)));
    AddVec3(MulValue(a, lib.cos(theta)), MulValue(offset, lib.sin(theta)))
  }

  function AddVec3(a: Vec3, b: Vec3): Vec3
  {
    Vec3(a.x + b.x, a.y + b.y, a.z + b.z)
  }

  /** Adds b to each component: the same as adding the vector (b, b, b). */
  function AddValue(a: Vec3, b: real): (r: Vec3)
    ensures r == AddVec3(a, Splat(b))
  {
    Vec3(a.x + b, a.y + b, a.z + b)
  }

  /** Component-wise difference: adding b back gives a. */
  function SubVec3(a: Vec3, b: Vec3): (r: Vec3)
    ensures AddVec3(r, b) == a
  {
    Vec3(a.x - b.x, a.y - b.y, a.z - b.z)
  }

  /** Subtracts b from each component: the same as subtracting (b, b, b), undone by AddValue. */
  function SubValue(a: Vec3, b: real): (r: Vec3)
    ensures r == SubVec3(a, Splat(b))
    ensures AddValue(r, b) == a
  {
    Vec3(a.x - b, a.y - b, a.z - b)
  }

  function MulVec3(a: Vec3, b: Vec3): Vec3
  {
    Vec3(a.x * b.x, a.y * b.y, a.z * b.z)
  }

  /** Multiplies each component by b: the same as multiplying by (b, b, b). */
  function MulValue(a: Vec3, b: real): (r: Vec3)
    ensures r == MulVec3(a, Splat(b))
  {
    Vec3(a.x * b, a.y * b, a.z * b)
  }

  /** Component-wise quotient: multiplying back by b gives a. */
  function DivVec3(a: Vec3, b: Vec3): (r: Vec3)
    requires b.x != 0.0 && b.y != 0.0 && b.z != 0.0
    ensures MulVec3(r, b) == a
  {
    Vec3(a.x / b.x, a.y / b.y, a.z / b.z)
  }

  /** Divides each component by b: the same as dividing by (b, b, b), undone by MulValue. */
  function DivValue(a: Vec3, b: real): (r: Vec3)
    requires b != 0.0
    ensures r == DivVec3(a, Splat(b))
    ensures MulValue(r, b) == a
  {
    Vec3(a.x / b, a.y / b, a.z / b)
  }

  /** Exact comparison: true iff all three components are equal. */
  function Equal(a: Vec3, b: Vec3): (r: bool)
    ensures r <==> a == b
  {
    a.x == b.x && a.y == b.y && a.z == b.z
  }

  /** Subtraction undoes addition, and division undoes multiplication by a non-zero scalar. */
  lemma AddSubCancel(a: Vec3, b: Vec3, s: real)
    ensures SubVec3(AddVec3(a, b), b) == a
    ensures s != 0.0 ==> DivValue(MulValue(a, s), s) == a
  {
  }
}
