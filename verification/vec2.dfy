/** Vec2 operations (vec2.c). */
module Vector2 {
  import opened M3d
  import opened CMath
  import Math1D
  import Polynomials

  /** The vector (s, s). */
  function Splat(s: real): Vec2
  {
    Vec2(s, s)
  }

  function Dot(a: Vec2, b: Vec2): real
  {
    a.x * b.x + a.y * b.y
  }

  /** The dot product does not depend on the order of its operands. */
  lemma DotSymmetric(a: Vec2, b: Vec2)
    ensures Dot(a, b) == Dot(b, a)
  {
  }

  /** The squared length is v·v. */
  function LengthSqr(v: Vec2): (r: real)
    ensures r == Dot(v, v)
  {
    v.x * v.x + v.y * v.y
  }

  /** A squared length is never negative. */
  lemma LengthSqrNonNegative(v: Vec2)
    ensures 0.0 <= LengthSqr(v)
  {
  }

  /** The length: sqrt of the squared length. */
  function Length(lib: Libm, v: Vec2): real
  {
    lib.sqrt(LengthSqr(v))
  }

  /** The distance between a and b, the length of b - a; measuring from either end gives the same value. */
  function Distance(lib: Libm, a: Vec2, b: Vec2): (r: real)
    ensures r == Length(lib, SubVec2(a, b))
  {
    assert LengthSqr(SubVec2(b, a)) == LengthSqr(SubVec2(a, b));
    Length(lib, SubVec2(b, a))
  }

  /** The distance from a to b is the distance from b to a. */
  lemma DistanceSymmetric(lib: Libm, a: Vec2, b: Vec2)
    ensures Distance(lib, a, b) == Distance(lib, b, a)
  {
  }

  /** The product of the two lengths, the denominator of Angle. */
  function LengthProduct(lib: Libm, a: Vec2, b: Vec2): real
  {
    Length(lib, a) * Length(lib, b)
  }

  /** The angle acos(a·b / (|a|·|b|)). */
  function Angle(lib: Libm, a: Vec2, b: Vec2): real
    requires LengthProduct(lib, a, b) != 0.0
  {
    var numerator := Dot(a, b);
    var denominator := LengthProduct(lib, a, b);
    lib.acos(numerator / denominator)
  }

  /** The angle is the same whichever vector comes first. */
  lemma AngleSymmetric(lib: Libm, a: Vec2, b: Vec2)
    requires LengthProduct(lib, a, b) != 0.0
    ensures LengthProduct(lib, b, a) != 0.0
    ensures Angle(lib, a, b) == Angle(lib, b, a)
  {
  }

  /** With an exact square root, a non-zero vector makes the angle acos(1) with itself. */
  lemma AngleSelf(lib: Libm, a: Vec2)
    requires SqrtAt(lib, LengthSqr(a))
    requires LengthSqr(a) != 0.0
    ensures LengthProduct(lib, a, a) != 0.0
    ensures Angle(lib, a, a) == lib.acos(1.0)
  {
    assert LengthProduct(lib, a, a) == Dot(a, a);
    assert Dot(a, a) / LengthProduct(lib, a, a) == 1.0;
  }




  /** Component-wise linear interpolation: a + t·(b - a), exact at both ends, t not clamped. */
  function Lerp(a: Vec2, b: Vec2, t: real): (r: Vec2)
    ensures SubVec2(r, a) == MulValue(SubVec2(b, a), t)
    ensures t == 0.0 ==> r == a
    ensures t == 1.0 ==> r == b
  {
    Vec2(Math1D.Lerp(a.x, b.x, t), Math1D.Lerp(a.y, b.y, t))
  }

  /** Each component is the larger of the pair, taken from a or from b. */
  function Max(a: Vec2, b: Vec2): (r: Vec2)
    ensures a.x <= r.x && b.x <= r.x && (r.x == a.x || r.x == b.x)
    ensures a.y <= r.y && b.y <= r.y && (r.y == a.y || r.y == b.y)
  {
    Vec2(Math1D.Max(a.x, b.x), Math1D.Max(a.y, b.y))
  }

  /** Each component is the smaller of the pair, taken from a or from b. */
  function Min(a: Vec2, b: Vec2): (r: Vec2)
    ensures r.x <= a.x && r.x <= b.x && (r.x == a.x || r.x == b.x)
    ensures r.y <= a.y && r.y <= b.y && (r.y == a.y || r.y == b.y)
  {
    Vec2(Math1D.Min(a.x, b.x), Math1D.Min(a.y, b.y))
  }

  /** Min lies below Max in every component, and Max(a, b) == Max(b, a), Min likewise. */
  lemma MinBelowMax(a: Vec2, b: Vec2)
    ensures Min(a, b).x <= Max(a, b).x && Min(a, b).y <= Max(a, b).y
    ensures Min(a, b) == Min(b, a) && Max(a, b) == Max(b, a)
  {
  }

  /** v divided by its length: a vector along v that, scaled back by the length, gives v. */
  function Normalized(lib: Libm, v: Vec2): (r: Vec2)
    requires Length(lib, v) != 0.0
    ensures MulValue(r, Length(lib, v)) == v
  {
    DivValue(v, Length(lib, v))
  }

  /** When sqrt is exact, a normalized vector has unit length. */
  lemma NormalizedIsUnit(lib: Libm, v: Vec2)
    requires Length(lib, v) != 0.0
    requires SqrtAt(lib, LengthSqr(v))
    ensures LengthSqr(Normalized(lib, v)) == 1.0
  {
    Polynomials.DivByLength2(v.x, v.y, Length(lib, v));
  }

  /** The reflection v - 2·(v·n)/|n|²·n of v about the normal n, which need not
      have unit length: it flips the component along n and keeps the length. */
  function Reflect(v: Vec2, n: Vec2): (r: Vec2)
    requires LengthSqr(n) != 0.0
    ensures Dot(r, n) == -Dot(v, n)
    ensures LengthSqr(r) == LengthSqr(v)
  {
    var numerator := Dot(MulValue(v, 2.0), n);
    var s := numerator / LengthSqr(n);
    var a := MulValue(n, s);
    assert s * LengthSqr(n) == 2.0 * Dot(v, n);
    assert Dot(a, n) == s * LengthSqr(n);
    assert Dot(v, a) == s * Dot(v, n);
    assert LengthSqr(a) == s * (s * LengthSqr(n));
    SubVec2(v, a)
  }

  /** Reflecting twice about the same normal gives back the original vector. */
  lemma ReflectInvolution(v: Vec2, n: Vec2)
    requires LengthSqr(n) != 0.0
    ensures Reflect(Reflect(v, n), n) == v
  {
    var r := Reflect(v, n);
    var s := Dot(MulValue(v, 2.0), n) / LengthSqr(n);
    var s' := Dot(MulValue(r, 2.0), n) / LengthSqr(n);
    assert r == SubVec2(v, MulValue(n, s));
    assert Dot(MulValue(r, 2.0), n) == -Dot(MulValue(v, 2.0), n);
    assert s' == -s;
  }

  /** The direction slerp moves toward: b minus its projection on a, with the
      dot product clamped to [-1, 1]. */
  function SlerpOffset(a: Vec2, b: Vec2): Vec2
  {
    var dot := Math1D.Clamp(Dot(a, b), -1.0, 1.0);
    SubVec2(b, MulValue(a, dot))
  }

  /** Spherical interpolation cos(θ)·a + sin(θ)·offset with θ = acos(dot)·t;
      at t = 0 it is a, given cos 0 = 1 and sin 0 = 0. */
  function Slerp(lib: Libm, a: Vec2, b: Vec2, t: real): (r: Vec2)
    requires Length(lib, SlerpOffset(a, b)) != 0.0
    ensures t == 0.0 && lib.cos(0.0) == 1.0 && lib.sin(0.0) == 0.0 ==> r == a
  {
    var dot := Math1D.Clamp(Dot(a, b), -1.0, 1.0);
    var theta := lib.acos(dot) * t;
    var offset := Normalized(lib, SubVec2(b, MulValue(a, dot)));
    AddVec2(MulValue(a, lib.cos(theta)), MulValue(offset, lib.sin(theta)))
  }

  function AddVec2(a: Vec2, b: Vec2): Vec2
  {
    Vec2(a.x + b.x, a.y + b.y)
  }

  /** Adds b to each component: the same as adding the vector (b, b). */
  function AddValue(a: Vec2, b: real): (r: Vec2)
    ensures r == AddVec2(a, Splat(b))
  {
    Vec2(a.x + b, a.y + b)
  }

  /** Component-wise difference: adding b back gives a. */
  function SubVec2(a: Vec2, b: Vec2): (r: Vec2)
    ensures AddVec2(r, b) == a
  {
    Vec2(a.x - b.x, a.y - b.y)
  }

  /** Subtracts b from each component: the same as subtracting (b, b), undone by AddValue. */
  function SubValue(a: Vec2, b: real): (r: Vec2)
    ensures r == SubVec2(a, Splat(b))
    ensures AddValue(r, b) == a
  {
    Vec2(a.x - b, a.y - b)
  }

  function MulVec2(a: Vec2, b: Vec2): Vec2
  {
    Vec2(a.x * b.x, a.y * b.y)
  }

  /** Multiplies each component by b: the same as multiplying by (b, b). */
  function MulValue(a: Vec2, b: real): (r: Vec2)
    ensures r == MulVec2(a, Splat(b))
  {
    Vec2(a.x * b, a.y * b)
  }

  /** Component-wise quotient: multiplying back by b gives a. */
  function DivVec2(a: Vec2, b: Vec2): (r: Vec2)
    requires b.x != 0.0 && b.y != 0.0
    ensures MulVec2(r, b) == a
  {
    Vec2(a.x / b.x, a.y / b.y)
  }

  /** Divides each component by b: the same as dividing by (b, b), undone by MulValue. */
  function DivValue(a: Vec2, b: real): (r: Vec2)
    requires b != 0.0
    ensures r == DivVec2(a, Splat(b))
    ensures MulValue(r, b) == a
  {
    Vec2(a.x / b, a.y / b)
  }

  /** Exact comparison: true iff both components are equal. */
  function Equal(a: Vec2, b: Vec2): (r: bool)
    ensures r <==> a == b
  {
    a.x == b.x && a.y == b.y
  }

  /** Subtraction undoes addition, and division undoes multiplication by a non-zero scalar. */
  lemma AddSubCancel(a: Vec2, b: Vec2, s: real)
    ensures SubVec2(AddVec2(a, b), b) == a
    ensures s != 0.0 ==> DivValue(MulValue(a, s), s) == a
  {
  }
}
