/** Vec4 operations (vec4.c): component-wise arithmetic only. */
module Vector4 {
  import opened M3d

  /** The vector (s, s, s, s). */
  function Splat(s: real): Vec4
  {
    Vec4(s, s, s, s)
  }

  function AddVec4(a: Vec4, b: Vec4): Vec4
  {
    Vec4(a.x + b.x, a.y + b.y, a.z + b.z, a.w + b.w)
  }

  /** Vector addition is commutative and associative, with the zero vector as unit. */
  lemma AddVec4Algebra(a: Vec4, b: Vec4, c: Vec4)
    ensures AddVec4(a, b) == AddVec4(b, a)
    ensures AddVec4(AddVec4(a, b), c) == AddVec4(a, AddVec4(b, c))
    ensures AddVec4(a, Splat(0.0)) == a
  {
  }

  /** Adds b to each component: the same as adding the vector (b, b, b, b). */
  function AddValue(a: Vec4, b: real): (r: Vec4)
    ensures r == AddVec4(a, Splat(b))
  {
    Vec4(a.x + b, a.y + b, a.z + b, a.w + b)
  }

  /** Component-wise difference: adding b back gives a. */
  function SubVec4(a: Vec4, b: Vec4): (r: Vec4)
    ensures AddVec4(r, b) == a
  {
    Vec4(a.x - b.x, a.y - b.y, a.z - b.z, a.w - b.w)
  }

  /** Subtracts b from each component: the same as subtracting (b, b, b, b), undone by AddValue. */
  function SubValue(a: Vec4, b: real): (r: Vec4)
    ensures r == SubVec4(a, Splat(b))
    ensures AddValue(r, b) == a
  {
    Vec4(a.x - b, a.y - b, a.z - b, a.w - b)
  }

  function MulVec4(a: Vec4, b: Vec4): Vec4
  {
    Vec4(a.x * b.x, a.y * b.y, a.z * b.z, a.w * b.w)
  }

  /** Multiplies each component by b: the same as multiplying by (b, b, b, b). */
  function MulValue(a: Vec4, b: real): (r: Vec4)
    ensures r == MulVec4(a, Splat(b))
  {
    Vec4(a.x * b, a.y * b, a.z * b, a.w * b)
  }

  /** Scaling distributes over vector addition. */
  lemma MulValueDistributes(a: Vec4, b: Vec4, s: real)
    ensures MulValue(AddVec4(a, b), s) == AddVec4(MulValue(a, s), MulValue(b, s))
  {
  }

  /** Component-wise quotient: multiplying back by b gives a. */
  function DivVec4(a: Vec4, b: Vec4): (r: Vec4)
    requires b.x != 0.0 && b.y != 0.0 && b.z != 0.0 && b.w != 0.0
    ensures MulVec4(r, b) == a
  {
    Vec4(a.x / b.x, a.y / b.y, a.z / b.z, a.w / b.w)
  }

  /** Divides each component by b: the same as dividing by (b, b, b, b), undone by MulValue. */
  function DivValue(a: Vec4, b: real): (r: Vec4)
    requires b != 0.0
    ensures r == DivVec4(a, Splat(b))
    ensures MulValue(r, b) == a
  {
    Vec4(a.x / b, a.y / b, a.z / b, a.w / b)
  }

  /** Exact comparison: true iff all four components are equal. */
  function Equal(a: Vec4, b: Vec4): (r: bool)
    ensures r <==> a == b
  {
    a.x == b.x && a.y == b.y && a.z == b.z && a.w == b.w
  }

  /** Every vector compares equal to itself. */
  lemma EqualReflexive(a: Vec4)
    ensures Equal(a, a)
  {
  }

  /** Subtraction undoes addition, and division undoes multiplication by a non-zero scalar. */
  lemma AddSubCancel(a: Vec4, b: Vec4, s: real)
    ensures SubVec4(AddVec4(a, b), b) == a
    ensures s != 0.0 ==> DivValue(MulValue(a, s), s) == a
  {
  }
}
