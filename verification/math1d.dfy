/** One dimensional maths (math1D.c) and the C scalar primitives the rest of
    the library uses: fmin, fmax, fabs, and the int conversion behind abs(). */
module Math1D {

  /** fmax on ordered (non-NaN) values: the larger of a and b. */
  function Max(a: real, b: real): (r: real)
    ensures r >= a && r >= b
    ensures r == a || r == b
  {
    if a >= b then a else b
  }

  /** fmin on ordered (non-NaN) values: the smaller of a and b. */
  function Min(a: real, b: real): (r: real)
    ensures r <= a && r <= b
    ensures r == a || r == b
  {
    if a <= b then a else b
  }

  /** fabs. */
  function Abs(x: real): (r: real)
    ensures 0.0 <= r
    ensures r == x || r == -x
  {
    if x < 0.0 then -x else x
  }

  /** The C conversion of a floating value to int: truncation toward zero. */
  function Trunc(x: real): (n: int)
    ensures 0.0 <= x ==> 0 <= n && n as real <= x < n as real + 1.0
    ensures x < 0.0 ==> n <= 0 && n as real - 1.0 < x <= n as real
  {
    if 0.0 <= x then x.Floor else -((-x).Floor)
  }

  /** abs on int. quat.c does not include stdlib.h, so the call rests on the
      compiler's built-in abs(int): the double argument is first truncated to an
      int (a conversion C leaves undefined outside the int range). */
  function IntAbs(n: int): (r: nat)
    ensures r == n || r == -n
  {
    if n < 0 then -n else n
  }

  /** m3d1DClamp: fmin(fmax(low, v), high). */
  function Clamp(v: real, low: real, high: real): (r: real)
    ensures r <= high
    ensures low <= high ==> low <= r <= high
    ensures low <= v <= high ==> r == v
    ensures v < low <= high ==> r == low
    ensures high < v ==> r == high
    ensures high < low ==> r == high
  {
    Min(Max(low, v), high)
  }

  /** Clamping a clamped value again changes nothing. */
  lemma ClampIdempotent(v: real, low: real, high: real)
    ensures Clamp(Clamp(v, low, high), low, high) == Clamp(v, low, high)
  {
  }

  /** The three clamp examples: inside, below and above [0, 10]. */
  lemma ClampExamples()
    ensures Clamp(5.0, 0.0, 10.0) == 5.0
    ensures Clamp(-5.0, 0.0, 10.0) == 0.0
    ensures Clamp(15.0, 0.0, 10.0) == 10.0
  {
  }

  /** m3d1DLerp: (1 - t)·a + b·t, with t not clamped, so values outside [0, 1]
      extrapolate along the same line. */
  function Lerp(a: real, b: real, t: real): (r: real)
    ensures r - a == t * (b - a)
    ensures t == 0.0 ==> r == a
    ensures t == 1.0 ==> r == b
  {
    (1.0 - t) * a + b * t
  }
}
