/** Identities between real polynomials that the vector and quaternion proofs
    rest on, stated over plain reals so that the solver sees nothing else. */
module Polynomials {

  /** Dividing a 2-vector by its length l gives squared length 1. */
  lemma DivByLength2(x: real, y: real, l: real)
    requires l != 0.0
    requires l * l == x * x + y * y
    ensures (x / l) * (x / l) + (y / l) * (y / l) == 1.0
  {
    var u := 1.0 / l;
    assert x / l == x * u && y / l == y * u;
    assert (x * u) * (x * u) + (y * u) * (y * u) == (x * x + y * y) * (u * u);
    assert (l * l) * (u * u) == (l * u) * (l * u);
    assert l * u == 1.0;
  }

  /** Dividing a 3-vector by its length l gives squared length 1. */
  lemma DivByLength3(x: real, y: real, z: real, l: real)
    requires l != 0.0
    requires l * l == x * x + y * y + z * z
    ensures (x / l) * (x / l) + (y / l) * (y / l) + (z / l) * (z / l) == 1.0
  {
    var u := 1.0 / l;
    assert x / l == x * u && y / l == y * u && z / l == z * u;
    assert (x * u) * (x * u) + (y * u) * (y * u) + (z * u) * (z * u) == (x * x + y * y + z * z) * (u * u);
    assert (l * l) * (u * u) == (l * u) * (l * u);
    assert l * u == 1.0;
  }

  /** Dividing a 4-vector by its length l gives squared length 1. */
  lemma DivByLength4(x: real, y: real, z: real, w: real, l: real)
    requires l != 0.0
    requires l * l == x * x + y * y + z * z + w * w
    ensures (x / l) * (x / l) + (y / l) * (y / l) + (z / l) * (z / l) + (w / l) * (w / l) == 1.0
  {
    var u := 1.0 / l;
    assert x / l == x * u && y / l == y * u && z / l == z * u && w / l == w * u;
    assert (x * u) * (x * u) + (y * u) * (y * u) + (z * u) * (z * u) + (w * u) * (w * u)
        == (x * x + y * y + z * z + w * w) * (u * u);
    assert (l * l) * (u * u) == (l * u) * (l * u);
    assert l * u == 1.0;
  }

  /** A unit axis (x, y, z) scaled by s, with c beside it, has squared length 1 when s² + c² = 1. */
  lemma UnitAxisScaled(x: real, y: real, z: real, s: real, c: real)
    requires x * x + y * y + z * z == 1.0
    requires s * s + c * c == 1.0
    ensures (x * s) * (x * s) + (y * s) * (y * s) + (z * s) * (z * s) + c * c == 1.0
  {
    assert (x * s) * (x * s) + (y * s) * (y * s) + (z * s) * (z * s) == (x * x + y * y + z * z) * (s * s);
  }

  /** The dot product of a 3-vector with its negation is minus its squared length. */
  lemma DotNegated3(x: real, y: real, z: real, nx: real, ny: real, nz: real)
    requires nx == -x && ny == -y && nz == -z
    ensures x * nx + y * ny + z * nz == -(x * x + y * y + z * z)
  {
  }

  /** Scaling a 4-vector by b scales its squared length by b². */
  lemma ScaledSquares4(x: real, y: real, z: real, w: real, b: real)
    ensures (x * b) * (x * b) + (y * b) * (y * b) + (z * b) * (z * b) + (w * b) * (w * b)
         == b * b * (x * x + y * y + z * z + w * w)
  {
    assert (x * b) * (x * b) == b * b * (x * x);
    assert (y * b) * (y * b) == b * b * (y * y);
    assert (z * b) * (z * b) == b * b * (z * z);
    assert (w * b) * (w * b) == b * b * (w * w);
  }
}
