/** Quaternion operations (quat.c). A quaternion stands for a rotation when it
    has unit length; the source leaves normalizing to the caller. */
module Quaternion {
  import opened M3d
  import opened CMath
  import Math1D
  import Polynomials
  import Vector3

  /** The identity rotation (0, 0, 0, 1). */
  function Identity(): Quat
  {
    Quat(0.0, 0.0, 0.0, 1.0)
  }

  /** The squared length i² + j² + k² + w². */
  function NormSqr(q: Quat): real
  {
    q.i * q.i + q.j * q.j + q.k * q.k + q.w * q.w
  }

  /** A normalized quaternion, the kind the rotation operations expect. */
  predicate IsUnit(q: Quat)
  {
    NormSqr(q) == 1.0
  }

  /** The four dimensional dot product, the cosine of half the angle between two unit quaternions. */
  function Dot(a: Quat, b: Quat): real
  {
    a.w * b.w + a.i * b.i + a.j * b.j + a.k * b.k
  }

  /** The pure quaternion (x, y, z, 0) carrying a vector. */
  function Pure(v: Vec3): Quat
  {
    Quat(v.x, v.y, v.z, 0.0)
  }

  /** The conjugate: the vector part negated. */
  function Conjugate(v: Quat): Quat
  {
    Quat(-v.i, -v.j, -v.k, v.w)
  }

  /** Conjugating twice gives back the quaternion, and the conjugate has the same length. */
  lemma ConjugateInvolution(v: Quat)
    ensures Conjugate(Conjugate(v)) == v
    ensures NormSqr(Conjugate(v)) == NormSqr(v)
  {
  }

  /** The identity is its own conjugate. */
  lemma ConjugateIdentity()
    ensures Conjugate(Identity()) == Identity()
  {
  }

  /** The Hamilton product a·b. */
  function MulQuat(a: Quat, b: Quat): Quat
  {
    Quat(a.w * b.i + a.i * b.w + a.j * b.k - a.k * b.j,
         a.w * b.j - a.i * b.k + a.j * b.w + a.k * b.i,
         a.w * b.k + a.i * b.j - a.j * b.i + a.k * b.w,
         a.w * b.w - a.i * b.i - a.j * b.j - a.k * b.k)
  }

  /** (0, 0, 0, 1) is a unit of the product on both sides. */
  lemma MulQuatIdentity(q: Quat)
    ensures MulQuat(Identity(), q) == q
    ensures MulQuat(q, Identity()) == q
  {
  }

  /** The unit quaternions i, j and k. */
  const UnitI: Quat := Quat(1.0, 0.0, 0.0, 0.0)
  const UnitJ: Quat := Quat(0.0, 1.0, 0.0, 0.0)
  const UnitK: Quat := Quat(0.0, 0.0, 1.0, 0.0)

  /** The product is not commutative: i·j = k but j·i = -k. */
  lemma MulQuatNotCommutative()
    ensures MulQuat(UnitI, UnitJ) == UnitK
    ensures MulQuat(UnitJ, UnitI) == Quat(0.0, 0.0, -1.0, 0.0)
  {
  }

  /** The conjugate of a product is the product of the conjugates in reverse order. */
  lemma ConjugateOfProduct(a: Quat, b: Quat)
    ensures Conjugate(MulQuat(a, b)) == MulQuat(Conjugate(b), Conjugate(a))
  {
    ConjugateOfProductI(a, b);
    ConjugateOfProductJ(a, b);
    ConjugateOfProductK(a, b);
    ConjugateOfProductW(a, b);
  }

  // ConjugateOfProduct one component at a time.

  lemma ConjugateOfProductI(a: Quat, b: Quat)
    ensures MulQuat(Conjugate(b), Conjugate(a)).i == -MulQuat(a, b).i
  {
  }

  lemma ConjugateOfProductJ(a: Quat, b: Quat)
    ensures MulQuat(Conjugate(b), Conjugate(a)).j == -MulQuat(a, b).j
  {
  }

  lemma ConjugateOfProductK(a: Quat, b: Quat)
    ensures MulQuat(Conjugate(b), Conjugate(a)).k == -MulQuat(a, b).k
  {
  }

  lemma ConjugateOfProductW(a: Quat, b: Quat)
    ensures MulQuat(Conjugate(b), Conjugate(a)).w == MulQuat(a, b).w
  {
  }

  /** A quaternion times its conjugate is the real quaternion of its squared length. */
  lemma MulConjugate(q: Quat)
    ensures MulQuat(q, Conjugate(q)) == Quat(0.0, 0.0, 0.0, NormSqr(q))
  {
  }

  /** The length of a product is the product of the lengths (in squares). */
  lemma MulQuatNormSqr(a: Quat, b: Quat)
    ensures NormSqr(MulQuat(a, b)) == NormSqr(a) * NormSqr(b)
  {
    var r := MulQuat(a, b);
    PolyNormMul(a.i, a.j, a.k, a.w, b.i, b.j, b.k, b.w, r.i, r.j, r.k, r.w);
  }

  /** Euler's four-square identity, the polynomial fact behind MulQuatNormSqr. */
  lemma PolyNormMul(ai: real, aj: real, ak: real, aw: real, bi: real, bj: real, bk: real, bw: real,
                    ri: real, rj: real, rk: real, rw: real)
    requires ri == aw * bi + ai * bw + aj * bk - ak * bj
    requires rj == aw * bj - ai * bk + aj * bw + ak * bi
    requires rk == aw * bk + ai * bj - aj * bi + ak * bw
    requires rw == aw * bw - ai * bi - aj * bj - ak * bk
    ensures ri * ri + rj * rj + rk * rk + rw * rw
         == (ai * ai + aj * aj + ak * ak + aw * aw) * (bi * bi + bj * bj + bk * bk + bw * bw)
  {
  }

  /** The Hamilton product is associative. */
  lemma MulQuatAssociative(a: Quat, b: Quat, c: Quat)
    ensures MulQuat(MulQuat(a, b), c) == MulQuat(a, MulQuat(b, c))
  {
    ExpandLeftI(a, b, c); ExpandRightI(a, b, c); PolyAssocI(a.i, a.j, a.k, a.w, b.i, b.j, b.k, b.w, c.i, c.j, c.k, c.w);
    ExpandLeftJ(a, b, c); ExpandRightJ(a, b, c); PolyAssocJ(a.i, a.j, a.k, a.w, b.i, b.j, b.k, b.w, c.i, c.j, c.k, c.w);
    ExpandLeftK(a, b, c); ExpandRightK(a, b, c); PolyAssocK(a.i, a.j, a.k, a.w, b.i, b.j, b.k, b.w, c.i, c.j, c.k, c.w);
    ExpandLeftW(a, b, c); ExpandRightW(a, b, c); PolyAssocW(a.i, a.j, a.k, a.w, b.i, b.j, b.k, b.w, c.i, c.j, c.k, c.w);
  }

  // Each component of (a·b)·c and of a·(b·c), written out, and the polynomial identity equating them.

  lemma ExpandRightI(a: Quat, b: Quat, c: Quat)
    ensures MulQuat(a, MulQuat(b, c)).i == (a.w * (b.w * c.i + b.i * c.w + b.j * c.k - b.k * c.j) + a.i * (b.w * c.w - b.i * c.i - b.j * c.j - b.k * c.k) + a.j * (b.w * c.k + b.i * c.j - b.j * c.i + b.k * c.w) - a.k * (b.w * c.j - b.i * c.k + b.j * c.w + b.k * c.i))
  {
  }

  lemma ExpandLeftI(a: Quat, b: Quat, c: Quat)
    ensures MulQuat(MulQuat(a, b), c).i == ((a.w * b.w - a.i * b.i - a.j * b.j - a.k * b.k) * c.i + (a.w * b.i + a.i * b.w + a.j * b.k - a.k * b.j) * c.w + (a.w * b.j - a.i * b.k + a.j * b.w + a.k * b.i) * c.k - (a.w * b.k + a.i * b.j - a.j * b.i + a.k * b.w) * c.j)
  {
  }

  lemma ExpandRightJ(a: Quat, b: Quat, c: Quat)
    ensures MulQuat(a, MulQuat(b, c)).j == (a.w * (b.w * c.j - b.i * c.k + b.j * c.w + b.k * c.i) - a.i * (b.w * c.k + b.i * c.j - b.j * c.i + b.k * c.w) + a.j * (b.w * c.w - b.i * c.i - b.j * c.j - b.k * c.k) + a.k * (b.w * c.i + b.i * c.w + b.j * c.k - b.k * c.j))
  {
  }

  lemma ExpandLeftJ(a: Quat, b: Quat, c: Quat)
    ensures MulQuat(MulQuat(a, b), c).j == ((a.w * b.w - a.i * b.i - a.j * b.j - a.k * b.k) * c.j - (a.w * b.i + a.i * b.w + a.j * b.k - a.k * b.j) * c.k + (a.w * b.j - a.i * b.k + a.j * b.w + a.k * b.i) * c.w + (a.w * b.k + a.i * b.j - a.j * b.i + a.k * b.w) * c.i)
  {
  }

  lemma ExpandRightK(a: Quat, b: Quat, c: Quat)
    ensures MulQuat(a, MulQuat(b, c)).k == (a.w * (b.w * c.k + b.i * c.j - b.j * c.i + b.k * c.w) + a.i * (b.w * c.j - b.i * c.k + b.j * c.w + b.k * c.i) - a.j * (b.w * c.i + b.i * c.w + b.j * c.k - b.k * c.j) + a.k * (b.w * c.w - b.i * c.i - b.j * c.j - b.k * c.k))
  {
  }

  lemma ExpandLeftK(a: Quat, b: Quat, c: Quat)
    ensures MulQuat(MulQuat(a, b), c).k == ((a.w * b.w - a.i * b.i - a.j * b.j - a.k * b.k) * c.k + (a.w * b.i + a.i * b.w + a.j * b.k - a.k * b.j) * c.j - (a.w * b.j - a.i * b.k + a.j * b.w + a.k * b.i) * c.i + (a.w * b.k + a.i * b.j - a.j * b.i + a.k * b.w) * c.w)
  {
  }

  lemma ExpandRightW(a: Quat, b: Quat, c: Quat)
    ensures MulQuat(a, MulQuat(b, c)).w == (a.w * (b.w * c.w - b.i * c.i - b.j * c.j - b.k * c.k) - a.i * (b.w * c.i + b.i * c.w + b.j * c.k - b.k * c.j) - a.j * (b.w * c.j - b.i * c.k + b.j * c.w + b.k * c.i) - a.k * (b.w * c.k + b.i * c.j - b.j * c.i + b.k * c.w))
  {
  }

  lemma ExpandLeftW(a: Quat, b: Quat, c: Quat)
    ensures MulQuat(MulQuat(a, b), c).w == ((a.w * b.w - a.i * b.i - a.j * b.j - a.k * b.k) * c.w - (a.w * b.i + a.i * b.w + a.j * b.k - a.k * b.j) * c.i - (a.w * b.j - a.i * b.k + a.j * b.w + a.k * b.i) * c.j - (a.w * b.k + a.i * b.j - a.j * b.i + a.k * b.w) * c.k)
  {
  }

  lemma PolyAssocI(ai: real, aj: real, ak: real, aw: real, bi: real, bj: real, bk: real, bw: real, ci: real, cj: real, ck: real, cw: real)
    ensures ((aw * bw - ai * bi - aj * bj - ak * bk) * ci + (aw * bi + ai * bw + aj * bk - ak * bj) * cw + (aw * bj - ai * bk + aj * bw + ak * bi) * ck - (aw * bk + ai * bj - aj * bi + ak * bw) * cj) == (aw * (bw * ci + bi * cw + bj * ck - bk * cj) + ai * (bw * cw - bi * ci - bj * cj - bk * ck) + aj * (bw * ck + bi * cj - bj * ci + bk * cw) - ak * (bw * cj - bi * ck + bj * cw + bk * ci))
  {
  }

  lemma PolyAssocJ(ai: real, aj: real, ak: real, aw: real, bi: real, bj: real, bk: real, bw: real, ci: real, cj: real, ck: real, cw: real)
    ensures ((aw * bw - ai * bi - aj * bj - ak * bk) * cj - (aw * bi + ai * bw + aj * bk - ak * bj) * ck + (aw * bj - ai * bk + aj * bw + ak * bi) * cw + (aw * bk + ai * bj - aj * bi + ak * bw) * ci) == (aw * (bw * cj - bi * ck + bj * cw + bk * ci) - ai * (bw * ck + bi * cj - bj * ci + bk * cw) + aj * (bw * cw - bi * ci - bj * cj - bk * ck) + ak * (bw * ci + bi * cw + bj * ck - bk * cj))
  {
  }

  lemma PolyAssocK(ai: real, aj: real, ak: real, aw: real, bi: real, bj: real, bk: real, bw: real, ci: real, cj: real, ck: real, cw: real)
    ensures ((aw * bw - ai * bi - aj * bj - ak * bk) * ck + (aw * bi + ai * bw + aj * bk - ak * bj) * cj - (aw * bj - ai * bk + aj * bw + ak * bi) * ci + (aw * bk + ai * bj - aj * bi + ak * bw) * cw) == (aw * (bw * ck + bi * cj - bj * ci + bk * cw) + ai * (bw * cj - bi * ck + bj * cw + bk * ci) - aj * (bw * ci + bi * cw + bj * ck - bk * cj) + ak * (bw * cw - bi * ci - bj * cj - bk * ck))
  {
  }

  lemma PolyAssocW(ai: real, aj: real, ak: real, aw: real, bi: real, bj: real, bk: real, bw: real, ci: real, cj: real, ck: real, cw: real)
    ensures ((aw * bw - ai * bi - aj * bj - ak * bk) * cw - (aw * bi + ai * bw + aj * bk - ak * bj) * ci - (aw * bj - ai * bk + aj * bw + ak * bi) * cj - (aw * bk + ai * bj - aj * bi + ak * bw) * ck) == (aw * (bw * cw - bi * ci - bj * cj - bk * ck) - ai * (bw * ci + bi * cw + bj * ck - bk * cj) - aj * (bw * cj - bi * ck + bj * cw + bk * ci) - ak * (bw * ck + bi * cj - bj * ci + bk * cw))
  {
  }

  /** Conjugating a pure quaternion by q keeps it pure. */
  lemma SandwichPure(q: Quat, p: Quat)
    requires p.w == 0.0
    ensures MulQuat(MulQuat(q, p), Conjugate(q)).w == 0.0
  {
    PolySandwichW(q.i, q.j, q.k, q.w, p.i, p.j, p.k);
  }

  lemma PolySandwichW(qi: real, qj: real, qk: real, qw: real, pi: real, pj: real, pk: real)
    ensures (qw * 0.0 - qi * pi - qj * pj - qk * pk) * qw
          - (qw * pi + qi * 0.0 + qj * pk - qk * pj) * -qi
          - (qw * pj - qi * pk + qj * 0.0 + qk * pi) * -qj
          - (qw * pk + qi * pj - qj * pi + qk * 0.0) * -qk == 0.0
  {
  }

  /** Rotates b by the unit quaternion a: the vector part of a·(b, 0)·conj(a),
      whose real part is zero. */
  function RotateVec3(a: Quat, b: Vec3): (r: Vec3)
    requires IsUnit(a)
    ensures Pure(r) == MulQuat(MulQuat(a, Pure(b)), Conjugate(a))
  {
    var temp := MulQuat(MulQuat(a, Pure(b)), Conjugate(a));
    SandwichPure(a, Pure(b));
    Vec3(temp.i, temp.j, temp.k)
  }

  /** A rotation keeps the length of the vector. */
  lemma RotateVec3KeepsLength(a: Quat, b: Vec3)
    requires IsUnit(a)
    ensures Vector3.LengthSqr(RotateVec3(a, b)) == Vector3.LengthSqr(b)
  {
    ConjugateInvolution(a);
    MulQuatNormSqr(a, Pure(b));
    MulQuatNormSqr(MulQuat(a, Pure(b)), Conjugate(a));
  }

  /** The identity quaternion leaves every vector where it is. */
  lemma RotateVec3Identity(v: Vec3)
    ensures RotateVec3(Identity(), v) == v
  {
    MulQuatIdentity(Pure(v));
    ConjugateIdentity();
  }

  /** Rotating by conj(q) and then by q gives back the vector. */
  lemma RotateVec3Inverse(q: Quat, v: Vec3)
    requires IsUnit(q)
    ensures IsUnit(Conjugate(q))
    ensures RotateVec3(q, RotateVec3(Conjugate(q), v)) == v
  {
    var c := Conjugate(q);
    var p := Pure(v);
    var inner := MulQuat(MulQuat(c, p), Conjugate(c));
    ConjugateInvolution(q);
    SandwichPure(c, p);
    assert Pure(RotateVec3(c, v)) == inner;
    MulConjugate(q);
    assert MulQuat(q, c) == Identity();
    MulQuatAssociative(q, MulQuat(c, p), q);
    MulQuatAssociative(q, c, p);
    MulQuatIdentity(p);
    assert MulQuat(q, inner) == MulQuat(p, q);
    MulQuatAssociative(p, q, c);
    assert MulQuat(MulQuat(q, inner), c) == p;
  }

  /** The angle between two rotations: twice the arc cosine of the real part of
      conj(a)·b, which is their four dimensional dot product. */
  function Angle(lib: Libm, a: Quat, b: Quat): (r: real)
    ensures r == 2.0 * lib.acos(Dot(a, b))
  {
    assert MulQuat(Conjugate(a), b).w == Dot(a, b) by {
      assert (-a.i) * b.i == -(a.i * b.i) && (-a.j) * b.j == -(a.j * b.j) && (-a.k) * b.k == -(a.k * b.k);
    }
    2.0 * lib.acos(MulQuat(Conjugate(a), b).w)
  }

  /** The angle does not depend on the order of the two rotations, and a unit
      rotation is at angle 2·acos(1) from itself. */
  lemma AngleSymmetric(lib: Libm, a: Quat, b: Quat)
    ensures Angle(lib, a, b) == Angle(lib, b, a)
    ensures IsUnit(a) ==> Angle(lib, a, a) == 2.0 * lib.acos(1.0)
  {
  }

  /** The rotation by r radians about the axis a: (a·sin(r/2), cos(r/2)). */
  function AngleAxis(lib: Libm, r: real, a: Vec3): Quat
  {
    var s := lib.sin(r / 2.0);
    Quat(a.x * s, a.y * s, a.z * s, lib.cos(r / 2.0))
  }

  /** About a unit axis, with sin and cos on the unit circle, the result is a unit quaternion. */
  lemma AngleAxisIsUnit(lib: Libm, r: real, a: Vec3)
    requires Vector3.LengthSqr(a) == 1.0
    requires OnUnitCircle(lib, r / 2.0)
    ensures IsUnit(AngleAxis(lib, r, a))
  {
    Polynomials.UnitAxisScaled(a.x, a.y, a.z, lib.sin(r / 2.0), lib.cos(r / 2.0));
  }

  /** A turn of no angle is the identity, when sin 0 = 0 and cos 0 = 1. */
  lemma AngleAxisZero(lib: Libm, a: Vec3)
    requires lib.sin(0.0) == 0.0 && lib.cos(0.0) == 1.0
    ensures AngleAxis(lib, 0.0, a) == Identity()
  {
  }

  /** How close to 1 or -1 the dot product must be for AngleVec3 to treat
      the vectors as parallel or antiparallel. */
  const Tolerance: real := 0.000001

  /** AngleVec3 divides by the length of a × b only when neither tolerance test holds. */
  predicate AngleVec3Defined(lib: Libm, a: Vec3, b: Vec3)
  {
    var dot := Vector3.Dot(a, b);
    Math1D.Abs(dot + 1.0) < Tolerance || Math1D.Abs(dot - 1.0) < Tolerance
      || Vector3.Length(lib, Vector3.Cross(a, b)) != 0.0
  }

  /** The rotation taking direction a to direction b: a half turn about up when
      they point in opposite directions, the identity when they agree, and
      otherwise the turn by acos(a·b) about the normalized a × b. The two
      tolerance tests never both hold, so either one alone decides the result. */
  function AngleVec3(lib: Libm, a: Vec3, b: Vec3, up: Vec3): (r: Quat)
    requires AngleVec3Defined(lib, a, b)
    ensures Math1D.Abs(Vector3.Dot(a, b) + 1.0) < Tolerance ==> r == AngleAxis(lib, Pi, up)
    ensures Math1D.Abs(Vector3.Dot(a, b) - 1.0) < Tolerance ==> r == Identity()
  {
    var dot := Vector3.Dot(a, b);
    if Math1D.Abs(dot + 1.0) < Tolerance then
      AngleAxis(lib, 180.0 * ToRads, up)
    else if Math1D.Abs(dot - 1.0) < Tolerance then
      Identity()
    else
      var rotAngle := lib.acos(dot);
      var rotAxis := Vector3.Normalized(lib, Vector3.Cross(a, b));
      AngleAxis(lib, rotAngle, rotAxis)
  }

  /** A unit vector needs no rotation to face itself. */
  lemma AngleVec3Same(lib: Libm, a: Vec3, up: Vec3)
    requires Vector3.LengthSqr(a) == 1.0
    ensures AngleVec3Defined(lib, a, a)
    ensures AngleVec3(lib, a, a, up) == Identity()
  {
  }

  /** A unit vector faces its opposite by a half turn about up. */
  lemma AngleVec3Opposite(lib: Libm, a: Vec3, up: Vec3)
    requires Vector3.LengthSqr(a) == 1.0
    ensures AngleVec3Defined(lib, a, Vector3.MulValue(a, -1.0))
    ensures AngleVec3(lib, a, Vector3.MulValue(a, -1.0), up) == AngleAxis(lib, Pi, up)
  {
    var n := Vector3.MulValue(a, -1.0);
    Polynomials.DotNegated3(a.x, a.y, a.z, n.x, n.y, n.z);
    assert Vector3.Dot(a, n) == -1.0;
    assert Math1D.Abs(Vector3.Dot(a, n) + 1.0) < Tolerance;
  }

  /** With a unit up axis, sin and cos on the unit circle and sqrt exact, every
      result of AngleVec3 is a unit quaternion. */
  lemma AngleVec3IsUnit(lib: Libm, a: Vec3, b: Vec3, up: Vec3)
    requires AngleVec3Defined(lib, a, b)
    requires Vector3.LengthSqr(up) == 1.0
    requires OnUnitCircle(lib, Pi / 2.0)
    requires OnUnitCircle(lib, lib.acos(Vector3.Dot(a, b)) / 2.0)
    requires SqrtAt(lib, Vector3.LengthSqr(Vector3.Cross(a, b)))
    ensures IsUnit(AngleVec3(lib, a, b, up))
  {
    var dot := Vector3.Dot(a, b);
    if Math1D.Abs(dot + 1.0) < Tolerance {
      AngleAxisIsUnit(lib, Pi, up);
    } else if Math1D.Abs(dot - 1.0) < Tolerance {
    } else {
      var c := Vector3.Cross(a, b);
      Vector3.NormalizedIsUnit(lib, c);
      AngleAxisIsUnit(lib, lib.acos(dot), Vector3.Normalized(lib, c));
    }
  }

  /** The forward direction (0, 0, 1) that Face turns from. */
  const Forward: Vec3 := Vec3(0.0, 0.0, 1.0)

  /** The rotation that turns the forward direction (0, 0, 1) to dir. Its dot
      product with dir is dir.z, so the case split of AngleVec3 is on dir.z:
      a half turn about up when dir.z is -1, no turn when it is 1. */
  function Face(lib: Libm, dir: Vec3, up: Vec3): (r: Quat)
    requires AngleVec3Defined(lib, Forward, dir)
    ensures Math1D.Abs(dir.z + 1.0) < Tolerance ==> r == AngleAxis(lib, Pi, up)
    ensures Math1D.Abs(dir.z - 1.0) < Tolerance ==> r == Identity()
  {
    assert Vector3.Dot(Forward, dir) == dir.z;
    AngleVec3(lib, Vec3(0.0, 0.0, 1.0), dir, up)
  }

  /** Facing forward needs no turn; facing backward is a half turn about up. */
  lemma FaceForwardBackward(lib: Libm, up: Vec3)
    ensures AngleVec3Defined(lib, Forward, Forward)
    ensures Face(lib, Forward, up) == Identity()
    ensures AngleVec3Defined(lib, Forward, Vector3.MulValue(Forward, -1.0))
    ensures Face(lib, Vector3.MulValue(Forward, -1.0), up) == AngleAxis(lib, Pi, up)
  {
    AngleVec3Same(lib, Forward, up);
    AngleVec3Opposite(lib, Forward, up);
  }

  /** The Euler angles (roll, pitch, yaw) of v. */
  function Euler(lib: Libm, v: Quat): (r: Vec3)
    ensures v == Identity() ==> r == Vec3(lib.atan2(0.0, 1.0), lib.asin(0.0), lib.atan2(0.0, 1.0))
  {
    var i2 := v.i * v.i;
    var j2 := v.j * v.j;
    var k2 := v.k * v.k;
    Vec3(lib.atan2(2.0 * (v.w * v.i + v.j * v.k), 1.0 - 2.0 * (i2 + j2)),
         lib.asin(2.0 * (v.w * v.j - v.k * v.i)),
         lib.atan2(2.0 * (v.w * v.k + v.i * v.j), 1.0 - 2.0 * (j2 + k2)))
  }

  /** The length: sqrt of the squared length. */
  function Length(lib: Libm, v: Quat): real
  {
    lib.sqrt(NormSqr(v))
  }

  /** v divided by its length: scaled back by the length, it gives v. */
  function Normalized(lib: Libm, v: Quat): (r: Quat)
    requires Length(lib, v) != 0.0
    ensures MulValue(r, Length(lib, v)) == v
  {
    DivValue(v, Length(lib, v))
  }

  /** When sqrt is exact, a normalized quaternion has unit length. */
  lemma NormalizedIsUnit(lib: Libm, v: Quat)
    requires Length(lib, v) != 0.0
    requires SqrtAt(lib, NormSqr(v))
    ensures IsUnit(Normalized(lib, v))
  {
    Polynomials.DivByLength4(v.i, v.j, v.k, v.w, Length(lib, v));
  }

  /** C's abs takes an int, so Slerp's early exit truncates the cosine toward zero
      first; on reals that is the same test as |c| >= 1. */
  lemma SlerpGuardIsAbs(c: real)
    ensures Math1D.IntAbs(Math1D.Trunc(c)) >= 1 <==> Math1D.Abs(c) >= 1.0
  {
  }

  /** The sine of half the angle, below which Slerp falls back to the midpoint. */
  const SlerpThreshold: real := 0.001

  /** sqrt(1 - c²): the sine of half the angle whose cosine is c. */
  function SinHalfTheta(lib: Libm, c: real): real
  {
    lib.sqrt(1.0 - c * c)
  }

  /** Slerp divides by sin(acos(a·b)) only when neither early exit is taken. */
  predicate SlerpDefined(lib: Libm, a: Quat, b: Quat)
  {
    var c := Dot(a, b);
    Math1D.Abs(c) >= 1.0 || Math1D.Abs(SinHalfTheta(lib, c)) < SlerpThreshold
      || lib.sin(lib.acos(c)) != 0.0
  }

  /** Spherical interpolation from a to b. It returns a itself when |a·b| >= 1, the
      midpoint when sin of half the angle is below the threshold, and otherwise
      the weighted sum sin((1-t)·θ)·a + sin(t·θ)·b over sin θ. */
  function Slerp(lib: Libm, a: Quat, b: Quat, t: real): (r: Quat)
    requires SlerpDefined(lib, a, b)
    ensures Math1D.Abs(Dot(a, b)) >= 1.0 ==> r == a
    ensures (Math1D.Abs(Dot(a, b)) < 1.0 && Math1D.Abs(SinHalfTheta(lib, Dot(a, b))) < SlerpThreshold)
            ==> r == MulValue(AddQuat(a, b), 0.5)
  {
    var cosHalfTheta := Dot(a, b);
    SlerpGuardIsAbs(cosHalfTheta);
    if Math1D.IntAbs(Math1D.Trunc(cosHalfTheta)) >= 1 then
      a
    else
      var halfTheta := lib.acos(cosHalfTheta);
      var sinHalfTheta := SinHalfTheta(lib, cosHalfTheta);
      if Math1D.Abs(sinHalfTheta) < SlerpThreshold then
        AddQuat(MulValue(a, 0.5), MulValue(b, 0.5))
      else
        var res := MulValue(a, lib.sin((1.0 - t) * halfTheta));
        var res' := AddQuat(res, MulValue(b, lib.sin(t * halfTheta)));
        DivValue(res', lib.sin(halfTheta))
  }

  /** Past both early exits, the interpolation starts at a for t = 0 and ends at b
      for t = 1 (given sin 0 = 0). */
  lemma SlerpEndpoints(lib: Libm, a: Quat, b: Quat)
    requires SlerpDefined(lib, a, b)
    requires Math1D.Abs(Dot(a, b)) < 1.0 && Math1D.Abs(SinHalfTheta(lib, Dot(a, b))) >= SlerpThreshold
    requires lib.sin(0.0) == 0.0
    ensures Slerp(lib, a, b, 0.0) == a
    ensures Slerp(lib, a, b, 1.0) == b
  {
    SlerpGuardIsAbs(Dot(a, b));
    var halfTheta := lib.acos(Dot(a, b));
    assert (1.0 - 0.0) * halfTheta == halfTheta && 0.0 * halfTheta == 0.0;
    assert (1.0 - 1.0) * halfTheta == 0.0 && 1.0 * halfTheta == halfTheta;
  }

  /** Component-wise sum. */
  function AddQuat(a: Quat, b: Quat): Quat
  {
    Quat(a.i + b.i, a.j + b.j, a.k + b.k, a.w + b.w)
  }

  /** Component-wise difference: adding b back gives a. */
  function SubQuat(a: Quat, b: Quat): (r: Quat)
    ensures AddQuat(r, b) == a
  {
    Quat(a.i - b.i, a.j - b.j, a.k - b.k, a.w - b.w)
  }

  /** Multiplies each component by b. */
  function MulValue(a: Quat, b: real): Quat
  {
    Quat(a.i * b, a.j * b, a.k * b, a.w * b)
  }

  /** Scaling by b multiplies the squared length by b². */
  lemma MulValueScalesNorm(a: Quat, b: real)
    ensures NormSqr(MulValue(a, b)) == b * b * NormSqr(a)
  {
    Polynomials.ScaledSquares4(a.i, a.j, a.k, a.w, b);
  }

  /** Divides each component by b: multiplying back by b gives a. */
  function DivValue(a: Quat, b: real): (r: Quat)
    requires b != 0.0
    ensures MulValue(r, b) == a
  {
    Quat(a.i / b, a.j / b, a.k / b, a.w / b)
  }

  /** Exact comparison: true iff all four components are equal. */
  function Equal(a: Quat, b: Quat): (r: bool)
    ensures r <==> a == b
  {
    a.i == b.i && a.j == b.j && a.k == b.k && a.w == b.w
  }

  /** Subtraction undoes addition, division undoes scaling, and scaling by s is
      the product with the real quaternion (0, 0, 0, s). */
  lemma AddSubCancel(a: Quat, b: Quat, s: real)
    ensures SubQuat(AddQuat(a, b), b) == a
    ensures s != 0.0 ==> DivValue(MulValue(a, s), s) == a
    ensures MulValue(a, s) == MulQuat(a, Quat(0.0, 0.0, 0.0, s))
  {
  }
}
