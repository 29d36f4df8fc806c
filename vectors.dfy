/// Three-component real vectors: the part of THREE.Vector3 that the
/// simulation engine uses (add, sub, multiplyScalar, divideScalar,
/// distanceToSquared, normalize and length).
module Vectors {

  /** A point or a direction in space; a value, never shared. */
  datatype Vec3 = Vec3(x: real, y: real, z: real)

  const Zero: Vec3 := Vec3(0.0, 0.0, 0.0)

  function Add(a: Vec3, b: Vec3): Vec3 {
    Vec3(a.x + b.x, a.y + b.y, a.z + b.z)
  }

  function Sub(a: Vec3, b: Vec3): Vec3 {
    Vec3(a.x - b.x, a.y - b.y, a.z - b.z)
  }

  /** multiplyScalar */
  function Scale(a: Vec3, k: real): Vec3 {
    Vec3(a.x * k, a.y * k, a.z * k)
  }

  /** Real multiplication, kept behind a function so that the sign facts
      in its contract are what the other proofs use. */
  function Mul(a: real, b: real): (r: real)
    ensures a > 0.0 && b > 0.0 ==> r > 0.0
    ensures a < 0.0 && b < 0.0 ==> r > 0.0
    ensures a == 0.0 || b == 0.0 ==> r == 0.0
  {
    a * b
  }

  function Sq(t: real): (r: real)
    ensures r >= 0.0
    ensures t != 0.0 ==> r > 0.0
  {
    Mul(t, t)
  }

  lemma ScaleZero(k: real)
    ensures Scale(Zero, k) == Zero
    ensures forall v :: Add(v, Scale(Zero, k)) == v
  {
  }

  /** The squared Euclidean length. */
  function NormSq(a: Vec3): (r: real)
    ensures r >= 0.0
    ensures r == 0.0 <==> a == Zero
  {
    Sq(a.x) + Sq(a.y) + Sq(a.z)
  }

  /** distanceToSquared: the squared distance from p to q. */
  function DistanceSq(p: Vec3, q: Vec3): real {
    NormSq(Sub(p, q))
  }

  /** A function that behaves as Vector3.length(): the non-negative square
      root of the squared length. The model takes it as a parameter, as Dafny
      has no square root on reals. */
  ghost predicate IsLength(len: Vec3 -> real) {
    forall v :: Length(len, v) >= 0.0 && Sq(Length(len, v)) == NormSq(v)
  }

  /** `len` applied to v: every use of the length goes through here. */
  function Length(len: Vec3 -> real, v: Vec3): real {
    len(v)
  }

  /** Squaring is strictly increasing on the non-negative reals. */
  lemma SqLess(a: real, b: real)
    requires 0.0 <= a < b
    ensures Sq(a) < Sq(b)
  {
    assert Mul(b - a, b + a) > 0.0;
    assert Mul(b - a, b + a) == Mul(b, b) - Mul(a, a);
  }

  /** A non-negative real is determined by its square. */
  lemma SqInjective(a: real, b: real)
    requires a >= 0.0 && b >= 0.0 && Sq(a) == Sq(b)
    ensures a == b
  {
    if a < b { SqLess(a, b); } else if b < a { SqLess(b, a); }
  }

  /** Comparing a length with a bound is comparing their squares, which is
      how the stability test is stated in this model. */
  lemma LengthExceeds(len: Vec3 -> real, v: Vec3, bound: real)
    requires IsLength(len) && bound >= 0.0
    ensures Length(len, v) > bound <==> NormSq(v) > Sq(bound)
  {
    var l := Length(len, v);
    assert l >= 0.0 && Sq(l) == NormSq(v);
    if l > bound { SqLess(bound, l); } else if l < bound { SqLess(l, bound); }
  }

  /** A vector's length is positive exactly when the vector is not zero. */
  lemma LengthPositive(len: Vec3 -> real, v: Vec3)
    requires IsLength(len)
    ensures Length(len, v) > 0.0 <==> v != Zero
  {
    assert Length(len, v) >= 0.0 && Sq(Length(len, v)) == NormSq(v);
  }

  /** Scaling a vector by c scales its squared length by c squared. */
  lemma NormSqScale(a: Vec3, c: real)
    ensures NormSq(Scale(a, c)) == Sq(c) * NormSq(a)
  {
    assert Sq(a.x * c) == Sq(c) * Sq(a.x);
    assert Sq(a.y * c) == Sq(c) * Sq(a.y);
    assert Sq(a.z * c) == Sq(c) * Sq(a.z);
  }

  lemma SqProduct(a: real, b: real)
    ensures Sq(a) * Sq(b) == Sq(a * b)
  {
  }

  lemma SqNeg(t: real)
    ensures Sq(-t) == Sq(t)
  {
    assert Mul(-t, -t) == Mul(t, t);
  }

  /** The squared distance is symmetric. */
  lemma DistanceSqSymmetric(p: Vec3, q: Vec3)
    ensures DistanceSq(p, q) == NormSq(Sub(q, p))
  {
    SqNeg(q.x - p.x);
    SqNeg(q.y - p.y);
    SqNeg(q.z - p.z);
    assert p.x - q.x == -(q.x - p.x);
    assert p.y - q.y == -(q.y - p.y);
    assert p.z - q.z == -(q.z - p.z);
  }
}
