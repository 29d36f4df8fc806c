/// The acceleration `a(i, p, bodies)` of three-body.js:158-175: the pull on
/// body i, were it at p, from every other body.
module Gravity {
  import opened Vectors
  import opened Bodies

  /** The contribution to the acceleration of a probe at p from one body at
      q. The engine is stated for any such law; Newton is the one the source
      uses. */
  type Law = (Vec3, Vec3) -> Vec3

  /** The law applied to a probe at p and a body at q. */
  function Pull(law: Law, p: Vec3, q: Vec3): Vec3 {
    law(p, q)
  }

  /** The running sum of the loop at three-body.js:163-173 after its first n
      rounds: every body j < n except i itself adds law(p, bodies[j]). */
  function AccelUpTo(law: Law, i: nat, p: Vec3, bs: seq<Body>, n: nat): Vec3
    requires n <= |bs|
  {
    if n == 0 then Zero
    else
      var sum := AccelUpTo(law, i, p, bs, n - 1);
      if n - 1 == i then sum else Add(sum, Pull(law, p, bs[n - 1].position))
  }

  function Accel(law: Law, i: nat, p: Vec3, bs: seq<Body>): Vec3 {
    AccelUpTo(law, i, p, bs, |bs|)
  }

  /** The loop itself (three-body.js:162-174). */
  method Acceleration(law: Law, i: nat, p: Vec3, bs: seq<Body>) returns (sum: Vec3)
    ensures sum == Accel(law, i, p, bs)
  {
    sum := Zero;
    var j := 0;
    while j < |bs|
      invariant 0 <= j <= |bs|
      invariant sum == AccelUpTo(law, i, p, bs, j)
    {
      if j != i {
        sum := Add(sum, Pull(law, p, bs[j].position));
      }
      j := j + 1;
    }
  }

  lemma {:induction false} AccelUpToIgnoresSelf(law: Law, i: nat, p: Vec3, bs: seq<Body>, b: Body, n: nat)
    requires i < |bs| && n <= |bs|
    ensures AccelUpTo(law, i, p, bs[i := b], n) == AccelUpTo(law, i, p, bs, n)
  {
    if n > 0 {
      AccelUpToIgnoresSelf(law, i, p, bs, b, n - 1);
    }
  }

  /** Body i never pulls on itself: its own entry does not matter. */
  lemma AccelIgnoresSelf(law: Law, i: nat, p: Vec3, bs: seq<Body>, b: Body)
    requires i < |bs|
    ensures Accel(law, i, p, bs[i := b]) == Accel(law, i, p, bs)
  {
    AccelUpToIgnoresSelf(law, i, p, bs, b, |bs|);
  }

  /** With three bodies the acceleration is the sum of the pulls of the two
      others. */
  lemma AccelOfThree(law: Law, i: nat, p: Vec3, bs: seq<Body>)
    requires |bs| == 3 && i < 3
    ensures var j, k := (if i == 0 then 1 else 0), (if i == 2 then 1 else 2);
      Accel(law, i, p, bs) == Add(Pull(law, p, bs[j].position), Pull(law, p, bs[k].position))
  {
    assert AccelUpTo(law, i, p, bs, 1) == if i == 0 then Zero else Add(Zero, Pull(law, p, bs[0].position));
    assert AccelUpTo(law, i, p, bs, 2) == if i == 1 then AccelUpTo(law, i, p, bs, 1)
      else Add(AccelUpTo(law, i, p, bs, 1), Pull(law, p, bs[1].position));
  }

  lemma {:induction false} AccelUpToNoPull(law: Law, i: nat, p: Vec3, bs: seq<Body>, n: nat)
    requires n <= |bs|
    requires forall a, b :: Pull(law, a, b) == Zero
    ensures AccelUpTo(law, i, p, bs, n) == Zero
  {
    if n > 0 {
      AccelUpToNoPull(law, i, p, bs, n - 1);
    }
  }

  /** A law that never pulls gives no acceleration. */
  lemma AccelNoPull(law: Law, i: nat, p: Vec3, bs: seq<Body>)
    requires forall a, b :: Pull(law, a, b) == Zero
    ensures Accel(law, i, p, bs) == Zero
  {
    AccelUpToNoPull(law, i, p, bs, |bs|);
  }

  /** The positions p and q are apart, so the pull between them is defined. */
  predicate Separated(len: Vec3 -> real, p: Vec3, q: Vec3) {
    Length(len, Sub(q, p)) != 0.0 && DistanceSq(p, q) != 0.0
  }

  /** Newton's pull with G = 1 and unit masses (three-body.js:167-171): the
      vector from p to q, normalized, divided by the squared distance. `len`
      stands for Vector3.length(). */
  function Newton(len: Vec3 -> real, p: Vec3, q: Vec3): Vec3
    requires Separated(len, p, q)
  {
    var d2 := DistanceSq(p, q);
    var toward := Sub(q, p);
    Scale(Scale(toward, 1.0 / Length(len, toward)), 1.0 / d2)
  }

  /** The source's law: Newton's wherever it is defined. Where two bodies
      coincide the source divides by zero; this law gives no pull there. */
  function NewtonLaw(len: Vec3 -> real): (law: Law)
    ensures Newtonian(law, len)
  {
    (p: Vec3, q: Vec3) => if Separated(len, p, q) then Newton(len, p, q) else Zero
  }

  ghost predicate Newtonian(law: Law, len: Vec3 -> real) {
    forall p, q :: Separated(len, p, q) ==> Pull(law, p, q) == Newton(len, p, q)
  }

  /** Distinct points are separated, and the squared distance is the
      square of the length. */
  lemma DistinctSeparated(len: Vec3 -> real, p: Vec3, q: Vec3)
    requires IsLength(len) && p != q
    ensures Separated(len, p, q)
    ensures Length(len, Sub(q, p)) > 0.0 && DistanceSq(p, q) == Sq(Length(len, Sub(q, p)))
  {
    var d := Sub(q, p);
    SubNonZero(p, q);
    LengthPositive(len, d);
    DistanceSqSymmetric(p, q);
    assert Sq(Length(len, d)) == NormSq(d);
  }

  lemma SubNonZero(p: Vec3, q: Vec3)
    ensures Sub(q, p) == Zero ==> p == q
  {
  }

  /** For distinct points the pull is defined, points from p toward q, and
      follows the inverse-square law: the vector (q - p) / |q - p|^3, whose
      squared length is 1 / |q - p|^4. */
  lemma NewtonInverseSquare(len: Vec3 -> real, p: Vec3, q: Vec3)
    requires IsLength(len) && p != q
    ensures Separated(len, p, q)
    ensures Length(len, Sub(q, p)) > 0.0
    ensures Newton(len, p, q) == Scale(Sub(q, p), 1.0 / Cube(Length(len, Sub(q, p))))
    ensures NormSq(Newton(len, p, q)) == 1.0 / Sq(DistanceSq(p, q))
  {
    DistinctSeparated(len, p, q);
    var d := Sub(q, p);
    var l := Length(len, d);
    var d2 := DistanceSq(p, q);
    assert d2 == l * l by { assert Sq(l) == Mul(l, l); }
    UnitLength(d, l);
    var u := Scale(d, 1.0 / l);
    NormSqScale(u, 1.0 / d2);
    SqInverse(d2);
    ScaleTwice(d, l, d2);
  }

  lemma ScaleTwice(d: Vec3, l: real, d2: real)
    requires l > 0.0 && d2 == l * l
    ensures Scale(Scale(d, 1.0 / l), 1.0 / d2) == Scale(d, 1.0 / Cube(l))
  {
    assert (1.0 / l) * (1.0 / d2) == 1.0 / (l * l * l);
  }

  function Cube(t: real): real {
    t * t * t
  }

  lemma UnitLength(d: Vec3, l: real)
    requires l > 0.0 && Sq(l) == NormSq(d)
    ensures NormSq(Scale(d, 1.0 / l)) == 1.0
  {
    NormSqScale(d, 1.0 / l);
    SqInverse(l);
  }

  lemma SqInverse(t: real)
    requires t > 0.0
    ensures Sq(1.0 / t) * Sq(t) == 1.0
    ensures Sq(1.0 / t) == 1.0 / Sq(t)
  {
    SqProduct(1.0 / t, t);
    assert (1.0 / t) * t == 1.0;
    assert Sq(1.0) == 1.0;
  }

  /** The pull toward a point a distance c > 0 along the x axis is 1 / c^2. */
  lemma NewtonAlongX(len: Vec3 -> real, p: Vec3, c: real)
    requires IsLength(len) && c > 0.0
    ensures Separated(len, p, Add(p, Vec3(c, 0.0, 0.0)))
    ensures Newton(len, p, Add(p, Vec3(c, 0.0, 0.0))) == Vec3(1.0 / (c * c), 0.0, 0.0)
  {
    var q := Add(p, Vec3(c, 0.0, 0.0));
    assert Sub(q, p) == Vec3(c, 0.0, 0.0);
    assert q != p;
    NewtonInverseSquare(len, p, q);
    var l := Length(len, Sub(q, p));
    assert Sq(l) == NormSq(Vec3(c, 0.0, 0.0)) == Sq(c);
    SqInjective(l, c);
    assert c * (1.0 / (c * c * c)) == 1.0 / (c * c);
  }

  /** Three bodies on a line, as at the start of every solution: body 0 at p,
      body 1 two units further along x and body 2 one unit along x (p =
      (-1,0,0) gives the initial positions). Body 0 feels a quarter from the
      far body plus one from the near one. */
  lemma AccelOnLine(law: Law, len: Vec3 -> real, bs: seq<Body>)
    requires IsLength(len) && Newtonian(law, len)
    requires |bs| == 3
    requires bs[1].position == Add(bs[0].position, Vec3(2.0, 0.0, 0.0))
    requires bs[2].position == Add(bs[0].position, Vec3(1.0, 0.0, 0.0))
    ensures Accel(law, 0, bs[0].position, bs) == Vec3(1.25, 0.0, 0.0)
  {
    var p := bs[0].position;
    AccelOfThree(law, 0, p, bs);
    NewtonAlongX(len, p, 2.0);
    NewtonAlongX(len, p, 1.0);
  }

  /** The collinear start arrangement under the source's own law. */
  lemma NewtonOnLine(len: Vec3 -> real, bs: seq<Body>)
    requires IsLength(len)
    requires |bs| == 3
    requires bs[1].position == Add(bs[0].position, Vec3(2.0, 0.0, 0.0))
    requires bs[2].position == Add(bs[0].position, Vec3(1.0, 0.0, 0.0))
    ensures Accel(NewtonLaw(len), 0, bs[0].position, bs) == Vec3(1.25, 0.0, 0.0)
  {
    AccelOnLine(NewtonLaw(len), len, bs);
  }
}
