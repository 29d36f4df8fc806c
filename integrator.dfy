/// The fixed-step integrator `rk4` of three-body.js:115-155: classical
/// fourth-order Runge-Kutta for r' = v, v' = a(r), applied to one body after
/// the other and written back in place.
module Integrator {
  import opened Vectors
  import opened Bodies
  import opened Gravity

  /** a + 2b + 2c + d, the Runge-Kutta weights before the factor h/6. */
  function Weighted(a: Vec3, b: Vec3, c: Vec3, d: Vec3): Vec3 {
    Add(Add(Add(a, Scale(b, 2.0)), Scale(c, 2.0)), d)
  }

  /** Body i after one step of size h, every other body held where `bs` has
      it: the stages k1..k4 of velocity (from the acceleration) and of
      position (from the velocity), combined with weights (1,2,2,1)/6. */
  function Advance(law: Law, h: real, i: nat, bs: seq<Body>): Body
    requires i < |bs|
  {
    var r, v := bs[i].position, bs[i].velocity;
    var k1v := Accel(law, i, r, bs);
    var k1r := v;
    var k2v := Accel(law, i, Add(r, Scale(k1r, h / 2.0)), bs);
    var k2r := Add(v, Scale(k1v, h / 2.0));
    var k3v := Accel(law, i, Add(r, Scale(k2r, h / 2.0)), bs);
    var k3r := Add(v, Scale(k2v, h / 2.0));
    var k4v := Accel(law, i, Add(r, Scale(k3r, h)), bs);
    var k4r := Add(v, Scale(k3v, h));
    bs[i].(velocity := Add(v, Scale(Weighted(k1v, k2v, k3v, k4v), h / 6.0)),
           position := Add(r, Scale(Weighted(k1r, k2r, k3r, k4r), h / 6.0)))
  }

  /** The body loop of `rk4` from body i on: each body is advanced and
      written back before the next one is looked at. */
  function Sweep(law: Law, h: real, bs: seq<Body>, i: nat): (r: seq<Body>)
    requires i <= |bs|
    ensures |r| == |bs|
    ensures forall j :: 0 <= j < i ==> r[j] == bs[j]
    ensures forall j :: 0 <= j < |bs| ==> r[j].trail == bs[j].trail
    decreases |bs| - i
  {
    if i == |bs| then bs
    else Sweep(law, h, bs[i := Advance(law, h, i, bs)], i + 1)
  }

  /** One call of `rk4`. */
  function Step(law: Law, h: real, bs: seq<Body>): seq<Body> {
    Sweep(law, h, bs, 0)
  }

  /** n consecutive calls of `rk4`; the bodies stay as many and their
      trails are not touched. */
  function Iterate(law: Law, h: real, bs: seq<Body>, n: nat): (r: seq<Body>)
    ensures |r| == |bs|
    ensures forall j :: 0 <= j < |bs| ==> r[j].trail == bs[j].trail
  {
    if n == 0 then bs else Step(law, h, Iterate(law, h, bs, n - 1))
  }

  lemma {:induction false} SweepAt(law: Law, h: real, bs: seq<Body>, k: nat, i: nat)
    requires k <= i < |bs|
    decreases i - k
    ensures Sweep(law, h, bs, k)[i] == Advance(law, h, i, Sweep(law, h, bs, k)[..i] + bs[i..])
  {
    var next := bs[k := Advance(law, h, k, bs)];
    if k == i {
      assert Sweep(law, h, bs, k)[..i] + bs[i..] == bs;
    } else {
      SweepAt(law, h, next, k + 1, i);
      assert next[i..] == bs[i..];
    }
  }

  /** The order of updates in `rk4`: body i is advanced against the bodies
      before it as already advanced in this call and the bodies from i on as
      they were. */
  lemma StepInOrder(law: Law, h: real, bs: seq<Body>, i: nat)
    requires i < |bs|
    ensures Step(law, h, bs)[i] == Advance(law, h, i, Step(law, h, bs)[..i] + bs[i..])
  {
    SweepAt(law, h, bs, 0, i);
  }

  lemma StepNoPull(law: Law, h: real, bs: seq<Body>, i: nat)
    requires i < |bs|
    requires forall a, b :: Pull(law, a, b) == Zero
    ensures Step(law, h, bs)[i] == bs[i].(position := Add(bs[i].position, Scale(bs[i].velocity, h)))
  {
    StepInOrder(law, h, bs, i);
    var seen := Step(law, h, bs)[..i] + bs[i..];
    assert seen[i] == bs[i];
    FieldNoPull(law, i, seen);
    AdvanceIsClassical(law, h, i, seen);
    FreeMotion(Field(law, i, seen), Phase(seen[i].position, seen[i].velocity), h);
  }

  /** A state of the first-order system: a position and a velocity. */
  datatype Phase = Phase(r: Vec3, v: Vec3)

  function PAdd(a: Phase, b: Phase): Phase {
    Phase(Add(a.r, b.r), Add(a.v, b.v))
  }

  function PScale(a: Phase, k: real): Phase {
    Phase(Scale(a.r, k), Scale(a.v, k))
  }

  /** The textbook classical Runge-Kutta step for y' = f(y). */
  function ClassicalStep(f: Phase -> Phase, y: Phase, h: real): Phase {
    var k1 := f(y);
    var k2 := f(PAdd(y, PScale(k1, h / 2.0)));
    var k3 := f(PAdd(y, PScale(k2, h / 2.0)));
    var k4 := f(PAdd(y, PScale(k3, h)));
    PAdd(y, PScale(PAdd(PAdd(PAdd(k1, PScale(k2, 2.0)), PScale(k3, 2.0)), k4), h / 6.0))
  }

  /** The vector field of body i when the others stay where `bs` has them. */
  function Field(law: Law, i: nat, bs: seq<Body>): Phase -> Phase {
    (y: Phase) => Phase(y.v, Accel(law, i, y.r, bs))
  }

  /** Advance is the classical Runge-Kutta step on (position, velocity). */
  lemma AdvanceIsClassical(law: Law, h: real, i: nat, bs: seq<Body>)
    requires i < |bs|
    ensures Phase(Advance(law, h, i, bs).position, Advance(law, h, i, bs).velocity)
      == ClassicalStep(Field(law, i, bs), Phase(bs[i].position, bs[i].velocity), h)
  {
  }

  /** Classical Runge-Kutta is exact for a uniform field: constant
      acceleration c over a step of size h adds h c to the velocity and
      h v + (h^2 / 2) c to the position. */
  lemma UniformField(f: Phase -> Phase, y: Phase, h: real, c: Vec3)
    requires forall z :: f(z) == Phase(z.v, c)
    ensures ClassicalStep(f, y, h)
      == Phase(Add(Add(y.r, Scale(y.v, h)), Scale(c, h * h / 2.0)), Add(y.v, Scale(c, h)))
  {
  }

  /** Without acceleration the step is a straight-line move by h v. */
  lemma FreeMotion(f: Phase -> Phase, y: Phase, h: real)
    requires forall z :: f(z) == Phase(z.v, Zero)
    ensures ClassicalStep(f, y, h) == Phase(Add(y.r, Scale(y.v, h)), y.v)
  {
    UniformField(f, y, h, Zero);
    ScaleZero(h * h / 2.0);
    ScaleZero(h);
  }

  /** A law that never pulls gives the free field. */
  lemma FieldNoPull(law: Law, i: nat, bs: seq<Body>)
    requires forall a, b :: Pull(law, a, b) == Zero
    ensures forall z :: Field(law, i, bs)(z) == Phase(z.v, Zero)
  {
    forall y: Phase ensures Field(law, i, bs)(y) == Phase(y.v, Zero) {
      AccelNoPull(law, i, y.r, bs);
    }
  }

  /** The body of the loop of `rk4` for body i (three-body.js:119-153): the
      stages are found with the acceleration loop, summed into the running
      totals dv and dr, and the result is the body with both increments
      applied. Every THREE.Vector3 that the source mutates after use (k1r,
      k1v, ... in multiplyScalar(...).add(...)) has been added to its total
      before, so values give the same result. */
  method AdvanceBody(law: Law, h: real, i: nat, bs: seq<Body>) returns (b: Body)
    requires i < |bs|
    ensures b == Advance(law, h, i, bs)
  {
    var r := bs[i].position;
    var v := bs[i].velocity;
    var dr := Zero;
    var dv := Zero;
    var k1v := Acceleration(law, i, r, bs);
    dv := Add(dv, k1v);
    var k1r := v;
    dr := Add(dr, k1r);
    var k2v := Acceleration(law, i, Add(Scale(k1r, h / 2.0), r), bs);
    dv := Add(Add(dv, k2v), k2v);
    var k2r := Add(Scale(k1v, h / 2.0), v);
    dr := Add(Add(dr, k2r), k2r);
    var k3v := Acceleration(law, i, Add(Scale(k2r, h / 2.0), r), bs);
    dv := Add(Add(dv, k3v), k3v);
    var k3r := Add(Scale(k2v, h / 2.0), v);
    dr := Add(Add(dr, k3r), k3r);
    var k4v := Acceleration(law, i, Add(Scale(k3r, h), r), bs);
    dv := Add(dv, k4v);
    var k4r := Add(Scale(k3v, h), v);
    dr := Add(dr, k4r);
    AddCommutes(Scale(k1r, h / 2.0), r);
    AddCommutes(Scale(k2r, h / 2.0), r);
    AddCommutes(Scale(k3r, h), r);
    AddCommutes(Scale(k1v, h / 2.0), v);
    AddCommutes(Scale(k2v, h / 2.0), v);
    AddCommutes(Scale(k3v, h), v);
    RunningTotal(dv, k1v, k2v, k3v, k4v);
    RunningTotal(dr, k1r, k2r, k3r, k4r);
    b := bs[i].(velocity := Add(v, Scale(dv, h / 6.0)), position := Add(r, Scale(dr, h / 6.0)));
  }

  lemma AddCommutes(a: Vec3, b: Vec3)
    ensures Add(a, b) == Add(b, a)
  {
  }

  /** Adding k1, k2 twice, k3 twice and k4 to a zero total gives the
      weighted sum. */
  lemma RunningTotal(total: Vec3, a: Vec3, b: Vec3, c: Vec3, d: Vec3)
    requires total == Add(Add(Add(Add(Add(Add(Zero, a), b), b), c), c), d)
    ensures total == Weighted(a, b, c, d)
  {
  }
}
