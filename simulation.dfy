/// The simulation state machine of three-body.js: `reset` (180-247), `move`
/// (61-94), `rk4` as it is driven from `move` (115-155), `animate`'s
/// failure-to-reset link (96-99) and the two selection handlers (45-59).
module Simulation {
  import opened Vectors
  import opened Catalog
  import opened Bodies
  import opened Gravity
  import opened Integrator

  /** The x coordinate each body starts at, `[-1,1,0][i]`. */
  function StartX(i: nat): real
    requires i < 3
  {
    [-1.0, 1.0, 0.0][i]
  }

  /** A trail as `reset` leaves it: as many copies of the start point as the
      loop `for (j = 0; j < segments; j++)` runs rounds. */
  function Prefilled(x: real, segments: real): seq<Vec3> {
    seq(PrefillCount(segments), _ => Vec3(x, 0.0, 0.0))
  }

  /** The three bodies `reset(s)` builds. */
  function InitialBodies(s: nat): seq<Body>
    requires s < Count
  {
    var x1, y1, seg := X1Dot(s), Y1Dot(s), Segments(s);
    [Body(Vec3(StartX(0), 0.0, 0.0), Vec3(x1, y1, 0.0), Prefilled(StartX(0), seg)),
     Body(Vec3(StartX(1), 0.0, 0.0), Vec3(x1, y1, 0.0), Prefilled(StartX(1), seg)),
     Body(Vec3(StartX(2), 0.0, 0.0), Vec3(-2.0 * x1, -2.0 * y1, 0.0), Prefilled(StartX(2), seg))]
  }

  /** Every solution starts on the x axis with the third body at the centre,
      the first two moving alike and the third against them: both the sum of
      the positions (the centre of mass, unit masses) and the sum of the
      velocities (the momentum) are zero, and every trail vertex is the
      body's start point. */
  lemma InitialState(s: nat)
    requires s < Count
    ensures |InitialBodies(s)| == 3
    ensures InitialBodies(s)[0].position == Vec3(-1.0, 0.0, 0.0)
    ensures InitialBodies(s)[1].position == Vec3(1.0, 0.0, 0.0)
    ensures InitialBodies(s)[2].position == Zero
    ensures InitialBodies(s)[0].velocity == InitialBodies(s)[1].velocity == Vec3(X1Dot(s), Y1Dot(s), 0.0)
    ensures InitialBodies(s)[2].velocity == Vec3(-2.0 * X1Dot(s), -2.0 * Y1Dot(s), 0.0)
    ensures forall j :: 0 <= j < 3 ==> |InitialBodies(s)[j].trail| == PrefillCount(Segments(s)) > 0
    ensures forall j, k :: 0 <= j < 3 && 0 <= k < |InitialBodies(s)[j].trail| ==>
      InitialBodies(s)[j].trail[k] == InitialBodies(s)[j].position
  {
    TrailLength(s);
  }

  /** The centre of mass (unit masses) of every initial state is zero. */
  lemma InitialCentreOfMass(s: nat)
    requires s < Count
    ensures Sum(Positions(InitialBodies(s))) == Zero
  {
    var bs := InitialBodies(s);
    InitialState(s);
    SumOfThree(Positions(bs));
    CancelOut(bs[0].position, bs[1].position, bs[2].position);
  }

  /** The total momentum (unit masses) of every initial state is zero. */
  lemma InitialMomentum(s: nat)
    requires s < Count
    ensures Sum(Velocities(InitialBodies(s))) == Zero
  {
    var bs := InitialBodies(s);
    InitialState(s);
    SumOfThree(Velocities(bs));
    CancelOut(bs[0].velocity, bs[1].velocity, bs[2].velocity);
  }

  lemma CancelOut(a: Vec3, b: Vec3, c: Vec3)
    requires Add(Add(a, b), c) == Zero
    ensures Add(Add(Add(Zero, a), b), c) == Zero
  {
  }

  lemma SumOfThree(vs: seq<Vec3>)
    requires |vs| == 3
    ensures Sum(vs) == Add(Add(Add(Zero, vs[0]), vs[1]), vs[2])
  {
    assert vs[..2][..1] == vs[..1];
    assert vs[..1][..0] == [];
    assert Sum(vs[..1]) == Add(Zero, vs[0]);
    assert Sum(vs[..2]) == Add(Sum(vs[..1]), vs[1]);
  }

  /** Every position moved by -d: `position.sub(adjustment)` on all bodies. */
  function Translate(bs: seq<Body>, d: Vec3): (r: seq<Body>)
    ensures |r| == |bs|
  {
    seq(|bs|, j requires 0 <= j < |bs| => bs[j].(position := Sub(bs[j].position, d)))
  }

  /** The recentering of `move` (three-body.js:67-72) for focus f, where -1
      means the centre of mass (no recentering). */
  function Recenter(bs: seq<Body>, f: int): seq<Body>
    requires -1 <= f < |bs|
  {
    if f == -1 then bs else Translate(bs, bs[f].position)
  }

  /** After recentering the focus body sits at the origin; positions
      relative to one another, velocities and trails do not change; with
      focus -1 nothing changes. */
  lemma RecenterFocus(bs: seq<Body>, f: int)
    requires -1 <= f < |bs|
    ensures |Recenter(bs, f)| == |bs|
    ensures f == -1 ==> Recenter(bs, f) == bs
    ensures f != -1 ==> Recenter(bs, f)[f].position == Zero
    ensures f != -1 ==> forall j :: 0 <= j < |bs| ==>
      Recenter(bs, f)[j].position == Sub(bs[j].position, bs[f].position)
    ensures forall j, k :: 0 <= j < |bs| && 0 <= k < |bs| ==>
      Sub(Recenter(bs, f)[j].position, Recenter(bs, f)[k].position) == Sub(bs[j].position, bs[k].position)
    ensures forall j :: 0 <= j < |bs| ==>
      Recenter(bs, f)[j].velocity == bs[j].velocity && Recenter(bs, f)[j].trail == bs[j].trail
  {
    if f != -1 {
      var d := bs[f].position;
      forall j, k | 0 <= j < |bs| && 0 <= k < |bs|
        ensures Sub(Recenter(bs, f)[j].position, Recenter(bs, f)[k].position) == Sub(bs[j].position, bs[k].position)
      {
        SubShift(bs[j].position, bs[k].position, d);
      }
    }
  }

  lemma SubShift(p: Vec3, q: Vec3, d: Vec3)
    ensures Sub(Sub(p, d), Sub(q, d)) == Sub(p, q)
  {
  }

  /** `vertices.shift()` then `vertices.push(p)`; shifting an empty list
      leaves it empty. */
  function ShiftPush(t: seq<Vec3>, p: Vec3): seq<Vec3> {
    if |t| == 0 then [p] else t[1..] + [p]
  }

  /** The trail update of `move` (three-body.js:74-80). */
  function UpdateTrails(bs: seq<Body>): (r: seq<Body>)
    ensures |r| == |bs|
  {
    seq(|bs|, j requires 0 <= j < |bs| => bs[j].(trail := ShiftPush(bs[j].trail, bs[j].position)))
  }

  /** A non-empty trail keeps its length, loses its oldest vertex and gains
      the body's current position, the rest in order. */
  lemma TrailUpdate(bs: seq<Body>)
    requires forall j :: 0 <= j < |bs| ==> |bs[j].trail| > 0
    ensures |UpdateTrails(bs)| == |bs|
    ensures forall j :: 0 <= j < |bs| ==>
      UpdateTrails(bs)[j].position == bs[j].position && UpdateTrails(bs)[j].velocity == bs[j].velocity
    ensures forall j :: 0 <= j < |bs| ==> |UpdateTrails(bs)[j].trail| == |bs[j].trail|
    ensures forall j :: 0 <= j < |bs| ==> UpdateTrails(bs)[j].trail == bs[j].trail[1..] + [bs[j].position]
  {
  }

  /** The trail after one frame for each of the positions ps in turn. */
  function PushAll(t: seq<Vec3>, ps: seq<Vec3>): seq<Vec3>
    decreases |ps|
  {
    if |ps| == 0 then t else PushAll(ShiftPush(t, ps[0]), ps[1..])
  }

  /** The trail is a fixed-length window: after |ps| <= |t| frames it holds
      the last |t| - |ps| of its old vertices followed by the positions the
      body took, oldest first. */
  lemma {:induction false} TrailWindow(t: seq<Vec3>, ps: seq<Vec3>)
    requires |ps| <= |t|
    ensures PushAll(t, ps) == t[|ps|..] + ps
    decreases |ps|
  {
    if |ps| > 0 {
      var t' := ShiftPush(t, ps[0]);
      assert t' == t[1..] + [ps[0]];
      TrailWindow(t', ps[1..]);
      assert t'[|ps| - 1..] == t[|ps|..] + [ps[0]];
      assert [ps[0]] + ps[1..] == ps;
    }
  }

  /** A non-empty trail keeps its length however many frames pass. */
  lemma {:induction false} TrailKeepsLength(t: seq<Vec3>, ps: seq<Vec3>)
    requires |t| > 0
    ensures |PushAll(t, ps)| == |t|
    decreases |ps|
  {
    if |ps| > 0 {
      TrailKeepsLength(ShiftPush(t, ps[0]), ps[1..]);
    }
  }

  /** The stability test of three-body.js:86, stated on squared lengths:
      |v| > 10 or |p| > 10. */
  predicate Unstable(b: Body) {
    NormSq(b.velocity) > 100.0 || NormSq(b.position) > 100.0
  }

  /** With a true length function the squared test is the source's test. */
  lemma UnstableByLength(len: Vec3 -> real, b: Body)
    requires IsLength(len)
    ensures Unstable(b) <==> Length(len, b.velocity) > 10.0 || Length(len, b.position) > 10.0
  {
    assert Sq(10.0) == 100.0 by { assert Mul(10.0, 10.0) == 100.0; }
    LengthExceeds(len, b.velocity, 10.0);
    LengthExceeds(len, b.position, 10.0);
  }

  /** `move` fails at frame `step` (counted after the increment). */
  predicate Diverged(step: nat, bs: seq<Body>) {
    step % 1000 == 0 && exists j :: 0 <= j < |bs| && Unstable(bs[j])
  }

  /** The stability loop of three-body.js:83-90, leaving at the first
      unstable body. */
  method CheckStable(bs: seq<Body>) returns (stable: bool)
    ensures stable <==> forall j :: 0 <= j < |bs| ==> !Unstable(bs[j])
  {
    var i := 0;
    while i < |bs|
      invariant 0 <= i <= |bs|
      invariant forall j :: 0 <= j < i ==> !Unstable(bs[j])
    {
      if NormSq(bs[i].velocity) > 100.0 || NormSq(bs[i].position) > 100.0 {
        return false;
      }
      i := i + 1;
    }
    return true;
  }

  /** The bodies after `move`: n calls of `rk4` with step h, recentering on
      focus f, then the trail update. */
  function Frame(law: Law, h: real, n: nat, f: int, bs: seq<Body>): seq<Body>
    requires -1 <= f < |bs|
  {
    UpdateTrails(Recenter(Iterate(law, h, bs, n), f))
  }

  /** One frame keeps every non-empty trail's length, appends the body's new
      position to it, and with a focus puts the focus body at the origin. */
  lemma FrameTrails(law: Law, h: real, n: nat, f: int, bs: seq<Body>)
    requires -1 <= f < |bs|
    requires forall j :: 0 <= j < |bs| ==> |bs[j].trail| > 0
    ensures |Frame(law, h, n, f, bs)| == |bs|
    ensures forall j :: 0 <= j < |bs| ==> |Frame(law, h, n, f, bs)[j].trail| == |bs[j].trail|
    ensures forall j :: 0 <= j < |bs| ==>
      Frame(law, h, n, f, bs)[j].trail == bs[j].trail[1..] + [Frame(law, h, n, f, bs)[j].position]
    ensures f != -1 ==> Frame(law, h, n, f, bs)[f].position == Zero
  {
    var moved := Iterate(law, h, bs, n);
    RecenterFocus(moved, f);
    TrailUpdate(Recenter(moved, f));
  }

  /** The trail-length part of the class invariant survives a frame. */
  lemma FrameKeepsTrailLength(law: Law, h: real, n: nat, f: int, bs: seq<Body>, len: nat)
    requires -1 <= f < |bs| == 3 && len > 0
    requires forall j :: 0 <= j < 3 ==> |bs[j].trail| == len
    ensures |Frame(law, h, n, f, bs)| == 3
    ensures forall j :: 0 <= j < 3 ==> |Frame(law, h, n, f, bs)[j].trail| == len
  {
    FrameTrails(law, h, n, f, bs);
  }

  /** The parameters `reset` derives for a solution and the initial bodies
      stay consistent through every frame. */
  class Simulation {
    /** The per-pair pull; Newton's law in the source. */
    const law: Law
    var bodies: seq<Body>
    var dt: real
    var speed: nat
    var segments: real
    var step: nat
    var focus: int
    var solution: nat

    ghost predicate Valid()
      reads this
    {
      solution < Count && -1 <= focus < 3 && |bodies| == 3 &&
      dt == Dt(solution) && speed == Speed(solution) && segments == Segments(solution) &&
      forall j :: 0 <= j < 3 ==> |bodies[j].trail| == PrefillCount(segments)
    }

    /** Page load (three-body.js:34-50): solution 3, reset, frame 0, focus on
        the centre of mass. */
    constructor(law: Law)
      ensures Valid()
      ensures this.law == law
      ensures solution == 3 && step == 0 && focus == -1
      ensures bodies == InitialBodies(3)
    {
      this.law := law;
      bodies := [];
      solution := 3;
      new;
      Reset(solution);
      step := 0;
      focus := -1;
      InitialState(3);
    }

    /** `reset(bodies, scene, s)`: the parameters from the catalog, three new
        bodies (written over entries 0 to 2), their trails prefilled with
        the start points, and the start velocities and positions. The frame
        counter, the focus and the selected solution stay. */
    method Reset(s: nat)
      requires s < Count
      modifies this`bodies, this`dt, this`speed, this`segments
      ensures dt == Dt(s) && speed == Speed(s) && segments == Segments(s)
      ensures bodies == InitialBodies(s) + (if |old(bodies)| > 3 then old(bodies)[3..] else [])
    {
      dt := BaseDt;
      speed := BaseSpeed;
      dt := dt / (Instability(s) as real);
      speed := speed * Instability(s);
      segments := Period(s) / dt / (speed as real);
      var i := 0;
      while i < 3
        invariant 0 <= i <= 3 && i <= |bodies|
        modifies this`bodies
        invariant |bodies| == if i <= |old(bodies)| then |old(bodies)| else i
        invariant forall j :: 0 <= j < i ==> bodies[j] == Body(Zero, Zero, Prefilled(StartX(j), segments))
        invariant forall j :: i <= j < |bodies| ==> bodies[j] == old(bodies)[j]
      {
        var trail := Prefill(StartX(i), segments);
        var body := Body(Zero, Zero, trail);
        bodies := if i < |bodies| then bodies[i := body] else bodies + [body];
        i := i + 1;
      }
      var x1dot := X1Dot(s);
      var y1dot := Y1Dot(s);
      // The component writes of three-body.js:232-246, body by body.
      bodies := bodies[0 := bodies[0].(velocity := bodies[0].velocity.(x := x1dot, y := y1dot),
                                       position := bodies[0].position.(x := -1.0, y := 0.0))];
      bodies := bodies[1 := bodies[1].(velocity := bodies[1].velocity.(x := x1dot, y := y1dot),
                                       position := bodies[1].position.(x := 1.0, y := 0.0))];
      bodies := bodies[2 := bodies[2].(velocity := bodies[2].velocity.(x := -2.0 * x1dot, y := -2.0 * y1dot),
                                       position := bodies[2].position.(x := 0.0, y := 0.0))];
      assert bodies[..3] == InitialBodies(s);
      assert bodies == bodies[..3] + bodies[3..];
    }

    /** `rk4(bodies)`: every body in index order, each written back before
        the next is advanced. */
    method Rk4()
      modifies this`bodies
      ensures bodies == Step(law, dt, old(bodies))
    {
      var h := dt;
      var i := 0;
      while i < |bodies|
        invariant 0 <= i <= |bodies|
        invariant Sweep(law, h, bodies, i) == Step(law, h, old(bodies))
      {
        var b := AdvanceBody(law, h, i, bodies);
        bodies := bodies[i := b];
        i := i + 1;
      }
    }

    /** `move()` (three-body.js:61-94): `speed` calls of `rk4`, the frame
        counter, recentering on the focus body, the trail update and, every
        1000 frames, the stability check, whose failure is the result. */
    method Move() returns (ok: bool)
      requires Valid()
      modifies this`bodies, this`step
      ensures Valid()
      ensures step == old(step) + 1
      ensures bodies == Frame(law, dt, speed, focus, old(bodies))
      ensures ok <==> !Diverged(step, bodies)
    {
      ghost var start := bodies;
      Integrate();
      step := step + 1;
      ghost var moved := bodies;
      if focus != -1 {
        RecenterLoop(focus);
      }
      assert bodies == Recenter(moved, focus);
      PushTrails();
      assert bodies == Frame(law, dt, speed, focus, start);
      TrailLength(solution);
      FrameKeepsTrailLength(law, dt, speed, focus, start, PrefillCount(segments));
      ok := Check();
    }

    /** The test of three-body.js:82-93 at the current frame. */
    method Check() returns (ok: bool)
      ensures ok <==> !Diverged(step, bodies)
    {
      if step % 1000 == 0 {
        ok := CheckStable(bodies);
      } else {
        ok := true;
      }
    }

    /** The sub-step loop of three-body.js:62-64: `rk4` exactly `speed`
        times. */
    method Integrate()
      modifies this`bodies
      ensures bodies == Iterate(law, dt, old(bodies), speed)
    {
      var k := 0;
      while k < speed
        invariant 0 <= k <= speed
        invariant bodies == Iterate(law, dt, old(bodies), k)
      {
        Rk4();
        k := k + 1;
      }
    }

    /** The recentering loop of three-body.js:67-72: the focus body's
        position is copied first, then subtracted from every body. */
    method RecenterLoop(f: nat)
      requires f < |bodies|
      modifies this`bodies
      ensures bodies == Recenter(old(bodies), f)
    {
      var adjustment := bodies[f].position;
      var i := 0;
      while i < |bodies|
        invariant 0 <= i <= |bodies| == |old(bodies)|
        invariant forall j :: 0 <= j < i ==>
          bodies[j] == old(bodies)[j].(position := Sub(old(bodies)[j].position, adjustment))
        invariant forall j :: i <= j < |bodies| ==> bodies[j] == old(bodies)[j]
      {
        bodies := bodies[i := bodies[i].(position := Sub(bodies[i].position, adjustment))];
        i := i + 1;
      }
      assert bodies == Translate(old(bodies), adjustment);
    }

    /** The trail loop of three-body.js:74-80: shift the oldest vertex out of
        every trail and push a copy of the body's position. */
    method PushTrails()
      modifies this`bodies
      ensures bodies == UpdateTrails(old(bodies))
    {
      var i := 0;
      while i < |bodies|
        invariant 0 <= i <= |bodies| == |old(bodies)|
        invariant forall j :: 0 <= j < i ==>
          bodies[j] == old(bodies)[j].(trail := ShiftPush(old(bodies)[j].trail, old(bodies)[j].position))
        invariant forall j :: i <= j < |bodies| ==> bodies[j] == old(bodies)[j]
      {
        bodies := bodies[i := bodies[i].(trail := ShiftPush(bodies[i].trail, bodies[i].position))];
        i := i + 1;
      }
      assert bodies == UpdateTrails(old(bodies));
    }

    /** One frame of `animate()` (three-body.js:96-99): a failed `move` resets
        the current solution; the frame counter keeps counting. */
    method Animate()
      requires Valid()
      modifies this`bodies, this`step, this`dt, this`speed, this`segments
      ensures Valid()
      ensures step == old(step) + 1
      ensures dt == old(dt) && speed == old(speed) && segments == old(segments)
      ensures !Diverged(step, Frame(law, dt, speed, focus, old(bodies))) ==>
        bodies == Frame(law, dt, speed, focus, old(bodies))
      ensures Diverged(step, Frame(law, dt, speed, focus, old(bodies))) ==>
        bodies == InitialBodies(solution)
    {
      var ok := Move();
      if !ok {
        Reset(solution);
        assert InitialBodies(solution) + [] == InitialBodies(solution);
        InitialState(solution);
      }
    }

    /** The solution menu (three-body.js:45-49): select s and reset. */
    method SelectSolution(s: nat)
      requires Valid() && s < Count
      modifies this`solution, this`bodies, this`dt, this`speed, this`segments
      ensures Valid()
      ensures solution == s && bodies == InitialBodies(s)
      ensures step == old(step) && focus == old(focus)
    {
      solution := s;
      Reset(s);
      assert InitialBodies(s) + [] == InitialBodies(s);
      InitialState(s);
    }

    /** The focus buttons (three-body.js:52-59): a different focus f (-1 for
        the centre of mass, else a body) is taken and the solution reset; the
        current focus again changes nothing. */
    method SelectFocus(f: int)
      requires Valid() && -1 <= f < 3
      modifies this`focus, this`bodies, this`dt, this`speed, this`segments
      ensures Valid()
      ensures focus == f && step == old(step) && solution == old(solution)
      ensures old(focus) == f ==> bodies == old(bodies)
      ensures old(focus) != f ==> bodies == InitialBodies(solution)
    {
      if focus != f {
        focus := f;
        Reset(solution);
        assert InitialBodies(solution) + [] == InitialBodies(solution);
        InitialState(solution);
      }
    }
  }

  /** The prefill loop of three-body.js:211-214. */
  method Prefill(x: real, segments: real) returns (trail: seq<Vec3>)
    ensures trail == Prefilled(x, segments)
  {
    trail := [];
    var j: nat := 0;
    while (j as real) < segments
      invariant j <= PrefillCount(segments)
      invariant trail == seq(j, _ => Vec3(x, 0.0, 0.0))
      decreases PrefillCount(segments) - j
    {
      trail := trail + [Vec3(x, 0.0, 0.0)];
      j := j + 1;
    }
  }
}
