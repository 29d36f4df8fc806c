# Three-body choreographies: a verified model of the simulation engine

The program animates 15 periodic solutions of the planar three-body problem
(equal unit masses, G = 1). Each solution is given by a period and the
initial velocity (x1dot, y1dot) of the first body. This project models the
numerical engine over Dafny's `real` numbers: the solution catalog and the
parameters derived from it, the initial state that `reset` builds, the
per-frame `move`, the integrator `rk4`, the acceleration `a`, and `animate`'s
reset on failure. Rendering is not modelled.

The model is split into six modules:

- `Vectors` (vectors.dfy) is the part of THREE.Vector3 the engine uses, as a
  value type. `Vector3.length()` is a function parameter `len`, and
  `IsLength(len)` says that it is the non-negative square root of the
  squared length.
- `Catalog` (catalog.dfy) holds the four 15-entry tables and the derivation
  of `dt`, `speed` and `segments`.
- `Bodies` (bodies.dfy) defines a body: its position, its velocity and its
  trail vertices, oldest first.
- `Gravity` (gravity.dfy) has the acceleration of body i at a probe point.
  It is stated for any per-pair law `Law = (Vec3, Vec3) -> Vec3`. Newton's
  law (normalize, then divide by the squared distance) is `NewtonLaw(len)`.
- `Integrator` (integrator.dfy) holds the classical Runge-Kutta step. It is
  applied to the bodies in index order, and each body is written back
  before the next one is advanced.
- `Simulation` (simulation.dfy) defines the specification functions
  `InitialBodies`, `Recenter`, `UpdateTrails`, `Frame` and `Diverged`. It
  also defines the class `Simulation`, whose fields are the state the page
  keeps: the bodies, `dt`, `speed`, `segments`, the frame counter `step`,
  the focus and the selected solution. Its methods are `Reset`, `Rk4`,
  `Move`, `Animate` and the two selection handlers. Each one is proved
  against the specification functions.

Points where the code is easy to misread, all modelled as the code has them:

- `rk4` writes each body back before advancing the next (three-body.js:152-153),
  so body i's stages see bodies 0..i-1 as already advanced in the same call
  (`Integrator.StepInOrder`).
- The stability check runs when the frame counter is a multiple of 1000
  (three-body.js:82).
- `reset` does not touch the frame counter; it is set to 0 only once, when
  the page loads (three-body.js:42).
- A trail gets ceiling(segments) vertices, from the loop `j < segments`
  (three-body.js:211); `segments` itself is never rounded. Over the reals it
  is exactly 200 times the period, 2978.78 for the figure-eight, giving 2979
  vertices.
- The focus handler resets only when the chosen focus differs from the
  current one (three-body.js:54).

## Model

| member | source | states |
|---|---|---|
| `Catalog.SegmentsIsPeriodPerFrameTime` | three-body.js:181-193 | dt·speed is 0.005 for every solution, so `segments` = period/dt/speed is exactly 200 × period and is positive |
| `Catalog.PrefillCount` | three-body.js:211-214 | the number of rounds of `for (j = 0; j < seg; j++)` is the least natural n with seg <= n |
| `Catalog.TrailLength` | three-body.js:211-214 | every solution's trails get a positive number of vertices, between 200·period and 200·period + 1 |
| `Catalog.FigureEight` | three-body.js:181-193 | solution 3 has dt 0.001, speed 5, segments 2978.78, 2979 trail vertices and start velocity (0.46444, 0.39606) |
| `Vectors.LengthExceeds` | three-body.js:86 | with a true length function, length(v) > bound exactly when the squared length exceeds bound² |
| `Gravity.Acceleration` | three-body.js:158-175 | the loop of `a` returns the fold over all bodies j ≠ i of the pull toward body j |
| `Gravity.AccelIgnoresSelf` | three-body.js:163-166 | body i's own entry never contributes to its acceleration |
| `Gravity.AccelOfThree` | three-body.js:163-173 | with three bodies the acceleration is the sum of the pulls of exactly the two other bodies, in index order |
| `Gravity.AccelNoPull` | three-body.js:162-174 | a law that never pulls gives a zero acceleration |
| `Gravity.NewtonOnLine` | three-body.js:158-175 | with the source's own law, normalize(q − p) / distance², the first body of the collinear start arrangement accelerates by (1.25, 0, 0) |
| `Gravity.NewtonInverseSquare` | three-body.js:167-171 | for distinct points the pull is defined, equals (q − p) divided by the cube of its length, and has squared length 1/d⁴ for the distance d |
| `Gravity.NewtonAlongX` | three-body.js:167-171 | the pull toward a point at distance c on the x axis is (1/c², 0, 0) |
| `Gravity.AccelOnLine` | three-body.js:158-175 | for the collinear start arrangement (others at +2 and +1 along x) the first body's acceleration is (1.25, 0, 0) |
| `Integrator.Sweep` | three-body.js:118-154 | the body loop keeps the number of bodies, leaves bodies already passed untouched and never changes a trail |
| `Integrator.Iterate` | three-body.js:62-64 | repeated `rk4` keeps the number of bodies and every trail |
| `Integrator.StepInOrder` | three-body.js:115-155 | after one `rk4`, body i is the Runge-Kutta advance of body i against bodies 0..i−1 as already advanced and bodies i.. as before |
| `Integrator.AdvanceIsClassical` | three-body.js:124-153 | the increments v += h/6·(k1v+2k2v+2k3v+k4v), r += h/6·(k1r+2k2r+2k3r+k4r) are the classical fourth-order Runge-Kutta step for r' = v, v' = a(r) |
| `Integrator.UniformField` | three-body.js:124-153 | under a constant acceleration c the step is exact: v + h·c and r + h·v + h²/2·c |
| `Integrator.FreeMotion` | three-body.js:124-153 | with no acceleration the step keeps v and moves r by exactly h·v |
| `Integrator.FieldNoPull` | three-body.js:128-146 | a law that never pulls gives every stage a zero acceleration |
| `Integrator.StepNoPull` | three-body.js:128-153 | with a zero per-pair pull one `rk4` keeps each velocity and moves each position by h·v |
| `Integrator.RunningTotal` | three-body.js:122-150 | the running totals dv and dr, built as k1 + k2 + k2 + k3 + k3 + k4, are the weighted sum k1 + 2k2 + 2k3 + k4 |
| `Integrator.AdvanceBody` | three-body.js:119-153 | the loop body with its running totals and vector updates computes exactly `Advance` |
| `Simulation.InitialState` | three-body.js:201-246 | the positions are (−1,0,0), (1,0,0) and (0,0,0); the velocities are (x1dot,y1dot,0) twice and (−2x1dot,−2y1dot,0); each trail has ceiling(segments) > 0 vertices, all equal to the body's start point |
| `Simulation.InitialCentreOfMass` | three-body.js:240-246 | the start positions sum to zero |
| `Simulation.InitialMomentum` | three-body.js:232-238 | the start velocities sum to zero |
| `Simulation.RecenterFocus` | three-body.js:67-72 | with a focus f the focus body ends at the origin and every body moves by −p_f; positions relative to one another, velocities and trails are unchanged; focus −1 changes nothing |
| `Simulation.TrailUpdate` | three-body.js:74-80 | shift-then-push keeps each non-empty trail's length, drops the oldest vertex and appends the current position |
| `Simulation.TrailWindow` | three-body.js:74-80 | after k frames, k at most the trail length n, a trail is its last n − k old vertices followed by the k positions visited, oldest first |
| `Simulation.TrailKeepsLength` | three-body.js:74-80 | a non-empty trail keeps its length over any number of frames |
| `Simulation.UnstableByLength` | three-body.js:86 | the squared-norm test is the source's test, length of v or length of p above 10 |
| `Simulation.CheckStable` | three-body.js:83-90 | the loop reports stable exactly when no body fails the test |
| `Simulation.FrameTrails` | three-body.js:61-80 | one frame keeps trail lengths, appends each body's new position to its trail, and puts the focus body at the origin |
| `Simulation.FrameKeepsTrailLength` | three-body.js:74-80 | the trail length ceiling(segments) of all three bodies survives a frame |
| `Simulation.Prefill` | three-body.js:211-214 | the prefill loop yields ceiling(segments) copies of (x, 0, 0) |
| `Simulation.Simulation.constructor` | three-body.js:34-50 | page load: solution 3, the initial bodies of solution 3, frame 0, focus on the centre of mass, invariant established |
| `Simulation.Simulation.Reset` | three-body.js:180-247 | dt, speed and segments come from the catalog; the bodies are `InitialBodies(s)`, a function of s alone, so a second reset(s) gives the same state |
| `Simulation.Simulation.Rk4` | three-body.js:115-155 | the in-place loop over the bodies computes `Step`, one `rk4` |
| `Simulation.Simulation.Integrate` | three-body.js:62-64 | `rk4` runs exactly `speed` times |
| `Simulation.Simulation.RecenterLoop` | three-body.js:67-72 | the loop subtracts the copy of the focus position from every body, giving `Recenter` |
| `Simulation.Simulation.PushTrails` | three-body.js:74-80 | the loop gives `UpdateTrails` |
| `Simulation.Simulation.Check` | three-body.js:82-93 | the result is false exactly at a frame that is a multiple of 1000 with some body failing the test |
| `Simulation.Simulation.Move` | three-body.js:61-94 | the bodies become `Frame` of the old bodies (speed steps, recentering, trails); step goes up by one; the result is false exactly when `Diverged`; the invariant (catalog parameters, three bodies, trail lengths) is kept |
| `Simulation.Simulation.Animate` | three-body.js:96-99 | a failed move resets the current solution, otherwise the frame stands; the frame counter keeps counting |
| `Simulation.Simulation.SelectSolution` | three-body.js:45-49 | the chosen solution is stored and its initial state built; step and focus stay |
| `Simulation.Simulation.SelectFocus` | three-body.js:52-59 | the focus is stored; a different focus resets the solution, the same focus changes nothing |

## Left out

- THREE.js rendering is not modelled: scene, renderer, camera, lights, meshes, materials, `OrbitControls`, and adding and removing objects from the scene (three-body.js:1-30, 101-107, 196-222). The model keeps only the vectors and the trail vertex lists.
- The jQuery wiring is not modelled. Solution ids and focus values arrive there as strings; the model takes them as numbers, and `SelectSolution` and `SelectFocus` require values in range. The code validates nothing.
- `requestAnimationFrame`, the camera moves in the handlers and `console.log` are browser I/O and are left out.
- The unused `movements` array of `rk4` is left out.
- Floating point is left out. Everything is over exact reals, so rounding, overflow and NaN are not modelled, and neither is the frame counter's growth as a JavaScript number.
- The square root is a parameter. `Vector3.length()` is `len`, characterised by `IsLength`. The stability test is stated on squared lengths, and `UnstableByLength` proves it the same as the source's test.
- Gravity.NewtonLaw: coincident bodies, where the source divides by zero, get no pull in the model. Its contract only speaks of separated points.
- THREE.Vector3 objects are values here. The source's in-place `multiplyScalar`/`add` chains reuse each vector only after it has been added to its running total, and `move` copies the focus position before subtracting, so aliasing has no effect and is not modelled.
- Entries past the third in `bodies` would be kept by `reset` as they were (`bodies[i] = body` only writes entries 0 to 2), and the model does the same. The page never has more than three bodies.
