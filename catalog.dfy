/// The fixed catalog of 15 periodic three-body solutions and the
/// simulation parameters that `reset` derives from it
/// (three-body.js:180-193, 226-230).
module Catalog {

  type Positive = n: nat | n > 0 witness 1
  type PositiveReal = r: real | r > 0.0 witness 1.0

  /** The number of catalogued solutions; valid indices are 0 to 14. */
  const Count: nat := 15

  /** Empirical instability factors: the closer the bodies approach each
      other during an orbit, the larger the factor. */
  const Instabilities: seq<Positive> :=
    [10, 20, 10, 1, 2, 10, 20, 20, 50, 20, 100, 10, 10, 2000, 2000]

  /** Orbital periods of the solutions. */
  const Periods: seq<PositiveReal> :=
    [6.2356, 7.0039, 63.5345, 14.8939, 28.6703, 13.8658, 25.8406, 10.4668,
     79.4759, 21.2710, 55.5018, 17.3284, 10.9626, 55.7898, 54.2076]

  /** Initial x velocity of the first body. */
  const X1Dots: seq<real> :=
    [0.30689, 0.39295, 0.18428, 0.46444, 0.43917, 0.40592, 0.38344, 0.08330,
     0.350112, 0.08058, 0.55906, 0.51394, 0.28270, 0.41682, 0.41734]

  /** Initial y velocity of the first body. */
  const Y1Dots: seq<real> :=
    [0.12551, 0.09758, 0.58719, 0.39606, 0.45297, 0.23016, 0.37736, 0.12789,
     0.079340, 0.58884, 0.34919, 0.30474, 0.32721, 0.33033, 0.31310]

  /** The base step size before it is divided by the instability factor. */
  const BaseDt: real := 0.001

  /** The base number of integrator steps per frame. */
  const BaseSpeed: nat := 5

  function Instability(s: nat): Positive
    requires s < Count
  {
    Instabilities[s]
  }

  function Period(s: nat): PositiveReal
    requires s < Count
  {
    Periods[s]
  }

  function X1Dot(s: nat): real
    requires s < Count
  {
    X1Dots[s]
  }

  function Y1Dot(s: nat): real
    requires s < Count
  {
    Y1Dots[s]
  }

  /** The integrator's step size. */
  function Dt(s: nat): real
    requires s < Count
  {
    BaseDt / (Instability(s) as real)
  }

  /** The number of integrator steps per frame. */
  function Speed(s: nat): Positive
    requires s < Count
  {
    BaseSpeed * Instability(s)
  }

  /** The trail length asked for: one period's worth of frames. Unrounded. */
  function Segments(s: nat): real
    requires s < Count
  {
    Period(s) / Dt(s) / (Speed(s) as real)
  }

  /** How many entries a loop `for (j = 0; j < seg; j++)` visits: the least
      natural number that is at least `seg`. */
  function PrefillCount(seg: real): (n: nat)
    ensures seg <= n as real
    ensures n == 0 || (n - 1) as real < seg
  {
    if seg <= 0.0 then 0
    else if seg.Floor as real == seg then seg.Floor
    else seg.Floor + 1
  }

  /** The trail length does not depend on the instability factor: the
      factor divides the step size and multiplies the steps per frame, so one
      frame always covers BaseDt * BaseSpeed = 0.005 time units. */
  lemma SegmentsIsPeriodPerFrameTime(s: nat)
    requires s < Count
    ensures Dt(s) * (Speed(s) as real) == BaseDt * (BaseSpeed as real)
    ensures Segments(s) == 200.0 * Period(s)
    ensures Segments(s) > 0.0
  {
    var k := Instability(s) as real;
    var p := Period(s);
    assert k > 0.0;
    calc {
      Dt(s) * (Speed(s) as real);
      (0.001 / k) * (5.0 * k);
      0.005 * (k / k);
      0.005;
    }
    calc {
      Segments(s);
      (p / (0.001 / k)) / (5.0 * k);
      { assert p / (0.001 / k) == 1000.0 * p * k; }
      (1000.0 * p * k) / (5.0 * k);
      { assert (1000.0 * p * k) == (200.0 * p) * (5.0 * k); }
      200.0 * p;
    }
  }

  /** Every trail of solution s is prefilled with ceiling(200 * period) points. */
  lemma TrailLength(s: nat)
    requires s < Count
    ensures PrefillCount(Segments(s)) > 0
    ensures 200.0 * Period(s) <= PrefillCount(Segments(s)) as real < 200.0 * Period(s) + 1.0
  {
    SegmentsIsPeriodPerFrameTime(s);
  }

  /** Solution 3 (the figure-eight): step 0.001, 5 steps per frame, and
      trails of 2979 points. */
  lemma FigureEight()
    ensures Dt(3) == 0.001 && Speed(3) == 5
    ensures Segments(3) == 2978.78 && PrefillCount(Segments(3)) == 2979
    ensures X1Dot(3) == 0.46444 && Y1Dot(3) == 0.39606
  {
    SegmentsIsPeriodPerFrameTime(3);
  }
}
