/// The state of one body: a sphere's position, its velocity and the
/// vertex list of its trail line (three-body.js:203-216).
module Bodies {
  import opened Vectors

  /** `trail` lists the trail's vertices oldest first. */
  datatype Body = Body(position: Vec3, velocity: Vec3, trail: seq<Vec3>)

  function Positions(bs: seq<Body>): (ps: seq<Vec3>)
    ensures |ps| == |bs|
    ensures forall j :: 0 <= j < |bs| ==> ps[j] == bs[j].position
  {
    seq(|bs|, j requires 0 <= j < |bs| => bs[j].position)
  }

  function Velocities(bs: seq<Body>): (vs: seq<Vec3>)
    ensures |vs| == |bs|
    ensures forall j :: 0 <= j < |bs| ==> vs[j] == bs[j].velocity
  {
    seq(|bs|, j requires 0 <= j < |bs| => bs[j].velocity)
  }

  /** The sum of a list of vectors, first to last. */
  function Sum(vs: seq<Vec3>): Vec3 {
    if |vs| == 0 then Zero else Add(Sum(vs[..|vs| - 1]), vs[|vs| - 1])
  }
}
