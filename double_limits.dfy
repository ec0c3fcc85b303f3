/** The soft-limit comparison on IEEE doubles, reduced to what matters for it:
    a coordinate is either a finite value or NaN. Java's `<` and `>` are false
    whenever an operand is NaN. */
module DoubleLimits {

  datatype Double = Finite(value: real) | NaN

  /** The X and Y of a pose, as doubles. */
  datatype PlanarPose = PlanarPose(x: Double, y: Double)

  /** Java's `a < b` on doubles. */
  predicate Less(a: Double, b: Double)
  {
    a.Finite? && b.Finite? && a.value < b.value
  }

  /** Java's `a <= b` on doubles. */
  predicate AtMost(a: Double, b: Double)
  {
    a.Finite? && b.Finite? && a.value <= b.value
  }

  predicate AllFinite(camera: PlanarPose, min: PlanarPose, max: PlanarPose)
  {
    camera.x.Finite? && camera.y.Finite? && min.x.Finite? && min.y.Finite? && max.x.Finite? && max.y.Finite?
  }

  predicate SomeNaN(camera: PlanarPose, min: PlanarPose, max: PlanarPose)
  {
    camera.x.NaN? || camera.y.NaN? || min.x.NaN? || min.y.NaN? || max.x.NaN? || max.y.NaN?
  }

  /** The rejection test of the head as written: a pose is refused when a strict
      comparison says it lies beyond a bound. */
  predicate RejectAsWritten(camera: PlanarPose, min: PlanarPose, max: PlanarPose)
  {
    Less(camera.x, min.x) || Less(max.x, camera.x) || Less(camera.y, min.y) || Less(max.y, camera.y)
  }

  /** A NaN on X passes the test as written: every comparison is false, so a move
      whose camera X is NaN and whose Y is in range goes to the driver. */
  lemma NaNPassesAsWritten(y: real, min: PlanarPose, max: PlanarPose)
    requires AtMost(min.y, Finite(y)) && AtMost(Finite(y), max.y)
    ensures !RejectAsWritten(PlanarPose(NaN, Finite(y)), min, max)
  {
  }

  /** The test as intended: a pose passes only when it is provably inside the closed box. */
  function RejectFailClosed(camera: PlanarPose, min: PlanarPose, max: PlanarPose): (r: bool)
    // any NaN among the checked coordinates or bounds rejects the move
    ensures SomeNaN(camera, min, max) ==> r
    // on finite values it is exactly the test as written
    ensures AllFinite(camera, min, max) ==> (r <==> RejectAsWritten(camera, min, max))
  {
    !(AtMost(min.x, camera.x) && AtMost(camera.x, max.x) && AtMost(min.y, camera.y) && AtMost(camera.y, max.y))
  }
}
