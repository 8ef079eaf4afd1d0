/** The common interface of the motion patterns: every pattern answers a
    position, a ground speed in knots and a true heading in [0, 360) for a given
    time. The four patterns are the variants of one datatype, and each query
    dispatches to the variant's own definition. */
module MotionPatterns {
  import opened Numerics
  import opened Kinematics
  import opened Outcomes
  import Circular
  import Supersonic
  import DirectionChange
  import Acceleration

  datatype MotionPattern =
    | CircularPattern(circular: Circular.CircularMotion)
    | SupersonicPattern(supersonic: Supersonic.SupersonicLinearMotion)
    | DirectionChangePattern(directionChange: DirectionChange.InstantDirectionChangeMotion)
    | AccelerationPattern(acceleration: Acceleration.InstantAccelerationMotion)
  {
    /** The objects whose precomputed tables the queries read. */
    ghost function Repr(): set<object> {
      match this
      case DirectionChangePattern(d) => {d}
      case AccelerationPattern(a) => {a}
      case _ => {}
    }

    ghost predicate Valid()
      reads Repr()
    {
      match this
      case DirectionChangePattern(d) => d.Valid()
      case AccelerationPattern(a) => a.Valid()
      case _ => true
    }

    /** Only the speed-profile pattern can fail, on an empty profile. */
    method GetPosition(currentTime: real) returns (r: Result<Position, Acceleration.MotionError>)
      requires Valid()
      ensures CircularPattern? ==> r == Ok(circular.PositionAt(currentTime))
      ensures SupersonicPattern? ==> r == Ok(supersonic.PositionAt(currentTime))
      ensures DirectionChangePattern? ==> var d := directionChange;
        r == Ok(DirectionChange.PositionAt(d.math, d.velocityMs, d.segmentPositions, currentTime - d.startTime))
      ensures AccelerationPattern? ==> var a := acceleration;
        r == Acceleration.PositionAt(a.math, a.directionDeg, a.segments, currentTime - a.startTime)
      ensures r.Err? ==> AccelerationPattern? && acceleration.segments == []
    {
      match this
      case CircularPattern(c) =>
        r := Ok(c.PositionAt(currentTime));
      case SupersonicPattern(s) =>
        r := Ok(s.PositionAt(currentTime));
      case DirectionChangePattern(d) =>
        var p := d.GetPosition(currentTime);
        r := Ok(p);
      case AccelerationPattern(a) =>
        r := a.GetPosition(currentTime);
    }

    /** Ground speed in knots. */
    method GetVelocity(currentTime: real) returns (r: Result<real, Acceleration.MotionError>)
      requires Valid()
      ensures CircularPattern? ==> r == Ok(circular.VelocityAt(currentTime))
      ensures SupersonicPattern? ==> r == Ok(supersonic.VelocityAt(currentTime))
      ensures DirectionChangePattern? ==> r == Ok(directionChange.velocityKnots)
      ensures AccelerationPattern? ==> var a := acceleration;
        r == Acceleration.VelocityAt(a.segments, currentTime - a.startTime)
      ensures r.Err? ==> AccelerationPattern? && acceleration.segments == []
    {
      match this
      case CircularPattern(c) =>
        r := Ok(c.VelocityAt(currentTime));
      case SupersonicPattern(s) =>
        r := Ok(s.VelocityAt(currentTime));
      case DirectionChangePattern(d) =>
        var v := d.GetVelocity(currentTime);
        r := Ok(v);
      case AccelerationPattern(a) =>
        r := a.GetVelocity(currentTime);
    }

    /** True heading, always in [0, 360), for every pattern. */
    method GetHeading(currentTime: real) returns (h: real)
      requires Valid()
      ensures 0.0 <= h < 360.0
      ensures CircularPattern? ==> h == circular.HeadingAt(currentTime)
      ensures SupersonicPattern? ==> h == supersonic.HeadingAt(currentTime)
      ensures DirectionChangePattern? ==> var d := directionChange;
        h == DirectionChange.HeadingAt(d.segmentPositions, currentTime - d.startTime)
      ensures AccelerationPattern? ==> h == Mod360(acceleration.directionDeg)
    {
      match this
      case CircularPattern(c) =>
        h := c.HeadingAt(currentTime);
      case SupersonicPattern(s) =>
        h := s.HeadingAt(currentTime);
      case DirectionChangePattern(d) =>
        h := d.GetHeading(currentTime);
      case AccelerationPattern(a) =>
        h := a.GetHeading(currentTime);
    }
  }
}
