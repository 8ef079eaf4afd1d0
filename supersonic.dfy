/** `SupersonicLinearMotion`: a straight line from a start point along a fixed
    direction, at a Mach number times the assumed speed of sound. */
module Supersonic {
  import opened Numerics
  import opened Kinematics

  datatype SupersonicLinearMotion = SupersonicLinearMotion(
    math: Math,
    startLat: real, startLon: real,
    machNumber: real,
    directionDeg: real,
    startTime: real)
  {
    /** Ground speed in metres per second. */
    function VelocityMs(): real {
      machNumber * SpeedOfSoundMs
    }

    function Start(): Position {
      Position(startLat, startLon)
    }

    function PositionAt(currentTime: real): Position {
      Displace(math, Start(), VelocityMs(), currentTime - startTime, directionDeg)
    }

    /** Ground speed in knots. */
    function VelocityAt(currentTime: real): real {
      VelocityMs() * KnotsPerMs
    }

    /** The fixed direction, in [0, 360). */
    function HeadingAt(currentTime: real): (h: real)
      ensures 0.0 <= h < 360.0
    {
      Mod360(directionDeg)
    }
  }

  /** At the start time the aircraft is exactly at the start point. */
  lemma StartPosition(s: SupersonicLinearMotion)
    requires Laws(s.math)
    ensures s.PositionAt(s.startTime) == s.Start()
  {
    DisplaceStill(s.math, s.Start(), s.VelocityMs(), 0.0, s.directionDeg);
  }

  /** Speed and heading do not depend on the time, and the speed is the Mach
      number times 343 m/s, in knots. */
  lemma ConstantSpeedAndHeading(s: SupersonicLinearMotion, t1: real, t2: real)
    ensures s.VelocityAt(t1) == s.VelocityAt(t2) == s.machNumber * 343.0 * 1.94384
    ensures s.HeadingAt(t1) == s.HeadingAt(t2)
    ensures 0.0 <= s.directionDeg < 360.0 ==> s.HeadingAt(t1) == s.directionDeg
  {
    if 0.0 <= s.directionDeg < 360.0 {
      Mod360OfReduced(s.directionDeg);
    }
  }

  /** The reported speed is above the speed of sound exactly when the Mach
      number is above 1. */
  lemma SupersonicIff(s: SupersonicLinearMotion, t: real)
    ensures s.VelocityAt(t) > SpeedOfSoundMs * KnotsPerMs <==> s.machNumber > 1.0
  {
    var c := SpeedOfSoundMs * KnotsPerMs;
    assert s.VelocityAt(t) == s.machNumber * c;
    if s.machNumber > 1.0 {
      assert s.machNumber * c - c == (s.machNumber - 1.0) * c;
    } else {
      assert c - s.machNumber * c == (1.0 - s.machNumber) * c;
    }
  }
}
