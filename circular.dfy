/** `CircularMotion`: flight around a centre at a constant angular speed. The
    angle is `current_time * angular_speed` wrapped into one turn; speed and
    heading come from the derivative of the position, with the eastward rate
    converted to metres at the current latitude. */
module Circular {
  import opened Numerics
  import opened Kinematics

  datatype CircularMotion = CircularMotion(
    math: Math,
    centerLat: real, centerLon: real,
    radiusDeg: real,
    // radians per second
    angularSpeed: real)
  {
    /** The angle at `currentTime`, wrapped into one turn. */
    function ThetaAt(currentTime: real): real {
      math.wrapAngle(currentTime * angularSpeed)
    }

    function PositionAt(currentTime: real): Position {
      var theta := ThetaAt(currentTime);
      Position(centerLat + radiusDeg * math.cos(theta), centerLon + radiusDeg * math.sin(theta))
    }

    /** The northward rate of change of the position, in metres per second. */
    function NorthRateMs(currentTime: real): real {
      var dlatDt := -radiusDeg * angularSpeed * math.sin(ThetaAt(currentTime));
      dlatDt * MetresPerDegree
    }

    /** The eastward rate of change of the position, in metres per second,
        scaled at the current latitude. */
    function EastRateMs(currentTime: real): real {
      var dlonDt := radiusDeg * angularSpeed * math.cos(ThetaAt(currentTime));
      dlonDt * MetresPerDegree * math.cos(math.radians(PositionAt(currentTime).lat))
    }

    /** Ground speed in knots: the length of the rate vector. */
    function VelocityAt(currentTime: real): real {
      math.sqrt(Sq(NorthRateMs(currentTime)) + Sq(EastRateMs(currentTime))) * KnotsPerMs
    }

    /** The direction of the rate vector (0 = north, 90 = east), in [0, 360). */
    function HeadingAt(currentTime: real): (h: real)
      ensures 0.0 <= h < 360.0
    {
      Mod360(math.degrees(math.atan2(EastRateMs(currentTime), NorthRateMs(currentTime))))
    }
  }

  /** At angle 0 (for instance at time 0) the aircraft is due north of the
      centre by the radius. */
  lemma StartPosition(c: CircularMotion)
    requires Laws(c.math)
    ensures c.PositionAt(0.0) == Position(c.centerLat + c.radiusDeg, c.centerLon)
  {
  }

  /** The position always lies on the circle of the given radius around the
      centre (in degree coordinates). */
  lemma OnCircle(c: CircularMotion, currentTime: real)
    requires Laws(c.math)
    ensures var p := c.PositionAt(currentTime);
      Sq(p.lat - c.centerLat) + Sq(p.lon - c.centerLon) == Sq(c.radiusDeg)
  {
    Pythagoras(c.math, c.ThetaAt(currentTime));
    OnCircleAtAngle(c, currentTime);
  }

  lemma OnCircleAtAngle(c: CircularMotion, currentTime: real)
    requires var theta := c.ThetaAt(currentTime);
      Sq(c.math.sin(theta)) + Sq(c.math.cos(theta)) == 1.0
    ensures var p := c.PositionAt(currentTime);
      Sq(p.lat - c.centerLat) + Sq(p.lon - c.centerLon) == Sq(c.radiusDeg)
  {
    var theta := c.ThetaAt(currentTime);
    ScaledUnitCircle(c.PositionAt(currentTime), c.centerLat, c.centerLon, c.radiusDeg,
                     c.math.sin(theta), c.math.cos(theta));
  }

  /** Scaling a point of the unit circle by `r` around a centre lands on the
      circle of radius `r` around it. */
  lemma ScaledUnitCircle(p: Position, centerLat: real, centerLon: real, r: real, s: real, k: real)
    requires Sq(s) + Sq(k) == 1.0
    requires p == Position(centerLat + r * k, centerLon + r * s)
    ensures Sq(p.lat - centerLat) + Sq(p.lon - centerLon) == Sq(r)
  {
    assert p.lat - centerLat == r * k;
    assert p.lon - centerLon == r * s;
    assert Sq(r * k) == Sq(r) * Sq(k);
    assert Sq(r * s) == Sq(r) * Sq(s);
    assert Sq(r) * Sq(k) + Sq(r) * Sq(s) == Sq(r) * (Sq(s) + Sq(k));
  }

  /** The ground speed is never negative. */
  lemma SpeedNonNegative(c: CircularMotion, currentTime: real)
    requires Laws(c.math)
    ensures 0.0 <= c.VelocityAt(currentTime)
  {
    SqNonNegative(c.NorthRateMs(currentTime));
    SqNonNegative(c.EastRateMs(currentTime));
    assert 0.0 <= c.math.sqrt(Sq(c.NorthRateMs(currentTime)) + Sq(c.EastRateMs(currentTime)));
  }

  /** At angle 0 the aircraft moves due east, at the eastward rate of the
      radius times the angular speed, in metres, at latitude
      `center_lat + radius_deg`; its speed is the magnitude of that rate. */
  lemma SpeedAtStart(c: CircularMotion)
    requires Laws(c.math)
    ensures c.NorthRateMs(0.0) == 0.0
    ensures c.EastRateMs(0.0) == c.radiusDeg * c.angularSpeed * MetresPerDegree
                                 * c.math.cos(c.math.radians(c.centerLat + c.radiusDeg))
    ensures c.VelocityAt(0.0) == Abs(c.EastRateMs(0.0)) * KnotsPerMs
  {
    assert c.math.sqrt(Sq(c.EastRateMs(0.0))) == Abs(c.EastRateMs(0.0));
    SpeedAtStartFrom(c);
  }

  /** The start-of-flight rates, from the library values at angle 0. */
  lemma SpeedAtStartFrom(c: CircularMotion)
    requires c.math.wrapAngle(0.0) == 0.0 && c.math.sin(0.0) == 0.0 && c.math.cos(0.0) == 1.0
    requires c.math.sqrt(Sq(c.EastRateMs(0.0))) == Abs(c.EastRateMs(0.0))
    ensures c.NorthRateMs(0.0) == 0.0
    ensures c.EastRateMs(0.0) == c.radiusDeg * c.angularSpeed * MetresPerDegree
                                 * c.math.cos(c.math.radians(c.centerLat + c.radiusDeg))
    ensures c.VelocityAt(0.0) == Abs(c.EastRateMs(0.0)) * KnotsPerMs
  {
    assert c.ThetaAt(0.0) == 0.0;
    assert c.PositionAt(0.0).lat == c.centerLat + c.radiusDeg;
    assert Sq(c.NorthRateMs(0.0)) + Sq(c.EastRateMs(0.0)) == Sq(c.EastRateMs(0.0));
  }

  /** With no angular speed, or no radius, the aircraft does not move: its
      position is the same at every time and its speed is 0. */
  lemma StillCircle(c: CircularMotion, t1: real, t2: real)
    requires Laws(c.math)
    requires c.angularSpeed == 0.0 || c.radiusDeg == 0.0
    ensures c.PositionAt(t1) == c.PositionAt(t2)
    ensures c.VelocityAt(t1) == 0.0
  {
    StillCircleFrom(c, t1, t2);
  }

  lemma StillCircleFrom(c: CircularMotion, t1: real, t2: real)
    requires c.math.sqrt(0.0) == 0.0
    requires c.angularSpeed == 0.0 || c.radiusDeg == 0.0
    ensures c.PositionAt(t1) == c.PositionAt(t2)
    ensures c.VelocityAt(t1) == 0.0
  {
    if c.angularSpeed == 0.0 {
      assert c.ThetaAt(t1) == c.math.wrapAngle(t1 * c.angularSpeed);
      assert t1 * c.angularSpeed == 0.0 && t2 * c.angularSpeed == 0.0;
      assert c.math.wrapAngle(t1 * c.angularSpeed) == c.math.wrapAngle(0.0);
      assert c.ThetaAt(t1) == c.math.wrapAngle(0.0) == c.ThetaAt(t2);
    } else {
      assert c.PositionAt(t1) == Position(c.centerLat, c.centerLon) == c.PositionAt(t2);
    }
    assert c.radiusDeg * c.angularSpeed == 0.0;
    assert c.NorthRateMs(t1) == 0.0 && c.EastRateMs(t1) == 0.0;
    assert Sq(c.NorthRateMs(t1)) + Sq(c.EastRateMs(t1)) == 0.0;
  }
}
