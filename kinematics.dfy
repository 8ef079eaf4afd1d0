/** Positions, unit constants and the flat-Earth dead-reckoning step that every
    motion pattern uses to move a point along a heading. */
module Kinematics {
  import opened Numerics

  /** Metres in one degree of latitude. */
  const MetresPerDegree: real := 111320.0
  /** Metres per second in one knot. */
  const MsPerKnot: real := 0.514444
  /** Knots in one metre per second. */
  const KnotsPerMs: real := 1.94384
  /** The speed of sound the supersonic pattern assumes, in metres per second. */
  const SpeedOfSoundMs: real := 343.0

  datatype Position = Position(lat: real, lon: real)

  /** Move `p` for `dt` seconds at `speedMs` along `directionDeg` (0 = north,
      90 = east): the latitude moves by the northward distance over the metres in
      a degree, and the longitude by the eastward distance scaled at the NEW
      latitude, as every pattern of the source does. */
  function Displace(m: Math, p: Position, speedMs: real, dt: real, directionDeg: real): Position {
    var dlat := (speedMs * dt / MetresPerDegree) * m.cos(m.radians(directionDeg));
    var dlon := (speedMs * dt / MetresPerDegree) * m.sin(m.radians(directionDeg));
    var lat := p.lat + dlat;
    Position(lat, p.lon + m.lonScale(dlon, lat))
  }

  /** No time or no speed: no movement. */
  lemma DisplaceStill(m: Math, p: Position, speedMs: real, dt: real, directionDeg: real)
    requires Laws(m)
    requires speedMs == 0.0 || dt == 0.0
    ensures Displace(m, p, speedMs, dt, directionDeg) == p
  {
    assert speedMs * dt / MetresPerDegree == 0.0;
  }
}
