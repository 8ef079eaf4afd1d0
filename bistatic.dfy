/** The detection geometry: the distance between two points given by
    latitude, longitude and altitude (the haversine surface distance on a
    sphere, with the altitude difference added by Pythagoras), and the bistatic
    range transmitter -> aircraft -> receiver. */
module Bistatic {
  import opened Numerics

  /** Earth's radius in metres, as the distance uses it. */
  const EarthRadiusM: real := 6371000.0

  /** Degrees of latitude and longitude, altitude in metres. */
  datatype GeoPoint = GeoPoint(lat: real, lon: real, alt: real)

  /** The haversine term `a` of the two points. */
  function Haversine(m: Math, p: GeoPoint, q: GeoPoint): real {
    var lat1, lon1 := m.radians(p.lat), m.radians(p.lon);
    var lat2, lon2 := m.radians(q.lat), m.radians(q.lon);
    var dlat, dlon := lat2 - lat1, lon2 - lon1;
    Sq(m.sin(dlat / 2.0)) + m.cos(lat1) * m.cos(lat2) * Sq(m.sin(dlon / 2.0))
  }

  /** The great-circle distance along the surface, in metres. */
  function SurfaceDistance(m: Math, p: GeoPoint, q: GeoPoint): real {
    2.0 * EarthRadiusM * m.asin(m.sqrt(Haversine(m, p, q)))
  }

  /** The inner `distance` of `calculate_bistatic_range`. */
  function Distance(m: Math, p: GeoPoint, q: GeoPoint): real {
    m.sqrt(Sq(SurfaceDistance(m, p, q)) + Sq(q.alt - p.alt))
  }

  /** `calculate_bistatic_range`: transmitter to aircraft plus aircraft to
      receiver. */
  function BistaticRange(m: Math, aircraft: GeoPoint, tx: GeoPoint, rx: GeoPoint): real {
    Distance(m, tx, aircraft) + Distance(m, aircraft, rx)
  }

  /** A distance is never negative. */
  lemma DistanceNonNegative(m: Math, p: GeoPoint, q: GeoPoint)
    requires Laws(m)
    ensures 0.0 <= Distance(m, p, q)
  {
    SqNonNegative(SurfaceDistance(m, p, q));
    SqNonNegative(q.alt - p.alt);
  }

  /** So is a bistatic range. */
  lemma BistaticRangeNonNegative(m: Math, aircraft: GeoPoint, tx: GeoPoint, rx: GeoPoint)
    requires Laws(m)
    ensures 0.0 <= BistaticRange(m, aircraft, tx, rx)
  {
    DistanceNonNegative(m, tx, aircraft);
    DistanceNonNegative(m, aircraft, rx);
  }

  /** Two points with the same latitude and longitude have no surface distance
      between them. */
  lemma SurfaceDistanceSameSpot(m: Math, p: GeoPoint, q: GeoPoint)
    requires Laws(m)
    requires p.lat == q.lat && p.lon == q.lon
    ensures SurfaceDistance(m, p, q) == 0.0
  {
    var lat1 := m.radians(p.lat);
    assert m.radians(q.lat) - lat1 == 0.0;
    assert m.radians(q.lon) - m.radians(p.lon) == 0.0;
    assert Haversine(m, p, q) == Sq(0.0) + m.cos(lat1) * m.cos(lat1) * Sq(0.0);
  }

  /** Straight above or below: the distance is the altitude difference. */
  lemma DistanceVertical(m: Math, p: GeoPoint, q: GeoPoint)
    requires Laws(m)
    requires p.lat == q.lat && p.lon == q.lon
    ensures Distance(m, p, q) == Abs(q.alt - p.alt)
  {
    SurfaceDistanceSameSpot(m, p, q);
    assert Sq(SurfaceDistance(m, p, q)) + Sq(q.alt - p.alt) == Sq(q.alt - p.alt);
  }

  /** A point is at distance 0 from itself. */
  lemma DistanceToSelf(m: Math, p: GeoPoint)
    requires Laws(m)
    ensures Distance(m, p, p) == 0.0
  {
    DistanceVertical(m, p, p);
  }

  /** The haversine term does not depend on the order of the points: the
      squared half-angle sines are even and the cosine product commutes. */
  lemma HaversineSymmetric(m: Math, p: GeoPoint, q: GeoPoint)
    requires Laws(m)
    ensures Haversine(m, p, q) == Haversine(m, q, p)
  {
    var lat1, lon1 := m.radians(p.lat), m.radians(p.lon);
    var lat2, lon2 := m.radians(q.lat), m.radians(q.lon);
    SquaredSineEven(m, (lat2 - lat1) / 2.0, (lat1 - lat2) / 2.0);
    SquaredSineEven(m, (lon2 - lon1) / 2.0, (lon1 - lon2) / 2.0);
    HaversineSwap(m, p, q);
  }

  /** The haversine terms of the two orders agree once the squared sines of
      the opposite half-differences do. */
  lemma HaversineSwap(m: Math, p: GeoPoint, q: GeoPoint)
    requires var lat1, lat2 := m.radians(p.lat), m.radians(q.lat);
      Sq(m.sin((lat1 - lat2) / 2.0)) == Sq(m.sin((lat2 - lat1) / 2.0))
    requires var lon1, lon2 := m.radians(p.lon), m.radians(q.lon);
      Sq(m.sin((lon1 - lon2) / 2.0)) == Sq(m.sin((lon2 - lon1) / 2.0))
    ensures Haversine(m, p, q) == Haversine(m, q, p)
  {
  }

  /** The sine of opposite angles has the same square. */
  lemma SquaredSineEven(m: Math, x: real, y: real)
    requires Laws(m)
    requires y == -x
    ensures Sq(m.sin(y)) == Sq(m.sin(x))
  {
    assert m.sin(y) == -m.sin(x);
  }

  /** Distance is symmetric in its two endpoints. */
  lemma DistanceSymmetric(m: Math, p: GeoPoint, q: GeoPoint)
    requires Laws(m)
    ensures Distance(m, p, q) == Distance(m, q, p)
  {
    HaversineSymmetric(m, p, q);
    assert Sq(q.alt - p.alt) == Sq(p.alt - q.alt);
  }

  /** With the receiver at the transmitter, the bistatic range is the round
      trip: twice the transmitter-to-aircraft distance. */
  lemma MonostaticRange(m: Math, aircraft: GeoPoint, tx: GeoPoint)
    requires Laws(m)
    ensures BistaticRange(m, aircraft, tx, tx) == 2.0 * Distance(m, tx, aircraft)
  {
    DistanceSymmetric(m, aircraft, tx);
  }

  /** The bistatic range is unchanged when transmitter and receiver swap. */
  lemma BistaticRangeSwap(m: Math, aircraft: GeoPoint, tx: GeoPoint, rx: GeoPoint)
    requires Laws(m)
    ensures BistaticRange(m, aircraft, tx, rx) == BistaticRange(m, aircraft, rx, tx)
  {
    DistanceSymmetric(m, tx, aircraft);
    DistanceSymmetric(m, aircraft, rx);
  }
}
