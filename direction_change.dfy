/** `InstantDirectionChangeMotion`: constant speed, with the heading turned
    clockwise by 90 degrees every `change_interval` seconds. The constructor
    precomputes a table of eleven rows (the start and ten turns); a query finds
    the row whose half-open interval `[row.time, next.time)` holds the elapsed time
    and dead-reckons from it, and falls back to the last row outside the table. */
module DirectionChange {
  import opened Numerics
  import opened Kinematics
  import opened Outcomes

  /** A row of the precomputed table: when the segment starts (seconds after the
      pattern's start time), where, and the heading held during it, in degrees. */
  datatype DirSegment = DirSegment(time: real, lat: real, lon: real, direction: real)

  /** The number of direction changes precomputed; the table has one row more. */
  const Changes: nat := 10

  /** A quarter turn clockwise, reduced into [0, 360). */
  function Turn(direction: real): (r: real)
    ensures 0.0 <= r < 360.0
  {
    Mod360(direction + 90.0)
  }

  function Start(s: DirSegment): Position {
    Position(s.lat, s.lon)
  }

  /** Where segment `s` has brought the aircraft `timeInSegment` seconds after
      it began. */
  function SegmentPosition(m: Math, velocityMs: real, s: DirSegment, timeInSegment: real): Position {
    Displace(m, Start(s), velocityMs, timeInSegment, s.direction)
  }

  /** One pass of the precomputation loop: advance one interval along the
      current heading, then turn. */
  function NextSegment(m: Math, velocityMs: real, interval: real, s: DirSegment): DirSegment {
    var p := SegmentPosition(m, velocityMs, s, interval);
    DirSegment(s.time + interval, p.lat, p.lon, Turn(s.direction))
  }

  /** The table after `n` passes of the loop, starting from row `first`. */
  function SegmentTable(m: Math, velocityMs: real, interval: real, first: DirSegment, n: nat): (t: seq<DirSegment>)
    ensures |t| == n + 1
    ensures t[0] == first
  {
    if n == 0 then [first]
    else
      var prev := SegmentTable(m, velocityMs, interval, first, n - 1);
      prev + [NextSegment(m, velocityMs, interval, prev[n - 1])]
  }

  /** Row `k` holds elapsed time `dt` in its half-open interval. */
  predicate InSegment(segs: seq<DirSegment>, k: nat, dt: real)
    requires k + 1 < |segs|
  {
    segs[k].time <= dt < segs[k + 1].time
  }

  /** The search loop of the queries, from row `from` on: the first row whose
      interval holds `dt`, or `None` when no row's does. */
  function FindFrom(segs: seq<DirSegment>, dt: real, from: nat): (r: Option<nat>)
    decreases |segs| - from
    ensures r.Some? ==> from <= r.value && r.value + 1 < |segs| && InSegment(segs, r.value, dt)
    ensures r.Some? ==> forall j :: from <= j < r.value ==> !InSegment(segs, j, dt)
    ensures r.None? ==> forall j :: from <= j && j + 1 < |segs| ==> !InSegment(segs, j, dt)
  {
    if from + 1 >= |segs| then None
    else if InSegment(segs, from, dt) then Some(from)
    else FindFrom(segs, dt, from + 1)
  }

  function FindSegment(segs: seq<DirSegment>, dt: real): Option<nat> {
    FindFrom(segs, dt, 0)
  }

  /** `get_position` at elapsed time `dt`. */
  function PositionAt(m: Math, velocityMs: real, segs: seq<DirSegment>, dt: real): Position
    requires |segs| > 0
  {
    match FindSegment(segs, dt)
    case Some(k) => SegmentPosition(m, velocityMs, segs[k], dt - segs[k].time)
    case None =>
      var last := segs[|segs| - 1];
      SegmentPosition(m, velocityMs, last, dt - last.time)
  }

  /** `get_heading` at elapsed time `dt`. */
  function HeadingAt(segs: seq<DirSegment>, dt: real): (h: real)
    requires |segs| > 0
    ensures 0.0 <= h < 360.0
  {
    match FindSegment(segs, dt)
    case Some(k) => Mod360(segs[k].direction)
    case None => Mod360(segs[|segs| - 1].direction)
  }

  // ---------------------------------------------------------------------------
  // The shape of the precomputed table

  lemma {:induction false} TableStep(m: Math, velocityMs: real, interval: real, first: DirSegment, n: nat, k: nat)
    requires k < n
    ensures var t := SegmentTable(m, velocityMs, interval, first, n);
      t[k + 1] == NextSegment(m, velocityMs, interval, t[k])
  {
    if k + 1 < n {
      TableStep(m, velocityMs, interval, first, n - 1, k);
    }
  }

  /** One more pass of the loop appends one row made from the last. */
  lemma TableGrows(m: Math, velocityMs: real, interval: real, first: DirSegment, n: nat)
    ensures var t := SegmentTable(m, velocityMs, interval, first, n);
      SegmentTable(m, velocityMs, interval, first, n + 1) == t + [NextSegment(m, velocityMs, interval, t[n])]
  {
  }

  /** Consecutive rows: one interval apart, a quarter turn apart, and the next
      row starts exactly where the current segment's own formula puts the aircraft
      after a full interval, so position is continuous across every boundary. */
  lemma TableBoundary(m: Math, velocityMs: real, interval: real, first: DirSegment, n: nat, k: nat)
    requires k < n
    ensures var t := SegmentTable(m, velocityMs, interval, first, n);
      && t[k + 1].time == t[k].time + interval
      && t[k + 1].direction == Mod360(t[k].direction + 90.0)
      && Start(t[k + 1]) == SegmentPosition(m, velocityMs, t[k], interval)
  {
    TableStep(m, velocityMs, interval, first, n, k);
  }

  lemma TableTime(m: Math, velocityMs: real, interval: real, first: DirSegment, n: nat, k: nat)
    requires k <= n
    ensures SegmentTable(m, velocityMs, interval, first, n)[k].time == first.time + (k as real) * interval
  {
    TableStepped(m, velocityMs, interval, first, n);
    SteppedTime(SegmentTable(m, velocityMs, interval, first, n), interval, k);
  }

  /** Every row after the first holds a reduced heading; the first keeps the raw
      initial direction. */
  lemma TableDirections(m: Math, velocityMs: real, interval: real, first: DirSegment, n: nat, k: nat)
    requires 0 < k <= n
    ensures var t := SegmentTable(m, velocityMs, interval, first, n);
      t[0].direction == first.direction && 0.0 <= t[k].direction < 360.0
  {
    TableStep(m, velocityMs, interval, first, n, k - 1);
  }

  /** The table the constructor builds, starting at time 0: eleven rows, row
      `k` at `k` intervals. */
  lemma ConstructedTable(m: Math, velocityMs: real, interval: real, startLat: real, startLon: real,
                         direction: real, k: nat)
    requires k <= Changes
    ensures var t := SegmentTable(m, velocityMs, interval, DirSegment(0.0, startLat, startLon, direction), Changes);
      |t| == 11 && t[k].time == (k as real) * interval
  {
    TableTime(m, velocityMs, interval, DirSegment(0.0, startLat, startLon, direction), Changes, k);
  }

  // ---------------------------------------------------------------------------
  // The time partition

  /** Each row starts `interval` seconds after the one before it. */
  ghost predicate Stepped(segs: seq<DirSegment>, interval: real) {
    forall k :: 0 < k < |segs| ==> segs[k].time == segs[k - 1].time + interval
  }

  lemma TableStepped(m: Math, velocityMs: real, interval: real, first: DirSegment, n: nat)
    ensures Stepped(SegmentTable(m, velocityMs, interval, first, n), interval)
  {
    var t := SegmentTable(m, velocityMs, interval, first, n);
    forall k | 0 < k <= n
      ensures t[k].time == t[k - 1].time + interval
    {
      TableStep(m, velocityMs, interval, first, n, k - 1);
    }
  }

  /** Row `k` of a stepped table starts `k` intervals after row 0. */
  lemma {:induction false} SteppedTime(segs: seq<DirSegment>, interval: real, k: nat)
    requires Stepped(segs, interval) && k < |segs|
    ensures segs[k].time == segs[0].time + (k as real) * interval
  {
    if k > 0 {
      SteppedTime(segs, interval, k - 1);
      assert ((k - 1) as real) * interval + interval == (k as real) * interval;
    }
  }

  /** With a positive interval, later rows start at least one interval later. */
  lemma {:induction false} TimesIncrease(segs: seq<DirSegment>, interval: real, j: nat, k: nat)
    requires Stepped(segs, interval) && 0.0 < interval && j < k < |segs|
    ensures segs[j].time + interval <= segs[k].time
  {
    if j + 1 < k {
      TimesIncrease(segs, interval, j, k - 1);
    }
  }

  /** With a positive interval the search finds row `k` exactly when row `k`'s
      interval holds `dt`: at most one row matches, and the first match is it. */
  lemma FoundIff(segs: seq<DirSegment>, interval: real, k: nat, dt: real)
    requires Stepped(segs, interval) && 0.0 < interval && k + 1 < |segs|
    ensures FindSegment(segs, dt) == Some(k) <==> InSegment(segs, k, dt)
  {
    if InSegment(segs, k, dt) {
      var r := FindSegment(segs, dt);
      assert r.Some?;
      if r.value < k {
        TimesIncrease(segs, interval, r.value + 1, k);
        assert false;
      }
    }
  }

  lemma {:induction false} FoundFrom(segs: seq<DirSegment>, interval: real, from: nat, dt: real)
    requires Stepped(segs, interval) && from < |segs|
    requires segs[from].time <= dt < segs[|segs| - 1].time
    ensures FindFrom(segs, dt, from).Some?
    decreases |segs| - from
  {
    if from + 1 < |segs| && segs[from + 1].time <= dt {
      FoundFrom(segs, interval, from + 1, dt);
    }
  }

  /** The search fails exactly before the first row's time or from the last
      row's time on, whatever the interval's sign. */
  lemma NotFoundIff(segs: seq<DirSegment>, interval: real, dt: real)
    requires Stepped(segs, interval) && 0.0 < interval && 0 < |segs|
    ensures FindSegment(segs, dt) == None <==>
      dt < segs[0].time || segs[|segs| - 1].time <= dt
  {
    if dt < segs[0].time || segs[|segs| - 1].time <= dt {
      if r: nat :| r + 1 < |segs| && InSegment(segs, r, dt) {
        if 0 < r {
          TimesIncrease(segs, interval, 0, r);
        }
        if r + 1 < |segs| - 1 {
          TimesIncrease(segs, interval, r + 1, |segs| - 1);
        }
        assert false;
      }
    } else {
      FoundFrom(segs, interval, 0, dt);
    }
  }

  /** With a zero or negative interval no row's interval holds anything, so
      every query falls back to the last row. */
  lemma NonPositiveIntervalNeverFound(segs: seq<DirSegment>, interval: real, dt: real)
    requires Stepped(segs, interval) && interval <= 0.0
    ensures FindSegment(segs, dt) == None
  {
    if r: nat :| r + 1 < |segs| && InSegment(segs, r, dt) {
      assert false;
    }
  }

  // ---------------------------------------------------------------------------
  // The queries over the precomputed table

  /** With a positive interval, a time in row `k`'s interval of a stepped
      table takes its position and heading from row `k`. */
  lemma QueryInStepped(m: Math, velocityMs: real, segs: seq<DirSegment>, interval: real, k: nat, dt: real)
    requires Stepped(segs, interval) && 0.0 < interval && k + 1 < |segs|
    requires InSegment(segs, k, dt)
    ensures PositionAt(m, velocityMs, segs, dt) == SegmentPosition(m, velocityMs, segs[k], dt - segs[k].time)
    ensures HeadingAt(segs, dt) == Mod360(segs[k].direction)
  {
    FoundIff(segs, interval, k, dt);
  }

  /** With a positive interval, a time from the last row's on takes its heading
      from the last row. */
  lemma HeadingBeyondStepped(segs: seq<DirSegment>, interval: real, dt: real)
    requires Stepped(segs, interval) && 0.0 < interval && 0 < |segs|
    requires segs[|segs| - 1].time <= dt
    ensures HeadingAt(segs, dt) == Mod360(segs[|segs| - 1].direction)
  {
    NotFoundIff(segs, interval, dt);
  }

  /** With a positive interval, a time in row `k`'s interval takes its
      position and heading from row `k`. */
  lemma QueryInSegment(m: Math, velocityMs: real, interval: real, first: DirSegment, n: nat, k: nat, dt: real)
    requires 0.0 < interval && k < n
    requires var t := SegmentTable(m, velocityMs, interval, first, n);
      t[k].time <= dt < t[k + 1].time
    ensures var t := SegmentTable(m, velocityMs, interval, first, n);
      && PositionAt(m, velocityMs, t, dt) == SegmentPosition(m, velocityMs, t[k], dt - t[k].time)
      && HeadingAt(t, dt) == Mod360(t[k].direction)
  {
    var t := SegmentTable(m, velocityMs, interval, first, n);
    TableStepped(m, velocityMs, interval, first, n);
    QueryInStepped(m, velocityMs, t, interval, k, dt);
  }

  /** The same in terms of the interval: row `k` covers `[t0 + k*I, t0 + (k+1)*I)`. */
  lemma QueryInSegmentTimes(m: Math, velocityMs: real, interval: real, first: DirSegment, n: nat, k: nat, dt: real)
    requires 0.0 < interval && k < n
    requires first.time + (k as real) * interval <= dt < first.time + ((k + 1) as real) * interval
    ensures var t := SegmentTable(m, velocityMs, interval, first, n);
      && PositionAt(m, velocityMs, t, dt) == SegmentPosition(m, velocityMs, t[k], dt - t[k].time)
      && HeadingAt(t, dt) == Mod360(t[k].direction)
  {
    var t := SegmentTable(m, velocityMs, interval, first, n);
    TableStepped(m, velocityMs, interval, first, n);
    QueryInSteppedTimes(m, velocityMs, t, interval, k, dt);
  }

  lemma QueryInSteppedTimes(m: Math, velocityMs: real, segs: seq<DirSegment>, interval: real, k: nat, dt: real)
    requires Stepped(segs, interval) && 0.0 < interval && k + 1 < |segs|
    requires segs[0].time + (k as real) * interval <= dt < segs[0].time + ((k + 1) as real) * interval
    ensures PositionAt(m, velocityMs, segs, dt) == SegmentPosition(m, velocityMs, segs[k], dt - segs[k].time)
    ensures HeadingAt(segs, dt) == Mod360(segs[k].direction)
  {
    SteppedTime(segs, interval, k);
    SteppedTime(segs, interval, k + 1);
    InSegmentBetween(segs, k, dt, segs[0].time + (k as real) * interval, segs[0].time + ((k + 1) as real) * interval);
    QueryInStepped(m, velocityMs, segs, interval, k, dt);
  }

  lemma InSegmentBetween(segs: seq<DirSegment>, k: nat, dt: real, lo: real, hi: real)
    requires k + 1 < |segs| && segs[k].time == lo && segs[k + 1].time == hi
    requires lo <= dt < hi
    ensures InSegment(segs, k, dt)
  {
  }

  /** Before the start, from the last boundary `t0 + n*I` on, or at any time
      when the interval is not positive, position and heading extrapolate from
      the last row, with no further turns. */
  lemma QueryBeyondTable(m: Math, velocityMs: real, interval: real, first: DirSegment, n: nat, dt: real)
    requires interval <= 0.0 || dt < first.time || first.time + (n as real) * interval <= dt
    ensures var t := SegmentTable(m, velocityMs, interval, first, n);
      && PositionAt(m, velocityMs, t, dt) == SegmentPosition(m, velocityMs, t[n], dt - t[n].time)
      && HeadingAt(t, dt) == Mod360(t[n].direction)
  {
    var t := SegmentTable(m, velocityMs, interval, first, n);
    TableStepped(m, velocityMs, interval, first, n);
    if interval <= 0.0 {
      NonPositiveIntervalNeverFound(t, interval, dt);
    } else {
      TableTime(m, velocityMs, interval, first, n, n);
      NotFoundIff(t, interval, dt);
    }
  }

  /** With a positive interval, no other time falls back to the last row. */
  lemma FallbackOnlyBeyondTable(m: Math, velocityMs: real, interval: real, first: DirSegment, n: nat, dt: real)
    requires 0.0 < interval
    ensures FindSegment(SegmentTable(m, velocityMs, interval, first, n), dt) == None
      <==> dt < first.time || first.time + (n as real) * interval <= dt
  {
    var t := SegmentTable(m, velocityMs, interval, first, n);
    TableStepped(m, velocityMs, interval, first, n);
    TableTime(m, velocityMs, interval, first, n, n);
    NotFoundIff(t, interval, dt);
  }

  /** At the start time the aircraft is at the first row's position. */
  lemma QueryAtStart(m: Math, velocityMs: real, interval: real, first: DirSegment, n: nat)
    requires Laws(m)
    requires 0.0 < interval && 0 < n
    ensures PositionAt(m, velocityMs, SegmentTable(m, velocityMs, interval, first, n), first.time) == Start(first)
  {
    var t := SegmentTable(m, velocityMs, interval, first, n);
    TableBoundary(m, velocityMs, interval, first, n, 0);
    TableStepped(m, velocityMs, interval, first, n);
    QueryInStepped(m, velocityMs, t, interval, 0, first.time);
    assert first.time - t[0].time == 0.0;
    DisplaceStill(m, Start(first), velocityMs, 0.0, first.direction);
  }

  /** The heading reported at each precomputed boundary is a quarter turn
      clockwise from the heading reported at the boundary before it. */
  lemma HeadingTurnsAtBoundary(m: Math, velocityMs: real, interval: real, first: DirSegment, n: nat, k: nat)
    requires 0.0 < interval && k < n
    ensures var t := SegmentTable(m, velocityMs, interval, first, n);
      HeadingAt(t, t[k + 1].time) == Mod360(HeadingAt(t, t[k].time) + 90.0)
  {
    var t := SegmentTable(m, velocityMs, interval, first, n);
    TableBoundary(m, velocityMs, interval, first, n, k);
    TableDirections(m, velocityMs, interval, first, n, k + 1);
    TableStepped(m, velocityMs, interval, first, n);
    HeadingTurnsInStepped(t, interval, k);
  }

  lemma HeadingTurnsInStepped(segs: seq<DirSegment>, interval: real, k: nat)
    requires Stepped(segs, interval) && 0.0 < interval && k + 1 < |segs|
    requires segs[k + 1].direction == Mod360(segs[k].direction + 90.0)
    ensures HeadingAt(segs, segs[k + 1].time) == Mod360(HeadingAt(segs, segs[k].time) + 90.0)
  {
    FoundIff(segs, interval, k, segs[k].time);
    if k + 2 < |segs| {
      FoundIff(segs, interval, k + 1, segs[k + 1].time);
    } else {
      HeadingBeyondStepped(segs, interval, segs[k + 1].time);
    }
    Mod360OfReduced(segs[k + 1].direction);
    Mod360Absorbs(segs[k].direction, 90.0);
  }

  // ---------------------------------------------------------------------------
  // The pattern object

  /** The default time between direction changes, in seconds. */
  const DefaultChangeInterval: real := 5.0

  class InstantDirectionChangeMotion {
    const math: Math
    const startLat: real
    const startLon: real
    const velocityKnots: real
    const velocityMs: real
    /** The initial direction as given, in degrees (not reduced). */
    const initialDirection: real
    const changeInterval: real
    const startTime: real
    var segmentPositions: seq<DirSegment>

    /** The row the precomputation starts from: time 0 at the start point. */
    function FirstSegment(): DirSegment {
      DirSegment(0.0, startLat, startLon, initialDirection)
    }

    /** The precomputed table, as the constructor leaves it. */
    ghost predicate Valid()
      reads this
    {
      segmentPositions == SegmentTable(math, velocityMs, changeInterval, FirstSegment(), Changes)
    }

    /** Without an interval argument the heading turns every five seconds. */
    constructor (math: Math, startLat: real, startLon: real, velocityKnots: real,
                 initialDirectionDeg: real, changeIntervalSec: real := DefaultChangeInterval,
                 startTime: real)
      ensures this.math == math && this.startLat == startLat && this.startLon == startLon
      ensures this.velocityKnots == velocityKnots && this.velocityMs == velocityKnots * MsPerKnot
      ensures this.initialDirection == initialDirectionDeg && this.changeInterval == changeIntervalSec
      ensures this.startTime == startTime
      ensures Valid()
    {
      this.math := math;
      this.startLat := startLat;
      this.startLon := startLon;
      this.velocityKnots := velocityKnots;
      this.velocityMs := velocityKnots * MsPerKnot;
      this.initialDirection := initialDirectionDeg;
      this.changeInterval := changeIntervalSec;
      this.startTime := startTime;
      this.segmentPositions := [];
      new;
      ComputeSegments();
    }

    /** Appends the start row and one row per direction change. */
    method ComputeSegments()
      modifies this
      ensures segmentPositions
        == old(segmentPositions) + SegmentTable(math, velocityMs, changeInterval, FirstSegment(), Changes)
    {
      var currentLat, currentLon := startLat, startLon;
      var currentDir := initialDirection;
      var currentTime := 0.0;
      segmentPositions := segmentPositions + [DirSegment(currentTime, currentLat, currentLon, currentDir)];
      for i := 0 to Changes
        invariant DirSegment(currentTime, currentLat, currentLon, currentDir)
          == SegmentTable(math, velocityMs, changeInterval, FirstSegment(), i)[i]
        invariant segmentPositions
          == old(segmentPositions) + SegmentTable(math, velocityMs, changeInterval, FirstSegment(), i)
      {
        TableGrows(math, velocityMs, changeInterval, FirstSegment(), i);
        currentTime := currentTime + changeInterval;
        var dt := changeInterval;
        var p := Displace(math, Position(currentLat, currentLon), velocityMs, dt, currentDir);
        currentLat, currentLon := p.lat, p.lon;
        currentDir := Turn(currentDir);
        segmentPositions := segmentPositions + [DirSegment(currentTime, currentLat, currentLon, currentDir)];
      }
    }

    method GetPosition(currentTime: real) returns (p: Position)
      requires Valid()
      ensures p == PositionAt(math, velocityMs, segmentPositions, currentTime - startTime)
    {
      var dt := currentTime - startTime;
      for i := 0 to |segmentPositions| - 1
        invariant FindFrom(segmentPositions, dt, i) == FindSegment(segmentPositions, dt)
      {
        var seg := segmentPositions[i];
        var nextSeg := segmentPositions[i + 1];
        if seg.time <= dt < nextSeg.time {
          var timeInSegment := dt - seg.time;
          return Displace(math, Position(seg.lat, seg.lon), velocityMs, timeInSegment, seg.direction);
        }
      }
      var lastSeg := segmentPositions[|segmentPositions| - 1];
      var timeSinceLast := dt - lastSeg.time;
      p := Displace(math, Position(lastSeg.lat, lastSeg.lon), velocityMs, timeSinceLast, lastSeg.direction);
    }

    /** The ground speed never changes. */
    method GetVelocity(currentTime: real) returns (v: real)
      ensures v == velocityKnots
    {
      v := velocityKnots;
    }

    method GetHeading(currentTime: real) returns (h: real)
      requires Valid()
      ensures h == HeadingAt(segmentPositions, currentTime - startTime)
      ensures 0.0 <= h < 360.0
    {
      var dt := currentTime - startTime;
      for i := 0 to |segmentPositions| - 1
        invariant FindFrom(segmentPositions, dt, i) == FindSegment(segmentPositions, dt)
      {
        var seg := segmentPositions[i];
        var nextSeg := segmentPositions[i + 1];
        if seg.time <= dt < nextSeg.time {
          return Mod360(seg.direction);
        }
      }
      h := Mod360(segmentPositions[|segmentPositions| - 1].direction);
    }
  }
}
