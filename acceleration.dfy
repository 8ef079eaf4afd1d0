/** `InstantAccelerationMotion`: a fixed heading and a speed that changes
    instantly, following a profile of `(duration, speed)` entries (speed 0 is a
    stationary hold). The constructor precomputes one segment per entry, with its
    start and end time and its start position; a query finds the segment whose
    half-open interval `[start, end)` holds the elapsed time, and otherwise falls
    back to the last segment. */
module Acceleration {
  import opened Numerics
  import opened Kinematics
  import opened Outcomes

  /** One `(duration_sec, speed_knots)` entry of the speed profile. */
  datatype ProfileEntry = ProfileEntry(durationSec: real, speedKnots: real)

  /** A row of the precomputed table; times are seconds after the pattern's
      start time. */
  datatype AccelSegment = AccelSegment(
    startTime: real, endTime: real,
    startLat: real, startLon: real,
    speedKnots: real, speedMs: real)

  /** The precomputation loop's accumulators: the running time and position. */
  datatype Cursor = Cursor(time: real, pos: Position)

  /** A query that reaches for the last segment of an empty table (Python's
      `IndexError` on `segments[-1]`). */
  datatype MotionError = EmptyProfile

  function Start(s: AccelSegment): Position {
    Position(s.startLat, s.startLon)
  }

  /** The segment an entry produces when the loop's accumulators stand at `c`. */
  function SegmentFor(c: Cursor, e: ProfileEntry): AccelSegment {
    AccelSegment(c.time, c.time + e.durationSec, c.pos.lat, c.pos.lon, e.speedKnots, e.speedKnots * MsPerKnot)
  }

  /** The accumulators after one entry: moved for its duration at its speed. */
  function Advance(m: Math, directionDeg: real, c: Cursor, e: ProfileEntry): Cursor {
    Cursor(c.time + e.durationSec, Displace(m, c.pos, e.speedKnots * MsPerKnot, e.durationSec, directionDeg))
  }

  /** The accumulators after the whole of `profile`. */
  function CursorAfter(m: Math, directionDeg: real, origin: Cursor, profile: seq<ProfileEntry>): Cursor
    decreases |profile|
  {
    if profile == [] then origin
    else Advance(m, directionDeg, CursorAfter(m, directionDeg, origin, profile[..|profile| - 1]), profile[|profile| - 1])
  }

  /** The segments the loop produces for `profile`. */
  function SegmentTable(m: Math, directionDeg: real, origin: Cursor, profile: seq<ProfileEntry>): (t: seq<AccelSegment>)
    ensures |t| == |profile|
    decreases |profile|
  {
    if profile == [] then []
    else
      var init := profile[..|profile| - 1];
      SegmentTable(m, directionDeg, origin, init) + [SegmentFor(CursorAfter(m, directionDeg, origin, init), profile[|profile| - 1])]
  }

  function TotalDuration(profile: seq<ProfileEntry>): real
    decreases |profile|
  {
    if profile == [] then 0.0
    else TotalDuration(profile[..|profile| - 1]) + profile[|profile| - 1].durationSec
  }

  /** Segment `s` holds elapsed time `dt` in its half-open interval. */
  predicate Covers(s: AccelSegment, dt: real) {
    s.startTime <= dt < s.endTime
  }

  /** The search loop of the queries, from segment `from` on. */
  function FindFrom(segs: seq<AccelSegment>, dt: real, from: nat): (r: Option<nat>)
    decreases |segs| - from
    ensures r.Some? ==> from <= r.value < |segs| && Covers(segs[r.value], dt)
    ensures r.Some? ==> forall j :: from <= j < r.value ==> !Covers(segs[j], dt)
    ensures r.None? ==> forall j :: from <= j < |segs| ==> !Covers(segs[j], dt)
  {
    if |segs| <= from then None
    else if Covers(segs[from], dt) then Some(from)
    else FindFrom(segs, dt, from + 1)
  }

  function FindSegment(segs: seq<AccelSegment>, dt: real): Option<nat> {
    FindFrom(segs, dt, 0)
  }

  /** Where segment `s` has brought the aircraft after `elapsed` seconds of its
      speed, measured from its start position. */
  function SegmentPosition(m: Math, directionDeg: real, s: AccelSegment, elapsed: real): Position {
    Displace(m, Start(s), s.speedMs, elapsed, directionDeg)
  }

  /** `get_position` at elapsed time `dt`. The tail extrapolates from the last
      segment's START position by the time since its END, as the source does. */
  function PositionAt(m: Math, directionDeg: real, segs: seq<AccelSegment>, dt: real): Result<Position, MotionError> {
    match FindSegment(segs, dt)
    case Some(k) => Ok(SegmentPosition(m, directionDeg, segs[k], dt - segs[k].startTime))
    case None =>
      if segs == [] then Err(EmptyProfile)
      else
        var last := segs[|segs| - 1];
        Ok(SegmentPosition(m, directionDeg, last, dt - last.endTime))
  }

  /** `get_velocity` at elapsed time `dt`, in knots. */
  function VelocityAt(segs: seq<AccelSegment>, dt: real): Result<real, MotionError> {
    match FindSegment(segs, dt)
    case Some(k) => Ok(segs[k].speedKnots)
    case None => if segs == [] then Err(EmptyProfile) else Ok(segs[|segs| - 1].speedKnots)
  }

  // ---------------------------------------------------------------------------
  // The shape of the precomputed table

  /** One more pass of the loop appends the segment of the next entry and moves
      the accumulators past it. */
  lemma TableGrows(m: Math, directionDeg: real, origin: Cursor, profile: seq<ProfileEntry>, i: nat)
    requires i < |profile|
    ensures var c := CursorAfter(m, directionDeg, origin, profile[..i]);
      && CursorAfter(m, directionDeg, origin, profile[..i + 1]) == Advance(m, directionDeg, c, profile[i])
      && SegmentTable(m, directionDeg, origin, profile[..i + 1])
         == SegmentTable(m, directionDeg, origin, profile[..i]) + [SegmentFor(c, profile[i])]
  {
    assert profile[..i + 1][..i] == profile[..i];
  }

  /** Segment `i` is the one entry `i` produces from the accumulators left by
      the entries before it. */
  lemma {:induction false} TableAt(m: Math, directionDeg: real, origin: Cursor, profile: seq<ProfileEntry>, i: nat)
    requires i < |profile|
    ensures SegmentTable(m, directionDeg, origin, profile)[i]
      == SegmentFor(CursorAfter(m, directionDeg, origin, profile[..i]), profile[i])
    decreases |profile|
  {
    var init := profile[..|profile| - 1];
    if i < |init| {
      TableAt(m, directionDeg, origin, init, i);
      assert init[..i] == profile[..i];
    }
  }

  lemma {:induction false} CursorTime(m: Math, directionDeg: real, origin: Cursor, profile: seq<ProfileEntry>)
    ensures CursorAfter(m, directionDeg, origin, profile).time == origin.time + TotalDuration(profile)
    decreases |profile|
  {
    if profile != [] {
      CursorTime(m, directionDeg, origin, profile[..|profile| - 1]);
    }
  }

  /** One segment per entry, in order: segment `i` carries entry `i`'s speed,
      lasts entry `i`'s duration, and starts at the sum of the durations before
      it; the first starts at the origin. */
  lemma TableEntry(m: Math, directionDeg: real, origin: Cursor, profile: seq<ProfileEntry>, i: nat)
    requires i < |profile|
    ensures var t := SegmentTable(m, directionDeg, origin, profile);
      && t[i].startTime == origin.time + TotalDuration(profile[..i])
      && t[i].endTime == t[i].startTime + profile[i].durationSec
      && t[i].speedKnots == profile[i].speedKnots
      && t[i].speedMs == profile[i].speedKnots * MsPerKnot
      && (i == 0 ==> Start(t[i]) == origin.pos)
  {
    TableAt(m, directionDeg, origin, profile, i);
    CursorTime(m, directionDeg, origin, profile[..i]);
    if i == 0 {
      assert profile[..0] == [];
    }
  }

  /** Consecutive segments are contiguous in time, and each starts where the
      previous one's speed, held for its duration, left the aircraft. */
  lemma TableContiguous(m: Math, directionDeg: real, origin: Cursor, profile: seq<ProfileEntry>, i: nat)
    requires i + 1 < |profile|
    ensures var t := SegmentTable(m, directionDeg, origin, profile);
      && t[i + 1].startTime == t[i].endTime
      && Start(t[i + 1]) == SegmentPosition(m, directionDeg, t[i], profile[i].durationSec)
  {
    TableAt(m, directionDeg, origin, profile, i);
    TableAt(m, directionDeg, origin, profile, i + 1);
    TableGrows(m, directionDeg, origin, profile, i);
  }

  /** The last segment ends when the whole profile has elapsed. */
  lemma TableEnd(m: Math, directionDeg: real, origin: Cursor, profile: seq<ProfileEntry>)
    requires 0 < |profile|
    ensures SegmentTable(m, directionDeg, origin, profile)[|profile| - 1].endTime
      == origin.time + TotalDuration(profile)
  {
    var n := |profile| - 1;
    TableEntry(m, directionDeg, origin, profile, n);
    assert profile[..n] == profile[..|profile| - 1];
  }

  // ---------------------------------------------------------------------------
  // The time partition

  /** Segments that follow each other without gaps and never run backwards. */
  ghost predicate Chained(segs: seq<AccelSegment>) {
    && (forall k :: 0 <= k < |segs| ==> segs[k].startTime <= segs[k].endTime)
    && (forall k :: 0 < k < |segs| ==> segs[k].startTime == segs[k - 1].endTime)
  }

  ghost predicate NonNegativeDurations(profile: seq<ProfileEntry>) {
    forall i :: 0 <= i < |profile| ==> 0.0 <= profile[i].durationSec
  }

  lemma TableChained(m: Math, directionDeg: real, origin: Cursor, profile: seq<ProfileEntry>)
    requires NonNegativeDurations(profile)
    ensures Chained(SegmentTable(m, directionDeg, origin, profile))
  {
    var t := SegmentTable(m, directionDeg, origin, profile);
    forall k | 0 <= k < |t|
      ensures t[k].startTime <= t[k].endTime
    {
      TableEntry(m, directionDeg, origin, profile, k);
    }
    forall k | 0 < k < |t|
      ensures t[k].startTime == t[k - 1].endTime
    {
      TableContiguous(m, directionDeg, origin, profile, k - 1);
    }
  }

  /** In a chain, a later segment starts no earlier than an earlier one ends. */
  lemma {:induction false} ChainOrdered(segs: seq<AccelSegment>, j: nat, k: nat)
    requires Chained(segs) && j < k < |segs|
    ensures segs[j].endTime <= segs[k].startTime
  {
    if j + 1 < k {
      ChainOrdered(segs, j, k - 1);
    }
  }

  /** In a chain the search finds segment `k` exactly when segment `k` holds
      `dt`: the intervals do not overlap. */
  lemma FoundIff(segs: seq<AccelSegment>, k: nat, dt: real)
    requires Chained(segs) && k < |segs|
    ensures FindSegment(segs, dt) == Some(k) <==> Covers(segs[k], dt)
  {
    if Covers(segs[k], dt) {
      var r := FindSegment(segs, dt);
      assert r.Some?;
      if r.value < k {
        ChainOrdered(segs, r.value, k);
        assert false;
      }
    }
  }

  lemma {:induction false} FoundFrom(segs: seq<AccelSegment>, from: nat, dt: real)
    requires Chained(segs) && from < |segs|
    requires segs[from].startTime <= dt < segs[|segs| - 1].endTime
    ensures FindFrom(segs, dt, from).Some?
    decreases |segs| - from
  {
    if !Covers(segs[from], dt) {
      FoundFrom(segs, from + 1, dt);
    }
  }

  /** In a non-empty chain the search fails exactly before the first start or
      from the last end on. */
  lemma NotFoundIff(segs: seq<AccelSegment>, dt: real)
    requires Chained(segs) && 0 < |segs|
    ensures FindSegment(segs, dt) == None <==>
      dt < segs[0].startTime || segs[|segs| - 1].endTime <= dt
  {
    var n := |segs| - 1;
    if dt < segs[0].startTime || segs[n].endTime <= dt {
      if r: nat :| r < |segs| && Covers(segs[r], dt) {
        if 0 < r {
          ChainOrdered(segs, 0, r);
        }
        if r < n {
          ChainOrdered(segs, r, n);
        }
        assert false;
      }
    } else {
      FoundFrom(segs, 0, dt);
    }
  }

  // ---------------------------------------------------------------------------
  // The queries over the precomputed table

  /** With no negative durations, a time in segment `i`'s interval takes its
      position and speed from segment `i`. */
  lemma QueryInSegment(m: Math, directionDeg: real, origin: Cursor, profile: seq<ProfileEntry>, i: nat, dt: real)
    requires NonNegativeDurations(profile) && i < |profile|
    requires Covers(SegmentTable(m, directionDeg, origin, profile)[i], dt)
    ensures var t := SegmentTable(m, directionDeg, origin, profile);
      && PositionAt(m, directionDeg, t, dt) == Ok(SegmentPosition(m, directionDeg, t[i], dt - t[i].startTime))
      && VelocityAt(t, dt) == Ok(profile[i].speedKnots)
  {
    var t := SegmentTable(m, directionDeg, origin, profile);
    TableChained(m, directionDeg, origin, profile);
    FoundIff(t, i, dt);
    TableEntry(m, directionDeg, origin, profile, i);
  }

  /** With no negative durations, before the start or once the whole profile
      has elapsed, the last segment's speed is used, extrapolating from its start
      position by the time since its end. */
  lemma QueryBeyondProfile(m: Math, directionDeg: real, origin: Cursor, profile: seq<ProfileEntry>, dt: real)
    requires NonNegativeDurations(profile) && 0 < |profile|
    requires dt < origin.time || origin.time + TotalDuration(profile) <= dt
    ensures var t := SegmentTable(m, directionDeg, origin, profile);
      var last := t[|t| - 1];
      && PositionAt(m, directionDeg, t, dt) == Ok(SegmentPosition(m, directionDeg, last, dt - last.endTime))
      && VelocityAt(t, dt) == Ok(profile[|profile| - 1].speedKnots)
  {
    var t := SegmentTable(m, directionDeg, origin, profile);
    TableChained(m, directionDeg, origin, profile);
    TableEntry(m, directionDeg, origin, profile, 0);
    TableEntry(m, directionDeg, origin, profile, |profile| - 1);
    TableEnd(m, directionDeg, origin, profile);
    assert profile[..0] == [];
    NotFoundIff(t, dt);
  }

  /** With no negative durations, only those times fall back to the last
      segment. */
  lemma FallbackOnlyBeyondProfile(m: Math, directionDeg: real, origin: Cursor, profile: seq<ProfileEntry>, dt: real)
    requires NonNegativeDurations(profile) && 0 < |profile|
    ensures FindSegment(SegmentTable(m, directionDeg, origin, profile), dt) == None
      <==> dt < origin.time || origin.time + TotalDuration(profile) <= dt
  {
    var t := SegmentTable(m, directionDeg, origin, profile);
    TableChained(m, directionDeg, origin, profile);
    TableEntry(m, directionDeg, origin, profile, 0);
    TableEnd(m, directionDeg, origin, profile);
    assert profile[..0] == [];
    NotFoundIff(t, dt);
  }

  /** An empty profile yields an empty table, and every position or speed query
      on it fails. */
  lemma QueryEmptyProfile(m: Math, directionDeg: real, origin: Cursor, dt: real)
    ensures var t := SegmentTable(m, directionDeg, origin, []);
      && PositionAt(m, directionDeg, t, dt) == Err(EmptyProfile)
      && VelocityAt(t, dt) == Err(EmptyProfile)
  {
  }

  /** A zero-speed entry holds the aircraft at the segment's start position for
      the whole segment, and the next segment starts from that same position. */
  lemma StationaryHold(m: Math, directionDeg: real, origin: Cursor, profile: seq<ProfileEntry>, i: nat, dt: real)
    requires Laws(m)
    requires NonNegativeDurations(profile) && i < |profile| && profile[i].speedKnots == 0.0
    requires Covers(SegmentTable(m, directionDeg, origin, profile)[i], dt)
    ensures var t := SegmentTable(m, directionDeg, origin, profile);
      && PositionAt(m, directionDeg, t, dt) == Ok(Start(t[i]))
      && (i + 1 < |t| ==> Start(t[i + 1]) == Start(t[i]))
  {
    var t := SegmentTable(m, directionDeg, origin, profile);
    QueryInSegment(m, directionDeg, origin, profile, i, dt);
    TableEntry(m, directionDeg, origin, profile, i);
    DisplaceStill(m, Start(t[i]), t[i].speedMs, dt - t[i].startTime, directionDeg);
    if i + 1 < |t| {
      TableContiguous(m, directionDeg, origin, profile, i);
      DisplaceStill(m, Start(t[i]), t[i].speedMs, profile[i].durationSec, directionDeg);
    }
  }

  /** At the very end of the profile the reported position is the last
      segment's START position, not where that segment ended: the tail
      restarts its extrapolation from the start. */
  lemma TailRestartsAtLastStart(m: Math, directionDeg: real, origin: Cursor, profile: seq<ProfileEntry>)
    requires Laws(m)
    requires NonNegativeDurations(profile) && 0 < |profile|
    ensures var t := SegmentTable(m, directionDeg, origin, profile);
      PositionAt(m, directionDeg, t, origin.time + TotalDuration(profile)) == Ok(Start(t[|t| - 1]))
  {
    var t := SegmentTable(m, directionDeg, origin, profile);
    var last := t[|t| - 1];
    QueryBeyondProfile(m, directionDeg, origin, profile, origin.time + TotalDuration(profile));
    TableEnd(m, directionDeg, origin, profile);
    DisplaceStill(m, Start(last), last.speedMs, 0.0, directionDeg);
  }

  // ---------------------------------------------------------------------------
  // The pattern object

  class InstantAccelerationMotion {
    const math: Math
    const startLat: real
    const startLon: real
    const directionDeg: real
    const speedProfile: seq<ProfileEntry>
    const startTime: real
    var segments: seq<AccelSegment>

    /** The accumulators the precomputation starts from: time 0 at the start
        point. */
    function Origin(): Cursor {
      Cursor(0.0, Position(startLat, startLon))
    }

    /** The precomputed table, as the constructor leaves it. */
    ghost predicate Valid()
      reads this
    {
      segments == SegmentTable(math, directionDeg, Origin(), speedProfile)
    }

    constructor (math: Math, startLat: real, startLon: real, directionDeg: real,
                 speedProfile: seq<ProfileEntry>, startTime: real)
      ensures this.math == math && this.startLat == startLat && this.startLon == startLon
      ensures this.directionDeg == directionDeg && this.speedProfile == speedProfile
      ensures this.startTime == startTime
      ensures Valid()
    {
      this.math := math;
      this.startLat := startLat;
      this.startLon := startLon;
      this.directionDeg := directionDeg;
      this.speedProfile := speedProfile;
      this.startTime := startTime;
      this.segments := [];
      new;
      ComputeSegments();
    }

    /** Appends one segment per profile entry. */
    method ComputeSegments()
      modifies this
      ensures segments == old(segments) + SegmentTable(math, directionDeg, Origin(), speedProfile)
    {
      var currentLat, currentLon := startLat, startLon;
      var currentTime := 0.0;
      for i := 0 to |speedProfile|
        invariant Cursor(currentTime, Position(currentLat, currentLon))
          == CursorAfter(math, directionDeg, Origin(), speedProfile[..i])
        invariant segments == old(segments) + SegmentTable(math, directionDeg, Origin(), speedProfile[..i])
      {
        ghost var cursor := Cursor(currentTime, Position(currentLat, currentLon));
        TableGrows(math, directionDeg, Origin(), speedProfile, i);
        var durationSec, speedKnots := speedProfile[i].durationSec, speedProfile[i].speedKnots;
        var speedMs := speedKnots * MsPerKnot;
        var segment := AccelSegment(currentTime, currentTime + durationSec, currentLat, currentLon, speedKnots, speedMs);
        assert segment == SegmentFor(cursor, speedProfile[i]);
        segments := segments + [segment];
        var p := Displace(math, Position(currentLat, currentLon), speedMs, durationSec, directionDeg);
        assert Cursor(currentTime + durationSec, p) == Advance(math, directionDeg, cursor, speedProfile[i]);
        currentLat, currentLon := p.lat, p.lon;
        currentTime := currentTime + durationSec;
      }
      assert speedProfile[..|speedProfile|] == speedProfile;
    }

    method GetPosition(currentTime: real) returns (r: Result<Position, MotionError>)
      requires Valid()
      ensures r == PositionAt(math, directionDeg, segments, currentTime - startTime)
    {
      var dt := currentTime - startTime;
      for i := 0 to |segments|
        invariant FindFrom(segments, dt, i) == FindSegment(segments, dt)
      {
        var seg := segments[i];
        if seg.startTime <= dt < seg.endTime {
          var timeInSegment := dt - seg.startTime;
          return Ok(Displace(math, Position(seg.startLat, seg.startLon), seg.speedMs, timeInSegment, directionDeg));
        }
      }
      if |segments| == 0 {
        return Err(EmptyProfile);
      }
      var lastSeg := segments[|segments| - 1];
      var timeSinceLast := dt - lastSeg.endTime;
      r := Ok(Displace(math, Position(lastSeg.startLat, lastSeg.startLon), lastSeg.speedMs, timeSinceLast, directionDeg));
    }

    method GetVelocity(currentTime: real) returns (r: Result<real, MotionError>)
      requires Valid()
      ensures r == VelocityAt(segments, currentTime - startTime)
    {
      var dt := currentTime - startTime;
      for i := 0 to |segments|
        invariant FindFrom(segments, dt, i) == FindSegment(segments, dt)
      {
        var seg := segments[i];
        if seg.startTime <= dt < seg.endTime {
          return Ok(seg.speedKnots);
        }
      }
      if |segments| == 0 {
        return Err(EmptyProfile);
      }
      r := Ok(segments[|segments| - 1].speedKnots);
    }

    /** The heading never changes, and is reduced into [0, 360). */
    method GetHeading(currentTime: real) returns (h: real)
      ensures h == Mod360(directionDeg)
      ensures 0.0 <= h < 360.0
    {
      h := Mod360(directionDeg);
    }
  }
}
