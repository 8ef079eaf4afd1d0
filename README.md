# Synthetic ADS-B / radar detection server: motion engine and detection geometry

This project models two parts of a synthetic ADS-B and passive-radar test server.

The first part is its aircraft motion patterns. Each pattern answers a position,
a ground speed in knots and a true heading in [0, 360) for a given time. There
are four patterns:

- **CircularMotion**: flight around a centre at constant angular speed.
- **SupersonicLinearMotion**: a straight line at a Mach number times 343 m/s.
- **InstantDirectionChangeMotion**: constant speed, with the heading turned by
  +90 degrees every change interval. The constructor precomputes 11 segment
  records (time, position, direction).
- **InstantAccelerationMotion**: a fixed heading and a speed profile of
  `(duration, speed)` entries. The constructor precomputes one segment per entry
  (start and end time, start position, speed).

Both piecewise patterns look up the segment whose half-open time interval holds
the elapsed time. When none does, they fall back to the last segment.

The second part is the detection side of the server:

- the bistatic range: the haversine surface distance, with the altitude
  difference added by Pythagoras;
- a synthetic detection of the first aircraft in a list;
- the table of radar configurations keyed by port, built in a loop that stops
  at the first malformed entry;
- the two lookups that fall back to the default port 49158;
- the delay/Doppler/SNR lists the detection handlers build.

## How the model is built

- The floating-point library is a parameter. This covers `sin`, `cos`, `asin`,
  `sqrt`, `atan2`, `radians`, `degrees`, `% (2*pi)`, `round(x, 2)` and the
  longitude scaling `dlon / cos(radians(lat))`. `Numerics.Math` bundles one
  function per call, and `Numerics.Laws` lists the only facts the proofs use:
  - cos 0 = 1, sin 0 = 0, asin 0 = 0, sqrt 0 = 0, and 0 wrapped is 0;
  - sine is odd, and sin² + cos² = 1;
  - the square root of a non-negative number is non-negative, and the square
    root of a square is the absolute value;
  - a zero longitude offset stays zero.
- Coordinates, times and speeds are `real`.
- Python's `x % 360` on floats is the floored remainder `Numerics.Mod360`.
- Directions are kept in degrees. The source stores radians and converts back
  with `degrees` before reducing, so `degrees(radians(d))` is taken to be `d`.
- The two piecewise patterns are classes. Their parameters are `const` fields,
  and their segment list is a `var` field that `ComputeSegments` appends to in
  a loop. The loop is proved against a specification function (`SegmentTable`)
  built one row at a time. The queries are search loops with early return,
  proved equal to the functions `PositionAt`, `HeadingAt` and `VelocityAt`. All
  the properties are lemmas about those functions.
- Circular and supersonic motion are pure in the source, so they are datatypes
  with member functions.
- `MotionPatterns.MotionPattern` is the four-way dispatch.
- The clock (`time.time()`), `uuid.uuid4()` and Python's string `hash` are
  parameters (`now`, `detectionId`, `hash`). The `start_time` defaults that
  read the clock are taken as a given `startTime`.
- The `get_position` of an `InstantAccelerationMotion` with an empty profile
  raises an `IndexError` on `segments[-1]`. The model returns
  `Err(EmptyProfile)` instead, and so does `get_velocity`.
- The radar-table loop raises an error for an entry without a port
  (`MissingPort`, carrying the id or "unknown"). It raises a `KeyError` for an
  entry without an id (`MissingId`).
- A lookup that needs the missing default configuration gives `MissingDefault`.

Points where the code behaves in a way a reader might not expect; the model
follows the code in each:
- The Doppler shift is not derived from the aircraft's own motion. It is the
  circular flight's speed `RADIUS_DEG * 111320 * ANGULAR_SPEED` times
  `cos(theta)`, at the clock-driven angle `theta` (`DopplerBounded`).
- A detection record carries no aircraft hex code.
- The SNR is `15 + hash(hex) % 10` with Python's string `hash`, which is salted
  per process, so the same hex code need not get the same SNR in two runs. The
  model takes the hash as an arbitrary function and proves only the range
  `[15, 25)` (`SyntheticSnr`).
- A direction-change query before the start time finds no row and
  extrapolates from the LAST row, not from the first (`QueryBeyondTable`); the
  same holds for the acceleration pattern (`QueryBeyondProfile`).
- Neither piecewise pattern validates its parameters at construction. An empty
  speed profile is accepted and fails only at the first query
  (`QueryEmptyProfile`). A zero or negative change interval is accepted, and
  then every query falls back to the last row (`NonPositiveIntervalNeverFound`).

The tail of `InstantAccelerationMotion.get_position` is modelled as written. It
extrapolates from the last segment's START position by the time elapsed since
that segment's END. So at the end of the profile the aircraft jumps back to the
last start position (`TailRestartsAtLastStart`).

The two lookups differ, as written:
- The main detection handler consults the default port only on a miss
  (`LookupLazy`).
- The configuration handler and the per-port servers evaluate
  `radar_configs[49158]` before looking up the port (`LookupEager`). They fail
  whenever 49158 is absent, even for a known port (`LookupsDifferIff`).

## Model

| member | source | states |
|---|---|---|
| Numerics.Mod360 | motion_patterns.py:240 | a heading reduced with Python's `% 360` lies in [0, 360) (and `Mod360Turns`, `Mod360OfReduced`, `Mod360Absorbs`: whole turns are absorbed, reduced angles are fixed, reduction commutes with a shift) |
| Kinematics.Displace | motion_patterns.py:183-187 | the dead-reckoning step every pattern uses: latitude moves by the northward distance over 111320 m, longitude by the eastward distance scaled at the new latitude; `DisplaceStill` gives its fixed point |
| Kinematics.DisplaceStill | motion_patterns.py:183-187 | a dead-reckoning step with zero speed or zero time leaves the position unchanged |
| DirectionChange.Turn | motion_patterns.py:189 | the turned direction lies in [0, 360) |
| DirectionChange.SegmentTable | motion_patterns.py:165-196 | the table computed for `n` changes has `n + 1` rows and its first row is the start row |
| DirectionChange.ConstructedTable | motion_patterns.py:165-196 | the constructor's table has exactly 11 rows and row `k` has time `k * change_interval` |
| DirectionChange.TableStep | motion_patterns.py:179-196 | each row after the first is the previous row advanced one interval and turned |
| DirectionChange.TableTime | motion_patterns.py:170-180 | row `k` is `k` intervals after the first row |
| DirectionChange.TableDirections | motion_patterns.py:169-189 | row 0 keeps the raw initial direction; every later row's direction is in [0, 360) |
| DirectionChange.TableBoundary | motion_patterns.py:183-213 | row `k+1` is one interval after row `k`, its direction is row `k`'s plus 90 reduced mod 360, and its position is what the in-segment formula of row `k` gives after a full interval (continuity) |
| DirectionChange.FindFrom | motion_patterns.py:201-205 | the search returns the first row from `from` on whose interval `[time, next time)` holds `dt`, or none if there is none |
| DirectionChange.FoundIff | motion_patterns.py:201-215 | with a positive interval the search returns `k` exactly when row `k`'s interval holds `dt` (at most one row matches) |
| DirectionChange.NotFoundIff | motion_patterns.py:201-217 | with a positive interval the search fails exactly when `dt` is before the first row or at or after the last row |
| DirectionChange.NonPositiveIntervalNeverFound | motion_patterns.py:201-217 | with a non-positive interval no half-open interval holds any time |
| DirectionChange.QueryInSegment | motion_patterns.py:205-215 | a time in row `k`'s interval takes position from row `k`'s start and direction, and heading from row `k`'s direction |
| DirectionChange.QueryInSegmentTimes | motion_patterns.py:205-215 | the same for `k * interval <= dt < (k+1) * interval` after the first row's time |
| DirectionChange.QueryBeyondTable | motion_patterns.py:217-242 | before the start, from 10 intervals on, or with a non-positive interval, position and heading extrapolate from the last row |
| DirectionChange.FallbackOnlyBeyondTable | motion_patterns.py:201-227 | with a positive interval the fallback is taken exactly before the start or from the end of the table on |
| DirectionChange.QueryAtStart | motion_patterns.py:198-215 | at elapsed time 0 the position is the start position |
| DirectionChange.HeadingTurnsAtBoundary | motion_patterns.py:232-242 | the heading reported at row `k+1`'s time is the heading at row `k`'s time plus 90, reduced mod 360 |
| DirectionChange.PositionAt | motion_patterns.py:198-227 | the position a query computes from the table: from the first row whose interval holds the elapsed time, else from the last row; `QueryInSegment`, `QueryBeyondTable`, `QueryAtStart` and `FallbackOnlyBeyondTable` state which row it uses |
| DirectionChange.HeadingAt | motion_patterns.py:232-242 | the heading lies in [0, 360) |
| DirectionChange.InstantDirectionChangeMotion.constructor | motion_patterns.py:142-163 | stores the parameters (the change interval defaulting to 5 seconds), sets the speed in m/s to knots times 0.514444, and leaves the precomputed 11-row table |
| DirectionChange.InstantDirectionChangeMotion.ComputeSegments | motion_patterns.py:165-196 | appends exactly the rows of `SegmentTable` for 10 changes from time 0 at the start point |
| DirectionChange.InstantDirectionChangeMotion.GetPosition | motion_patterns.py:198-227 | the search loop returns `PositionAt` of the table at `current_time - start_time` |
| DirectionChange.InstantDirectionChangeMotion.GetVelocity | motion_patterns.py:229-230 | the speed is always the configured speed in knots |
| DirectionChange.InstantDirectionChangeMotion.GetHeading | motion_patterns.py:232-242 | the search loop returns `HeadingAt` of the table, in [0, 360) |
| Acceleration.SegmentTable | motion_patterns.py:268-291 | one segment per profile entry |
| Acceleration.TableGrows | motion_patterns.py:272-291 | one pass of the loop appends the next entry's segment and moves the accumulators past it |
| Acceleration.TableAt | motion_patterns.py:272-291 | segment `i` is the one entry `i` produces from the accumulators the earlier entries leave |
| Acceleration.CursorTime | motion_patterns.py:291 | the running time is the start time plus the sum of the durations so far |
| Acceleration.TableEntry | motion_patterns.py:272-282 | segment `i` starts at the sum of the earlier durations, ends its own duration later, carries entry `i`'s speed in knots and knots times 0.514444 in m/s; segment 0 starts at the start point |
| Acceleration.TableContiguous | motion_patterns.py:282-291 | segment `i+1` starts when segment `i` ends, at segment `i`'s start advanced by its speed for its duration along the fixed direction |
| Acceleration.TableEnd | motion_patterns.py:291 | the last segment ends when the whole profile has elapsed |
| Acceleration.TableChained | motion_patterns.py:272-291 | with no negative durations the segments are contiguous and none runs backwards |
| Acceleration.ChainOrdered | motion_patterns.py:272-291 | in such a chain a later segment starts no earlier than an earlier one ends |
| Acceleration.PositionAt | motion_patterns.py:293-317 | the position a query computes from the segments, with an error for an empty table; `QueryInSegment`, `QueryBeyondProfile`, `TailRestartsAtLastStart` and `QueryEmptyProfile` state which segment it uses |
| Acceleration.VelocityAt | motion_patterns.py:319-326 | the speed a query reports, with an error for an empty table; `QueryInSegment`, `QueryBeyondProfile` and `StationaryHold` state it |
| Acceleration.FindFrom | motion_patterns.py:296-297 | the search returns the first segment from `from` on whose `[start, end)` holds `dt`, or none |
| Acceleration.FoundIff | motion_patterns.py:295-305 | in a chain the search returns segment `k` exactly when `k`'s interval holds `dt` (intervals do not overlap) |
| Acceleration.NotFoundIff | motion_patterns.py:295-308 | in a non-empty chain the search fails exactly before the first start or from the last end on |
| Acceleration.QueryInSegment | motion_patterns.py:293-323 | a time in segment `i`'s interval takes position from segment `i`'s start and speed, and velocity `speed_knots` of entry `i` |
| Acceleration.QueryBeyondProfile | motion_patterns.py:308-326 | before the start or once the profile has elapsed, the last segment's speed is used and the position extrapolates from its start by the time since its end |
| Acceleration.FallbackOnlyBeyondProfile | motion_patterns.py:295-308 | only those times fall back to the last segment |
| Acceleration.QueryEmptyProfile | motion_patterns.py:308-326 | with an empty profile the table is empty and every position and velocity query fails |
| Acceleration.StationaryHold | motion_patterns.py:286-305 | a zero-speed segment holds its start position over its whole interval, and the next segment starts at that same position |
| Acceleration.TailRestartsAtLastStart | motion_patterns.py:308-317 | at the very end of the profile the reported position is the last segment's start position |
| Acceleration.InstantAccelerationMotion.constructor | motion_patterns.py:248-266 | stores the parameters and leaves the precomputed table |
| Acceleration.InstantAccelerationMotion.ComputeSegments | motion_patterns.py:268-291 | appends exactly the segments of `SegmentTable` for the profile from time 0 at the start point |
| Acceleration.InstantAccelerationMotion.GetPosition | motion_patterns.py:293-317 | the search loop returns `PositionAt` of the table, an error for an empty table |
| Acceleration.InstantAccelerationMotion.GetVelocity | motion_patterns.py:319-326 | the search loop returns `VelocityAt` of the table, an error for an empty table |
| Acceleration.InstantAccelerationMotion.GetHeading | motion_patterns.py:328-329 | the heading is the fixed direction reduced into [0, 360), at every time |
| Circular.CircularMotion.PositionAt | motion_patterns.py:66-70 | the point at the wrapped angle on the circle; `StartPosition`, `OnCircle` and `StillCircle` state where it lies |
| Circular.CircularMotion.VelocityAt | motion_patterns.py:72-83 | the length of the rate vector in knots; `SpeedNonNegative`, `SpeedAtStart` and `StillCircle` state its value |
| Circular.CircularMotion.HeadingAt | motion_patterns.py:85-96 | the heading lies in [0, 360) |
| Circular.StartPosition | motion_patterns.py:66-70 | at time 0 (angle 0) the position is `(center_lat + radius_deg, center_lon)` |
| Circular.OnCircle | motion_patterns.py:66-70 | the position is always at distance `radius_deg` from the centre (in degree coordinates) |
| Circular.SpeedNonNegative | motion_patterns.py:72-83 | the ground speed is never negative |
| Circular.SpeedAtStart | motion_patterns.py:72-83 | at angle 0 the northward rate is 0, the eastward rate is `radius_deg * angular_speed * 111320 * cos(radians(center_lat + radius_deg))` m/s, and the speed is its magnitude converted to knots |
| Circular.StillCircle | motion_patterns.py:66-83 | with zero angular speed or zero radius the position is the same at all times and the speed is 0 |
| Supersonic.SupersonicLinearMotion.PositionAt | motion_patterns.py:121-130 | one dead-reckoning step from the start point for the elapsed time; `StartPosition` states its value at the start |
| Supersonic.SupersonicLinearMotion.VelocityAt | motion_patterns.py:132-133 | `mach * 343 * 1.94384` knots at every time; `ConstantSpeedAndHeading` and `SupersonicIff` state it |
| Supersonic.SupersonicLinearMotion.HeadingAt | motion_patterns.py:135-136 | the heading lies in [0, 360) |
| Supersonic.StartPosition | motion_patterns.py:121-130 | at the start time the position is exactly the start point |
| Supersonic.ConstantSpeedAndHeading | motion_patterns.py:119-136 | speed and heading do not depend on the time; the speed is `mach * 343.0 * 1.94384` knots, and an already reduced direction is its own heading |
| Supersonic.SupersonicIff | motion_patterns.py:119-133 | the reported speed exceeds the speed of sound (in knots) exactly when the Mach number exceeds 1 |
| MotionPatterns.MotionPattern.GetPosition | motion_patterns.py:18-26 | dispatches to the variant's position; only the speed-profile pattern with an empty table fails |
| MotionPatterns.MotionPattern.GetVelocity | motion_patterns.py:28-36 | dispatches to the variant's ground speed; only the speed-profile pattern with an empty table fails |
| MotionPatterns.MotionPattern.GetHeading | motion_patterns.py:38-46 | dispatches to the variant's heading, which lies in [0, 360) for every pattern |
| Bistatic.Distance | server.py:105-118 | haversine surface distance combined with the altitude difference by Pythagoras; `DistanceNonNegative`, `DistanceVertical`, `DistanceToSelf` and `DistanceSymmetric` state its properties |
| Bistatic.BistaticRange | server.py:102-123 | transmitter-to-aircraft plus aircraft-to-receiver distance; `BistaticRangeNonNegative`, `MonostaticRange` and `BistaticRangeSwap` state its properties |
| Bistatic.DistanceNonNegative | server.py:105-118 | a distance is never negative |
| Bistatic.BistaticRangeNonNegative | server.py:102-123 | a bistatic range is never negative |
| Bistatic.SurfaceDistanceSameSpot | server.py:107-112 | points with the same latitude and longitude have surface distance 0 |
| Bistatic.DistanceVertical | server.py:105-118 | between points with the same latitude and longitude the distance is `abs(alt2 - alt1)` |
| Bistatic.DistanceToSelf | server.py:105-118 | the distance from a point to itself is 0 |
| Bistatic.HaversineSymmetric | server.py:110-111 | the haversine term does not depend on the order of the two points |
| Bistatic.DistanceSymmetric | server.py:105-118 | the distance is symmetric in its endpoints |
| Bistatic.MonostaticRange | server.py:102-123 | with the receiver at the transmitter the bistatic range is twice the transmitter-to-aircraft distance |
| Bistatic.BistaticRangeSwap | server.py:102-123 | swapping transmitter and receiver leaves the bistatic range unchanged |
| RadarTable.Table | server.py:89-100 | the table the construction loop builds, or the first error; `TableOkIff`, `FirstErrorReported`, `TableKeys`, `LastEntryWins` and `ErrorPersists` characterise it |
| RadarTable.BuildRadarConfigs | server.py:89-100 | the construction loop returns the table `Table` gives, or its error |
| RadarTable.ErrorPersists | server.py:90-92 | once construction has failed, later entries do not change the error |
| RadarTable.TableOkIff | server.py:89-100 | construction succeeds exactly when every entry has a port and an id |
| RadarTable.FirstErrorReported | server.py:90-93 | a failed construction reports the first incomplete entry: a missing port with its id or "unknown", else the missing id |
| RadarTable.TableKeys | server.py:93-94 | the table's ports are exactly the entries' ports |
| RadarTable.LastEntryWins | server.py:93-100 | under each port is the last entry with that port: its id, lat, lon, alt, and frequency `FC_MHZ * 1e6` |
| RadarTable.LookupLazy | server.py:207-210 | the main handler's lookup succeeds exactly when the port or the default port 49158 is in the table |
| RadarTable.LookupEager | server.py:246 | the configuration and per-port lookup succeeds exactly when 49158 is in the table |
| RadarTable.LookupsFallBack | server.py:207-210 | whenever a lookup succeeds it returns the port's configuration for a known port and 49158's otherwise |
| RadarTable.LookupsDifferIff | server.py:207-210 | the lazy lookup and the eager one of lines 246, 308 and 344 differ exactly when the port is known and 49158 is not, and then only the lazy one succeeds |
| Detection.DopplerShift | server.py:141-144 | the circular flight's speed times the cosine of the clock-driven angle, doubled, times the frequency over the speed of light; `DopplerBounded` bounds it |
| Detection.SyntheticSnr | server.py:151 | the synthetic SNR lies in [15, 25) |
| Detection.SyntheticDetection | server.py:125-155 | no detection exactly for an empty aircraft list; otherwise the radar id, frequency, timestamp and identifier are copied and the SNR lies in [15, 25) |
| Detection.DetectionMeasures | server.py:130-155 | the range is the rounded bistatic range of the first aircraft with its altitude in feet times 0.3048; the Doppler is the rounded shift at the radar's frequency |
| Detection.OnlyFirstAircraft | server.py:130 | aircraft lists with the same first aircraft give the same detection |
| Detection.DetectionMonostatic | server.py:130-137 | a radar at the transmitter site reports the rounded round-trip distance to the first aircraft |
| Detection.DopplerBounded | server.py:141-144 | the unrounded Doppler shift is at most `abs(RADIUS_DEG * 111320 * ANGULAR_SPEED) * 2 * abs(f) / 299792458` in magnitude |
| Detection.BuildDetectionReport | server.py:216-233 | the delay, Doppler and SNR lists have equal length, 1 for a non-empty aircraft list and 0 otherwise; the delay is the rounded range over the speed of light (main server) or over 1000 (per-port servers), and every SNR is 15.0 |
| Detection.HandleDetection | server.py:306-339 | the request fails exactly when its server's lookup does; otherwise the three lists have length 0 for no aircraft and 1 otherwise, the delay is the looked-up radar's detection range in that server's unit, the Doppler is that detection's, and every SNR is 15.0 |

## Left out

- HTTP transport. This covers Flask routes, JSON response assembly, CORS, `app.run`, the per-port server apps, threads and the `/radar1`-`/radar3` routes that set `SERVER_PORT`.
- Configuration loading: environment and `.env` variables, the required-variable check and the JSON parsing of `RADARS`. The radar list is an input sequence, and the scene constants are a `Scene` value.
- The parsing of `SERVER_PORT` with its fallback to 5001 is left out. The port is an integer input to the lookups.
- Missing `lat`, `lon` or `alt` fields in a radar entry (a `KeyError`) are left out. Only missing `port` and `id` are modelled.
- The `hex`, `lat`, `lon` or `alt_geom` fields missing from an aircraft record are left out.
- The configuration handlers (lines 238-272 and 342-371) are modelled only through their lookup, `LookupEager`. The JSON they return is not modelled.
- `serve_synthetic_adsb` (the single circular-flight aircraft record, with its rounding) is not part of this model. The detection takes the aircraft list as input.
- The `print` range warnings of the per-port handler, and the timestamps in milliseconds, are logging and clock values.
- Floating-point behaviour is left out. Values are exact reals:
  - rounding of the running sums of times and positions;
  - the concrete values of the library functions;
  - Python's float `%` at its edge cases.
- `degrees(radians(d)) == d` is assumed, as described above. Headings are `Mod360(d)` rather than `degrees(radians(d)) % 360`.
- The clock, uuid and string-hash sources are parameters; nothing about their values is modelled.
- Aircraft managers, transponder filtering and randomised anomaly generation do not appear in the modelled files.
- Acceleration.QueryInSegment: proved only for profiles without negative durations. The functions themselves follow the first-match search for any durations.
- DirectionChange.FoundIff: proved only for a positive change interval. `NonPositiveIntervalNeverFound` covers the rest.
