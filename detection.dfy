/** Synthetic radar detections: one detection of the first aircraft seen by a
    radar (its bistatic range, an approximate Doppler shift, a synthetic SNR and
    the radar's identity), and the delay/Doppler/SNR lists the detection
    handlers assemble from it. */
module Detection {
  import opened Numerics
  import opened Outcomes
  import opened Kinematics
  import opened Bistatic
  import opened RadarTable

  const MetresPerFoot: real := 0.3048
  const SpeedOfLightMs: real := 299792458.0
  /** The SNR the handlers report for every detection. */
  const ReportedSnrDb: real := 15.0

  /** The fields of an aircraft record the detection reads. */
  datatype AircraftState = AircraftState(hex: string, lat: real, lon: real, altGeomFt: real)

  /** The fixed configuration of the simulated scene: the transmitter and the
      circular flight's radius (degrees) and angular speed (radians/second). */
  datatype Scene = Scene(tx: GeoPoint, radiusDeg: real, angularSpeed: real)

  datatype Detection = Detection(
    detectionId: string,
    timestamp: real,
    bistaticRangeM: real,
    dopplerHz: real,
    snrDb: real,
    radarId: string,
    frequencyHz: real)

  /** The aircraft's position, its geometric altitude converted from feet to
      metres. */
  function AircraftPoint(a: AircraftState): GeoPoint {
    GeoPoint(a.lat, a.lon, a.altGeomFt * MetresPerFoot)
  }

  function ReceiverPoint(config: RadarConfig): GeoPoint {
    GeoPoint(config.lat, config.lon, config.alt)
  }

  /** The circular flight's angle at time `now`, wrapped into one turn. */
  function FlightAngle(m: Math, scene: Scene, now: real): real {
    m.wrapAngle(now * scene.angularSpeed)
  }

  /** The circular flight's speed in metres per second. */
  function FlightSpeedMs(scene: Scene): real {
    scene.radiusDeg * MetresPerDegree * scene.angularSpeed
  }

  /** The approximate Doppler shift at time `now`: the circular flight's speed
      times the cosine of its angle, doubled, times the carrier frequency over
      the speed of light. */
  function DopplerShift(m: Math, scene: Scene, now: real, frequency: real): real {
    FlightSpeedMs(scene) * m.cos(FlightAngle(m, scene, now)) * 2.0 * frequency / SpeedOfLightMs
  }

  /** `15 + hash % 10`, with the string hash given as an integer; Python's `%`
      by a positive modulus is never negative. */
  function SyntheticSnr(hashValue: int): (r: real)
    ensures 15.0 <= r < 25.0
  {
    15.0 + (hashValue % 10) as real
  }

  /** `generate_synthetic_detection`: nothing for no aircraft, else a
      detection of the first one. The clock reading, the fresh identifier and
      the string hash are parameters. */
  function SyntheticDetection(m: Math, scene: Scene, aircraft: seq<AircraftState>, config: RadarConfig,
                              now: real, detectionId: string, hash: string -> int): (r: Option<Detection>)
    ensures r.None? <==> aircraft == []
    ensures r.Some? ==> r.value.radarId == config.id && r.value.frequencyHz == config.frequency
    ensures r.Some? ==> r.value.timestamp == now && r.value.detectionId == detectionId
    ensures r.Some? ==> 15.0 <= r.value.snrDb < 25.0
  {
    if aircraft == [] then None
    else
      var a := aircraft[0];
      var range := BistaticRange(m, AircraftPoint(a), scene.tx, ReceiverPoint(config));
      var doppler := DopplerShift(m, scene, now, config.frequency);
      Some(Detection(detectionId, now, m.round2(range), m.round2(doppler), SyntheticSnr(hash(a.hex)),
                     config.id, config.frequency))
  }

  /** A detection's range and Doppler are the rounded bistatic range of the
      first aircraft (altitude in metres) and the rounded Doppler shift at the
      radar's frequency. */
  lemma DetectionMeasures(m: Math, scene: Scene, aircraft: seq<AircraftState>, config: RadarConfig,
                          now: real, detectionId: string, hash: string -> int)
    requires aircraft != []
    ensures var d := SyntheticDetection(m, scene, aircraft, config, now, detectionId, hash).value;
      var a := aircraft[0];
      && d.bistaticRangeM == m.round2(BistaticRange(m, GeoPoint(a.lat, a.lon, a.altGeomFt * 0.3048), scene.tx,
                                                    GeoPoint(config.lat, config.lon, config.alt)))
      && d.dopplerHz == m.round2(DopplerShift(m, scene, now, config.frequency))
  {
  }

  /** Only the first aircraft matters: lists with the same first aircraft
      give the same detection. */
  lemma OnlyFirstAircraft(m: Math, scene: Scene, a1: seq<AircraftState>, a2: seq<AircraftState>,
                          config: RadarConfig, now: real, detectionId: string, hash: string -> int)
    requires a1 != [] && a2 != [] && a1[0] == a2[0]
    ensures SyntheticDetection(m, scene, a1, config, now, detectionId, hash)
         == SyntheticDetection(m, scene, a2, config, now, detectionId, hash)
  {
  }

  /** A radar at the transmitter site measures the round trip to the first
      aircraft. */
  lemma DetectionMonostatic(m: Math, scene: Scene, aircraft: seq<AircraftState>, config: RadarConfig,
                            now: real, detectionId: string, hash: string -> int)
    requires Laws(m) && aircraft != [] && ReceiverPoint(config) == scene.tx
    ensures SyntheticDetection(m, scene, aircraft, config, now, detectionId, hash).value.bistaticRangeM
         == m.round2(2.0 * Distance(m, scene.tx, AircraftPoint(aircraft[0])))
  {
    MonostaticRange(m, AircraftPoint(aircraft[0]), scene.tx);
  }

  /** The unrounded Doppler shift never exceeds the flight speed, doubled,
      times the frequency over the speed of light, in magnitude. */
  lemma DopplerBounded(m: Math, scene: Scene, now: real, frequency: real)
    requires Laws(m)
    ensures Abs(DopplerShift(m, scene, now, frequency))
         <= Abs(FlightSpeedMs(scene)) * 2.0 * Abs(frequency) / SpeedOfLightMs
  {
    Pythagoras(m, FlightAngle(m, scene, now));
    DopplerBoundedAtAngle(m, scene, now, frequency);
  }

  lemma DopplerBoundedAtAngle(m: Math, scene: Scene, now: real, frequency: real)
    requires Sq(m.sin(FlightAngle(m, scene, now))) + Sq(m.cos(FlightAngle(m, scene, now))) == 1.0
    ensures Abs(DopplerShift(m, scene, now, frequency))
         <= Abs(FlightSpeedMs(scene)) * 2.0 * Abs(frequency) / SpeedOfLightMs
  {
    SqNonNegative(m.sin(FlightAngle(m, scene, now)));
    UnitBound(m.cos(FlightAngle(m, scene, now)));
    ScaledCosineBound(DopplerShift(m, scene, now, frequency), FlightSpeedMs(scene),
                      m.cos(FlightAngle(m, scene, now)), frequency);
  }

  /** The bound for a shift `d` computed from a cosine value `k` of magnitude
      at most 1. */
  lemma ScaledCosineBound(d: real, v: real, k: real, f: real)
    requires Abs(k) <= 1.0
    requires d == v * k * 2.0 * f / SpeedOfLightMs
    ensures Abs(d) <= Abs(v) * 2.0 * Abs(f) / SpeedOfLightMs
  {
    AbsMulRight(v, k, 1.0);
    AbsMulLeft(v * k, Abs(v) * 1.0, 2.0);
    AbsMulLeft(v * k * 2.0, Abs(v) * 1.0 * 2.0, f);
    AbsDivBound(v * k * 2.0 * f, Abs(v) * 1.0 * 2.0 * Abs(f), SpeedOfLightMs);
  }

  // ---------------------------------------------------------------------------
  // The detection handlers

  /** The main server reports delays in seconds; the per-port servers report
      the range in kilometres under the same name. */
  datatype DelayUnit = Seconds | Kilometres

  function DelayOf(unit: DelayUnit, rangeM: real): real {
    match unit
    case Seconds => rangeM / SpeedOfLightMs
    case Kilometres => rangeM / 1000.0
  }

  /** The three lists of a detection response. */
  datatype DetectionReport = DetectionReport(delay: seq<real>, doppler: seq<real>, snr: seq<real>)

  /** The list-building part of a detection handler for one radar
      configuration. */
  method BuildDetectionReport(m: Math, scene: Scene, aircraft: seq<AircraftState>, config: RadarConfig,
                              now: real, detectionId: string, hash: string -> int, unit: DelayUnit)
    returns (report: DetectionReport)
    ensures |report.delay| == |report.doppler| == |report.snr| == (if aircraft == [] then 0 else 1)
    ensures aircraft != [] ==>
      var d := SyntheticDetection(m, scene, aircraft, config, now, detectionId, hash).value;
      && report.delay == [DelayOf(unit, d.bistaticRangeM)]
      && report.doppler == [d.dopplerHz]
    ensures forall i :: 0 <= i < |report.snr| ==> report.snr[i] == ReportedSnrDb
  {
    var delays: seq<real> := [];
    var dopplers: seq<real> := [];
    if aircraft != [] {
      var detection := SyntheticDetection(m, scene, aircraft, config, now, detectionId, hash);
      if detection.Some? {
        var delay := DelayOf(unit, detection.value.bistaticRangeM);
        delays := delays + [delay];
        dopplers := dopplers + [detection.value.dopplerHz];
      }
    }
    var snr := if |delays| > 0 then seq(|delays|, _ => ReportedSnrDb) else [];
    report := DetectionReport(delays, dopplers, snr);
  }

  /** Which server answers: the main one (lazy default, delay in seconds) or
      a per-port one (eager default, delay in kilometres). */
  datatype Server = MainServer | PortServer

  /** A detection request to the server for `port`: look up the radar, then
      build the lists; the request fails when the lookup does. */
  method HandleDetection(m: Math, scene: Scene, configs: map<int, RadarConfig>, port: int, server: Server,
                         aircraft: seq<AircraftState>, now: real, detectionId: string, hash: string -> int)
    returns (r: Result<DetectionReport, ConfigError>)
    ensures var lookup := if server == MainServer then LookupLazy(configs, port) else LookupEager(configs, port);
      && (r.Err? <==> lookup.Err?)
      && (r.Err? ==> r.error == MissingDefault)
      && (r.Ok? ==> |r.value.delay| == |r.value.doppler| == |r.value.snr| == (if aircraft == [] then 0 else 1))
      && (r.Ok? && aircraft != [] ==>
          var d := SyntheticDetection(m, scene, aircraft, lookup.value, now, detectionId, hash).value;
          && r.value.delay == [DelayOf(if server == MainServer then Seconds else Kilometres, d.bistaticRangeM)]
          && r.value.doppler == [d.dopplerHz])
      && (r.Ok? ==> forall i :: 0 <= i < |r.value.snr| ==> r.value.snr[i] == ReportedSnrDb)
  {
    var lookup := if server == MainServer then LookupLazy(configs, port) else LookupEager(configs, port);
    if lookup.Err? {
      return Err(lookup.error);
    }
    var unit := if server == MainServer then Seconds else Kilometres;
    var report := BuildDetectionReport(m, scene, aircraft, lookup.value, now, detectionId, hash, unit);
    r := Ok(report);
  }
}
