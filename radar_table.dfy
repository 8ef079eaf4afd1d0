/** The table of radar configurations keyed by port, built once from the
    configured radar list, and the lookups the request handlers use, which fall
    back to the configuration of a default port. */
module RadarTable {
  import opened Outcomes

  /** The port whose configuration stands in for an unknown one. */
  const DefaultPort: int := 49158

  /** Megahertz to hertz. */
  const HzPerMhz: real := 1000000.0

  /** One entry of the configured radar list; `port` and `id` may be absent. */
  datatype RadarEntry = RadarEntry(port: Option<int>, id: Option<string>, lat: real, lon: real, alt: real)

  /** The value stored under a port. */
  datatype RadarConfig = RadarConfig(id: string, lat: real, lon: real, alt: real, frequency: real)

  datatype ConfigError =
    /** An entry without a port; carries the entry's id, or "unknown". */
    | MissingPort(radar: string)
    /** An entry with a port but no id (the `KeyError` of `radar["id"]`). */
    | MissingId
    /** A lookup that needed the default port's configuration, which is not
        in the table (the `KeyError` of `radar_configs[49158]`). */
    | MissingDefault

  /** The entry is stored without error. */
  predicate Complete(e: RadarEntry) {
    e.port.Some? && e.id.Some?
  }

  /** The error an incomplete entry raises; the port is checked first. */
  function EntryError(e: RadarEntry): ConfigError
    requires !Complete(e)
  {
    if e.port.None? then MissingPort(if e.id.Some? then e.id.value else "unknown")
    else MissingId
  }

  function ConfigFor(fcMhz: real, e: RadarEntry): RadarConfig
    requires e.id.Some?
  {
    RadarConfig(e.id.value, e.lat, e.lon, e.alt, fcMhz * HzPerMhz)
  }

  /** The table the construction loop builds from `radars`, or the error it
      stops at; entries are stored in order, so a later entry under the same
      port replaces an earlier one. */
  function Table(fcMhz: real, radars: seq<RadarEntry>): Result<map<int, RadarConfig>, ConfigError>
    decreases |radars|
  {
    if radars == [] then Ok(map[])
    else
      match Table(fcMhz, radars[..|radars| - 1])
      case Err(e) => Err(e)
      case Ok(t) =>
        var e := radars[|radars| - 1];
        if !Complete(e) then Err(EntryError(e))
        else Ok(t[e.port.value := ConfigFor(fcMhz, e)])
  }

  /** The construction loop; it stops at the first incomplete entry. */
  method BuildRadarConfigs(fcMhz: real, radars: seq<RadarEntry>) returns (r: Result<map<int, RadarConfig>, ConfigError>)
    ensures r == Table(fcMhz, radars)
  {
    var radarConfigs: map<int, RadarConfig> := map[];
    for i := 0 to |radars|
      invariant Table(fcMhz, radars[..i]) == Ok(radarConfigs)
    {
      assert radars[..i + 1][..i] == radars[..i];
      var radar := radars[i];
      if radar.port.None? {
        r := Err(MissingPort(if radar.id.Some? then radar.id.value else "unknown"));
        ErrorPersists(fcMhz, radars, i + 1);
        return;
      }
      var port := radar.port.value;
      if radar.id.None? {
        r := Err(MissingId);
        ErrorPersists(fcMhz, radars, i + 1);
        return;
      }
      radarConfigs := radarConfigs[port := RadarConfig(radar.id.value, radar.lat, radar.lon, radar.alt, fcMhz * HzPerMhz)];
    }
    assert radars[..|radars|] == radars;
    r := Ok(radarConfigs);
  }

  /** Once construction has failed, later entries do not change the error. */
  lemma {:induction false} ErrorPersists(fcMhz: real, radars: seq<RadarEntry>, i: nat)
    requires i <= |radars| && Table(fcMhz, radars[..i]).Err?
    ensures Table(fcMhz, radars) == Table(fcMhz, radars[..i])
    decreases |radars| - i
  {
    if i < |radars| {
      assert radars[..i + 1][..i] == radars[..i];
      ErrorPersists(fcMhz, radars, i + 1);
    } else {
      assert radars[..i] == radars;
    }
  }

  /** Construction succeeds exactly when every entry has a port and an id. */
  lemma {:induction false} TableOkIff(fcMhz: real, radars: seq<RadarEntry>)
    ensures Table(fcMhz, radars).Ok? <==> forall i :: 0 <= i < |radars| ==> Complete(radars[i])
    decreases |radars|
  {
    if radars != [] {
      var init := radars[..|radars| - 1];
      TableOkIff(fcMhz, init);
      assert forall i :: 0 <= i < |init| ==> init[i] == radars[i];
    }
  }

  /** A failed construction reports the first incomplete entry. */
  lemma FirstErrorReported(fcMhz: real, radars: seq<RadarEntry>, k: nat)
    requires k < |radars| && !Complete(radars[k])
    requires forall i :: 0 <= i < k ==> Complete(radars[i])
    ensures Table(fcMhz, radars) == Err(EntryError(radars[k]))
  {
    var prefix := radars[..k];
    TableOkIff(fcMhz, prefix);
    assert radars[..k + 1][..k] == prefix;
    ErrorPersists(fcMhz, radars, k + 1);
  }

  /** The ports of a table built without error are exactly the entries'
      ports. */
  lemma {:induction false} TableKeys(fcMhz: real, radars: seq<RadarEntry>)
    requires Table(fcMhz, radars).Ok?
    ensures forall i :: 0 <= i < |radars| ==> radars[i].port.Some?
    ensures Table(fcMhz, radars).value.Keys == set i | 0 <= i < |radars| :: radars[i].port.value
    decreases |radars|
  {
    TableOkIff(fcMhz, radars);
    if radars != [] {
      var init := radars[..|radars| - 1];
      TableKeys(fcMhz, init);
      assert forall i :: 0 <= i < |init| ==> init[i] == radars[i];
      var last := |radars| - 1;
      assert (set i | 0 <= i < |radars| :: radars[i].port.value)
          == (set i | 0 <= i < |init| :: init[i].port.value) + {radars[last].port.value};
    }
  }

  /** Under each port the table holds the configuration of the LAST entry
      with that port: its id and position, at the carrier frequency in hertz. */
  lemma {:induction false} LastEntryWins(fcMhz: real, radars: seq<RadarEntry>, k: nat)
    requires Table(fcMhz, radars).Ok? && k < |radars|
    requires forall j :: k < j < |radars| ==> radars[j].port != radars[k].port
    ensures radars[k].port.Some? && radars[k].id.Some?
    ensures radars[k].port.value in Table(fcMhz, radars).value
    ensures var c := Table(fcMhz, radars).value[radars[k].port.value];
      c == RadarConfig(radars[k].id.value, radars[k].lat, radars[k].lon, radars[k].alt, fcMhz * 1000000.0)
    decreases |radars|
  {
    TableOkIff(fcMhz, radars);
    var init := radars[..|radars| - 1];
    if k < |init| {
      TableOkIff(fcMhz, init);
      assert forall i :: 0 <= i < |init| ==> init[i] == radars[i];
      LastEntryWins(fcMhz, init, k);
    }
  }

  /** The lookup of the main detection handler: the port's configuration, or
      on a miss the default port's, which must then be present. */
  function LookupLazy(configs: map<int, RadarConfig>, port: int): (r: Result<RadarConfig, ConfigError>)
    ensures r.Ok? <==> port in configs || DefaultPort in configs
  {
    if port in configs then Ok(configs[port])
    else if DefaultPort in configs then Ok(configs[DefaultPort])
    else Err(MissingDefault)
  }

  /** The lookup of the configuration handler and of the per-port servers:
      the default is read before the lookup, so it must be present even when
      the port is known. */
  function LookupEager(configs: map<int, RadarConfig>, port: int): (r: Result<RadarConfig, ConfigError>)
    ensures r.Ok? <==> DefaultPort in configs
  {
    if DefaultPort !in configs then Err(MissingDefault)
    else if port in configs then Ok(configs[port])
    else Ok(configs[DefaultPort])
  }

  /** Both lookups return the port's own configuration when it is known and the
      default port's otherwise, whenever they succeed. */
  lemma LookupsFallBack(configs: map<int, RadarConfig>, port: int)
    ensures LookupLazy(configs, port).Ok? ==>
      LookupLazy(configs, port).value == (if port in configs then configs[port] else configs[DefaultPort])
    ensures LookupEager(configs, port).Ok? ==>
      LookupEager(configs, port).value == (if port in configs then configs[port] else configs[DefaultPort])
  {
  }

  /** The two lookups differ exactly when the port is known but the default
      port is not: then only the lazy one succeeds. */
  lemma LookupsDifferIff(configs: map<int, RadarConfig>, port: int)
    ensures LookupLazy(configs, port) != LookupEager(configs, port)
      <==> port in configs && DefaultPort !in configs
    ensures LookupLazy(configs, port) != LookupEager(configs, port)
      ==> LookupLazy(configs, port).Ok? && LookupEager(configs, port) == Err(MissingDefault)
  {
  }
}
