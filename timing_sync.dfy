/** The timing and synchronisation unit's threshold policy. */
module TimingSync {
  import opened Values
  import opened HealthStatus
  import opened FaultLog
  import opened Penalties

  const SATELLITE_WARNING: int := 6
  const SATELLITE_CRITICAL: int := 4
  const ACCURACY_WARNING: real := 100.0
  const ACCURACY_CRITICAL: real := 1000.0
  const STABILITY_WARNING: real := 10.0
  const STABILITY_CRITICAL: real := 100.0
  const TEMP_WARNING: real := 50.0
  const TEMP_CRITICAL: real := 60.0

  const FAULT_GPS_UNLOCK: string := "TIME-001"
  const FAULT_LOW_SATELLITES: string := "TIME-002"
  const FAULT_OCXO_DRIFT: string := "TIME-003"
  const FAULT_PPS_INVALID: string := "TIME-004"

  datatype Reading = Reading(gpsLocked: bool, satelliteCount: int, timeAccuracy: real, ocxoStability: real,
                             temperature: real, ppsValid: bool)

  function ReadingOf(t: ValueMap): Reading {
    Reading(ToBool(Lookup(t, "gpsLocked")), ToInt(Lookup(t, "satelliteCount")), ToDouble(Lookup(t, "timeAccuracy")),
            ToDouble(Lookup(t, "ocxoStability")), ToDouble(Lookup(t, "temperature")), ToBool(Lookup(t, "ppsValid")))
  }

  predicate Critical(r: Reading) {
    !r.gpsLocked || r.satelliteCount < 4 || r.timeAccuracy >= 1000.0 || r.ocxoStability >= 100.0
    || r.temperature >= 60.0 || !r.ppsValid
  }

  function State(enabled: bool, hasFaults: bool, r: Reading): (s: HealthState)
    ensures s == UNKNOWN <==> !enabled
    ensures s == FAIL <==> enabled && Critical(r)
    ensures s == DEGRADED <==>
      enabled && !Critical(r)
      && (r.satelliteCount < 6 || r.timeAccuracy >= 100.0 || r.ocxoStability >= 10.0 || r.temperature >= 50.0
          || hasFaults)
  {
    if !enabled then UNKNOWN
    else if !r.gpsLocked || r.satelliteCount < SATELLITE_CRITICAL || r.timeAccuracy >= ACCURACY_CRITICAL
         || r.ocxoStability >= STABILITY_CRITICAL || r.temperature >= TEMP_CRITICAL || !r.ppsValid then FAIL
    else if r.satelliteCount < SATELLITE_WARNING || r.timeAccuracy >= ACCURACY_WARNING
         || r.ocxoStability >= STABILITY_WARNING || r.temperature >= TEMP_WARNING then DEGRADED
    else if hasFaults then DEGRADED
    else OK
  }

  /** The warning-band satellite penalty is computed in integer arithmetic: 6 points at five, 12 at four. */
  function SatellitePenalty(sats: int): (p: real)
    ensures sats < 4 ==> p == 25.0
    ensures sats == 4 ==> p == 12.0
    ensures sats == 5 ==> p == 6.0
    ensures sats >= 6 ==> p == 0.0
  {
    if sats < SATELLITE_CRITICAL then 25.0
    else if sats < SATELLITE_WARNING then
      ((12 * (SATELLITE_WARNING - sats)) / (SATELLITE_WARNING - SATELLITE_CRITICAL)) as real
    else 0.0
  }

  /** The temperature does not enter the score. */
  function Score(faultCount: nat, r: Reading): (s: real)
    ensures 0.0 <= s <= 100.0
    ensures s == 100.0 <==>
      faultCount == 0 && r.gpsLocked && r.ppsValid && r.satelliteCount >= 6 && r.timeAccuracy <= 100.0
      && r.ocxoStability <= 10.0
    ensures !r.gpsLocked ==> s <= 70.0
    ensures r.satelliteCount < 4 || r.timeAccuracy >= 1000.0 ==> s <= 75.0
    ensures !r.ppsValid ==> s <= 80.0
  {
    Clamp(100.0
      - (if !r.gpsLocked then 30.0 else 0.0)
      - SatellitePenalty(r.satelliteCount)
      - High(r.timeAccuracy, ACCURACY_WARNING, ACCURACY_CRITICAL, 25.0, 12.0)
      - High(r.ocxoStability, STABILITY_WARNING, STABILITY_CRITICAL, 20.0, 10.0)
      - (if !r.ppsValid then 20.0 else 0.0)
      - FaultPenalty(faultCount))
  }

  /** An over-temperature unit fails yet can keep a full score. */
  lemma HotButFullScore()
    ensures var r := Reading(true, 8, 50.0, 5.0, 70.0, true);
      State(true, false, r) == FAIL && Score(0, r) == 100.0
  {
  }

  function Status(enabled: bool, r: Reading): (m: string)
    ensures !enabled ==> m == "Timing System disabled"
    ensures enabled && !r.gpsLocked ==> m == "CRITICAL: GPS unlocked"
  {
    if !enabled then "Timing System disabled"
    else if !r.gpsLocked then "CRITICAL: GPS unlocked"
    else if !r.ppsValid then "CRITICAL: PPS invalid"
    else if r.satelliteCount < SATELLITE_CRITICAL then "CRITICAL: Low satellites (%1)"
    else if r.timeAccuracy >= ACCURACY_CRITICAL then "CRITICAL: Time accuracy degraded"
    else if r.satelliteCount < SATELLITE_WARNING then "WARNING: Low satellites (%1)"
    else "%1 - %2 sats, Accuracy: %3 ns"
  }

  lemma StatusAgreesWithState(hasFaults: bool, r: Reading)
    ensures StartsWith(Status(true, r), "CRITICAL:") ==> State(true, hasFaults, r) == FAIL
    ensures StartsWith(Status(true, r), "WARNING:") ==> State(true, hasFaults, r) != OK
  {
    var m := Status(true, r);
    if !r.gpsLocked || !r.ppsValid || r.satelliteCount < SATELLITE_CRITICAL || r.timeAccuracy >= ACCURACY_CRITICAL {
      NotStartsWith(m, "WARNING:");
    } else if r.satelliteCount < SATELLITE_WARNING {
      NotStartsWith(m, "CRITICAL:");
    } else {
      NotStartsWith(m, "CRITICAL:");
      NotStartsWith(m, "WARNING:");
    }
  }

  function Rules(id: string, data: ValueMap, now: int): (rules: seq<FaultRule>)
    ensures |rules| == 4 && DistinctRuleCodes(rules)
    ensures forall i :: 0 <= i < |rules| ==> rules[i].fault.active && rules[i].fault.subsystemId == id
    ensures rules[0].fault.severity == CRITICAL && rules[1].fault.severity == WARNING
    ensures rules[2].fault.severity == CRITICAL && rules[3].fault.severity == WARNING
    ensures UnitRules(rules, id)
  {
    [ FaultRule("gpsLocked" in data, !ToBool(Lookup(data, "gpsLocked")),
                NewFaultCode(FAULT_GPS_UNLOCK, "GPS unlocked", CRITICAL, id, now)),
      FaultRule("satelliteCount" in data, ToInt(Lookup(data, "satelliteCount")) < SATELLITE_CRITICAL,
                NewFaultCode(FAULT_LOW_SATELLITES, "Low satellite count", WARNING, id, now)),
      FaultRule("ppsValid" in data, !ToBool(Lookup(data, "ppsValid")),
                NewFaultCode(FAULT_PPS_INVALID, "PPS signal invalid", CRITICAL, id, now)),
      FaultRule("ocxoStability" in data, ToDouble(Lookup(data, "ocxoStability")) >= STABILITY_CRITICAL,
                NewFaultCode(FAULT_OCXO_DRIFT, "OCXO frequency drift", WARNING, id, now)) ]
  }

  lemma OnDataUpdate(l: Log, id: string, data: ValueMap, now: int)
    requires Valid(l)
    ensures var r := Apply(l, RuleActions(Rules(id, data, now)));
      && Valid(r)
      && Decided(l, r, "gpsLocked" in data, "TIME-001", !ToBool(Lookup(data, "gpsLocked")))
      && Decided(l, r, "satelliteCount" in data, "TIME-002", ToInt(Lookup(data, "satelliteCount")) < 4)
      && Decided(l, r, "ppsValid" in data, "TIME-004", !ToBool(Lookup(data, "ppsValid")))
      && Decided(l, r, "ocxoStability" in data, "TIME-003", ToDouble(Lookup(data, "ocxoStability")) >= 100.0)
      && Untouched(l, r, {"TIME-001", "TIME-002", "TIME-003", "TIME-004"})
  {
    var rules := Rules(id, data, now);
    RuleDecided(l, rules, 0);
    RuleDecided(l, rules, 1);
    RuleDecided(l, rules, 2);
    RuleDecided(l, rules, 3);
    RulesUntouched(l, rules, {"TIME-001", "TIME-002", "TIME-003", "TIME-004"});
  }
}
