/** The antenna servo's threshold policy. */
module AntennaServo {
  import opened Values
  import opened HealthStatus
  import opened FaultLog
  import opened Penalties

  const CURRENT_WARNING: real := 8.0
  const CURRENT_CRITICAL: real := 12.0
  const MOTOR_TEMP_WARNING: real := 65.0
  const MOTOR_TEMP_CRITICAL: real := 85.0
  const POSITION_ERROR_WARNING: real := 0.5
  const POSITION_ERROR_CRITICAL: real := 1.0

  const FAULT_MOTOR_OVERCURRENT: string := "ANT-001"
  const FAULT_MOTOR_OVERTEMP: string := "ANT-002"
  const FAULT_POSITION_ERROR: string := "ANT-003"

  datatype Reading = Reading(motorCurrent: real, motorTemperature: real, positionError: real,
                             azLimitReached: bool, elLimitReached: bool)

  function ReadingOf(t: ValueMap): Reading {
    Reading(ToDouble(Lookup(t, "motorCurrent")), ToDouble(Lookup(t, "motorTemperature")),
            ToDouble(Lookup(t, "positionError")), ToBool(Lookup(t, "azLimitReached")),
            ToBool(Lookup(t, "elLimitReached")))
  }

  function State(enabled: bool, hasFaults: bool, r: Reading): (s: HealthState)
    ensures s == UNKNOWN <==> !enabled
    ensures s == FAIL <==>
      enabled && (r.motorCurrent >= 12.0 || r.motorTemperature >= 85.0 || r.positionError >= 1.0)
    ensures s == DEGRADED <==>
      enabled && !(r.motorCurrent >= 12.0 || r.motorTemperature >= 85.0 || r.positionError >= 1.0)
      && (r.motorCurrent >= 8.0 || r.motorTemperature >= 65.0 || r.positionError >= 0.5
          || r.azLimitReached || r.elLimitReached || hasFaults)
  {
    if !enabled then UNKNOWN
    else if r.motorCurrent >= CURRENT_CRITICAL || r.motorTemperature >= MOTOR_TEMP_CRITICAL
         || r.positionError >= POSITION_ERROR_CRITICAL then FAIL
    else if r.motorCurrent >= CURRENT_WARNING || r.motorTemperature >= MOTOR_TEMP_WARNING
         || r.positionError >= POSITION_ERROR_WARNING then DEGRADED
    else if r.azLimitReached || r.elLimitReached then DEGRADED
    else if hasFaults then DEGRADED
    else OK
  }

  function Score(faultCount: nat, r: Reading): (s: real)
    ensures 0.0 <= s <= 100.0
    ensures s == 100.0 <==>
      faultCount == 0 && r.motorCurrent <= 8.0 && r.motorTemperature <= 65.0 && r.positionError <= 0.5
      && !r.azLimitReached && !r.elLimitReached
    ensures r.motorCurrent >= 12.0 ==> s <= 65.0
    ensures r.azLimitReached || r.elLimitReached ==> s <= 90.0
  {
    Clamp(100.0
      - High(r.motorCurrent, CURRENT_WARNING, CURRENT_CRITICAL, 35.0, 15.0)
      - High(r.motorTemperature, MOTOR_TEMP_WARNING, MOTOR_TEMP_CRITICAL, 30.0, 15.0)
      - High(r.positionError, POSITION_ERROR_WARNING, POSITION_ERROR_CRITICAL, 25.0, 10.0)
      - (if r.azLimitReached || r.elLimitReached then 10.0 else 0.0)
      - FaultPenalty(faultCount))
  }

  function Status(enabled: bool, r: Reading): (m: string)
    ensures !enabled ==> m == "Antenna servo disabled"
  {
    if !enabled then "Antenna servo disabled"
    else if r.motorCurrent >= CURRENT_CRITICAL then "CRITICAL: Motor overcurrent"
    else if r.motorTemperature >= MOTOR_TEMP_CRITICAL then "CRITICAL: Motor overheating"
    else if r.positionError >= POSITION_ERROR_CRITICAL then "CRITICAL: Position servo error"
    else if r.azLimitReached then "WARNING: Azimuth limit reached"
    else if r.elLimitReached then "WARNING: Elevation limit reached"
    else "%1 - Az: %2°, El: %3°"
  }

  lemma StatusAgreesWithState(hasFaults: bool, r: Reading)
    ensures StartsWith(Status(true, r), "CRITICAL:") ==> State(true, hasFaults, r) == FAIL
    ensures StartsWith(Status(true, r), "WARNING:") ==> State(true, hasFaults, r) != OK
  {
    var m := Status(true, r);
    if r.motorCurrent >= CURRENT_CRITICAL || r.motorTemperature >= MOTOR_TEMP_CRITICAL
       || r.positionError >= POSITION_ERROR_CRITICAL {
      NotStartsWith(m, "WARNING:");
    } else if r.azLimitReached || r.elLimitReached {
      NotStartsWith(m, "CRITICAL:");
    } else {
      NotStartsWith(m, "CRITICAL:");
      NotStartsWith(m, "WARNING:");
    }
  }

  function Rules(id: string, data: ValueMap, now: int): (rules: seq<FaultRule>)
    ensures |rules| == 3 && DistinctRuleCodes(rules)
    ensures forall i :: 0 <= i < |rules| ==>
      rules[i].fault.severity == CRITICAL && rules[i].fault.active && rules[i].fault.subsystemId == id
    ensures UnitRules(rules, id)
  {
    [ FaultRule("motorCurrent" in data, ToDouble(Lookup(data, "motorCurrent")) >= CURRENT_CRITICAL,
                NewFaultCode(FAULT_MOTOR_OVERCURRENT, "Motor overcurrent", CRITICAL, id, now)),
      FaultRule("motorTemperature" in data, ToDouble(Lookup(data, "motorTemperature")) >= MOTOR_TEMP_CRITICAL,
                NewFaultCode(FAULT_MOTOR_OVERTEMP, "Motor overtemperature", CRITICAL, id, now)),
      FaultRule("positionError" in data, ToDouble(Lookup(data, "positionError")) >= POSITION_ERROR_CRITICAL,
                NewFaultCode(FAULT_POSITION_ERROR, "Position servo error", CRITICAL, id, now)) ]
  }

  lemma OnDataUpdate(l: Log, id: string, data: ValueMap, now: int)
    requires Valid(l)
    ensures var r := Apply(l, RuleActions(Rules(id, data, now)));
      && Valid(r)
      && Decided(l, r, "motorCurrent" in data, "ANT-001", ToDouble(Lookup(data, "motorCurrent")) >= 12.0)
      && Decided(l, r, "motorTemperature" in data, "ANT-002", ToDouble(Lookup(data, "motorTemperature")) >= 85.0)
      && Decided(l, r, "positionError" in data, "ANT-003", ToDouble(Lookup(data, "positionError")) >= 1.0)
      && Untouched(l, r, {"ANT-001", "ANT-002", "ANT-003"})
  {
    var rules := Rules(id, data, now);
    RuleDecided(l, rules, 0);
    RuleDecided(l, rules, 1);
    RuleDecided(l, rules, 2);
    RulesUntouched(l, rules, {"ANT-001", "ANT-002", "ANT-003"});
  }
}
