/** The transmitter's threshold policy. */
module Transmitter {
  import opened Values
  import opened HealthStatus
  import opened FaultLog
  import opened Penalties

  const RF_POWER_WARNING_LOW: real := 80.0
  const RF_POWER_CRITICAL_LOW: real := 50.0
  const VSWR_WARNING: real := 1.5
  const VSWR_CRITICAL: real := 2.0
  const TEMP_WARNING: real := 60.0
  const TEMP_CRITICAL: real := 80.0
  const HV_WARNING_LOW: real := 90.0
  const HV_CRITICAL_LOW: real := 80.0

  const FAULT_RF_POWER_LOW: string := "TX-001"
  const FAULT_VSWR_HIGH: string := "TX-003"
  const FAULT_OVERTEMP: string := "TX-004"

  /** The stored telemetry the policy reads. */
  datatype Reading = Reading(rfPower: real, vswr: real, temperature: real, hvVoltage: real, hvEnabled: bool)

  function ReadingOf(t: ValueMap): Reading {
    Reading(ToDouble(Lookup(t, "rfPower")), ToDouble(Lookup(t, "vswr")), ToDouble(Lookup(t, "temperature")),
            ToDouble(Lookup(t, "hvVoltage")), ToBool(Lookup(t, "hvEnabled")))
  }

  function State(enabled: bool, hasFaults: bool, r: Reading): (s: HealthState)
    ensures s == UNKNOWN <==> !enabled
    ensures s == FAIL <==>
      enabled && (r.temperature >= 80.0 || r.vswr >= 2.0 || r.rfPower <= 50.0 || r.hvVoltage <= 20.0)
    ensures s == DEGRADED <==>
      enabled && !(r.temperature >= 80.0 || r.vswr >= 2.0 || r.rfPower <= 50.0 || r.hvVoltage <= 20.0)
      && (r.temperature >= 60.0 || r.vswr >= 1.5 || r.rfPower <= 80.0 || r.hvVoltage <= 22.5 || hasFaults)
  {
    if !enabled then UNKNOWN
    else if r.temperature >= TEMP_CRITICAL then FAIL
    else if r.vswr >= VSWR_CRITICAL then FAIL
    else if r.rfPower <= RF_POWER_CRITICAL_LOW then FAIL
    else if r.hvVoltage <= HV_CRITICAL_LOW * 0.25 then FAIL
    else if r.temperature >= TEMP_WARNING then DEGRADED
    else if r.vswr >= VSWR_WARNING then DEGRADED
    else if r.rfPower <= RF_POWER_WARNING_LOW then DEGRADED
    else if r.hvVoltage <= HV_WARNING_LOW * 0.25 then DEGRADED
    else if hasFaults then DEGRADED
    else OK
  }

  /** The high-voltage reading does not enter the score. */
  function Score(faultCount: nat, r: Reading): (s: real)
    ensures 0.0 <= s <= 100.0
    ensures s == 100.0 <==> faultCount == 0 && r.temperature <= 60.0 && r.vswr <= 1.5 && r.rfPower >= 80.0
    ensures r.temperature >= 80.0 ==> s <= 60.0
    ensures r.vswr >= 2.0 || r.rfPower <= 50.0 ==> s <= 70.0
  {
    Clamp(100.0
      - High(r.temperature, TEMP_WARNING, TEMP_CRITICAL, 40.0, 20.0)
      - High(r.vswr, VSWR_WARNING, VSWR_CRITICAL, 30.0, 15.0)
      - Low(r.rfPower, RF_POWER_WARNING_LOW, RF_POWER_CRITICAL_LOW, 30.0, 15.0)
      - FaultPenalty(faultCount))
  }

  /** A hotter transmitter never scores higher. */
  lemma ScoreFallsWithTemperature(faultCount: nat, r: Reading, hotter: real)
    requires r.temperature <= hotter
    ensures Score(faultCount, r.(temperature := hotter)) <= Score(faultCount, r)
  {
    HighMonotone(r.temperature, hotter, TEMP_WARNING, TEMP_CRITICAL, 40.0, 20.0);
  }

  /** The final line is a formatted template; its numeric arguments are not rendered. */
  function Status(enabled: bool, r: Reading): (m: string)
    ensures !enabled ==> m == "Transmitter disabled"
    ensures enabled && !r.hvEnabled ==> m == "HV off - Standby mode"
  {
    if !enabled then "Transmitter disabled"
    else if !r.hvEnabled then "HV off - Standby mode"
    else if r.temperature >= TEMP_CRITICAL then "CRITICAL: Over temperature"
    else if r.vswr >= VSWR_CRITICAL then "CRITICAL: High VSWR - Check antenna"
    else if r.rfPower <= RF_POWER_CRITICAL_LOW then "CRITICAL: Low RF output"
    else if r.temperature >= TEMP_WARNING then "WARNING: Elevated temperature"
    else if r.vswr >= VSWR_WARNING then "WARNING: VSWR above normal"
    else if r.rfPower <= RF_POWER_WARNING_LOW then "WARNING: RF power below nominal"
    else "Transmitting - %1 kW @ %2 Hz PRF"
  }

  /** A CRITICAL message only accompanies FAIL; a WARNING message never accompanies OK. */
  lemma StatusAgreesWithState(hasFaults: bool, r: Reading)
    ensures StartsWith(Status(true, r), "CRITICAL:") ==> State(true, hasFaults, r) == FAIL
    ensures StartsWith(Status(true, r), "WARNING:") ==> State(true, hasFaults, r) != OK
  {
    var m := Status(true, r);
    if !r.hvEnabled {
      NotStartsWith(m, "CRITICAL:");
      NotStartsWith(m, "WARNING:");
    } else if r.temperature >= TEMP_CRITICAL || r.vswr >= VSWR_CRITICAL || r.rfPower <= RF_POWER_CRITICAL_LOW {
      NotStartsWith(m, "WARNING:");
    } else if r.temperature >= TEMP_WARNING || r.vswr >= VSWR_WARNING || r.rfPower <= RF_POWER_WARNING_LOW {
      NotStartsWith(m, "CRITICAL:");
    } else {
      NotStartsWith(m, "CRITICAL:");
      NotStartsWith(m, "WARNING:");
    }
  }

  /** onDataUpdate: one rule per supplied key; the power rule also reads the stored HV switch. */
  function Rules(id: string, data: ValueMap, t: ValueMap, now: int): (rules: seq<FaultRule>)
    ensures |rules| == 3 && DistinctRuleCodes(rules)
    ensures forall i :: 0 <= i < |rules| ==>
      rules[i].fault.severity == CRITICAL && rules[i].fault.active && rules[i].fault.subsystemId == id
    ensures UnitRules(rules, id)
  {
    [ FaultRule("vswr" in data, ToDouble(Lookup(data, "vswr")) >= VSWR_CRITICAL,
                NewFaultCode(FAULT_VSWR_HIGH, "High VSWR detected", CRITICAL, id, now)),
      FaultRule("temperature" in data, ToDouble(Lookup(data, "temperature")) >= TEMP_CRITICAL,
                NewFaultCode(FAULT_OVERTEMP, "Transmitter overtemperature", CRITICAL, id, now)),
      FaultRule("rfPower" in data,
                ToDouble(Lookup(data, "rfPower")) <= RF_POWER_CRITICAL_LOW && ReadingOf(t).hvEnabled,
                NewFaultCode(FAULT_RF_POWER_LOW, "Low RF output power", CRITICAL, id, now)) ]
  }

  lemma OnDataUpdate(l: Log, id: string, data: ValueMap, t: ValueMap, now: int)
    requires Valid(l)
    ensures var r := Apply(l, RuleActions(Rules(id, data, t, now)));
      && Valid(r)
      && Decided(l, r, "vswr" in data, "TX-003", ToDouble(Lookup(data, "vswr")) >= 2.0)
      && Decided(l, r, "temperature" in data, "TX-004", ToDouble(Lookup(data, "temperature")) >= 80.0)
      && Decided(l, r, "rfPower" in data, "TX-001",
                 ToDouble(Lookup(data, "rfPower")) <= 50.0 && ToBool(Lookup(t, "hvEnabled")))
      && Untouched(l, r, {"TX-001", "TX-003", "TX-004"})
  {
    var rules := Rules(id, data, t, now);
    RuleDecided(l, rules, 0);
    RuleDecided(l, rules, 1);
    RuleDecided(l, rules, 2);
    RulesUntouched(l, rules, {"TX-001", "TX-003", "TX-004"});
  }
}
