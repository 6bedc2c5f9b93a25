/** The RF front-end's threshold policy. */
module RFFrontEnd {
  import opened Values
  import opened HealthStatus
  import opened FaultLog
  import opened Penalties

  const PHASE_LOCK_WARNING: real := 0.8
  const PHASE_LOCK_CRITICAL: real := 0.5
  const TEMP_WARNING: real := 55.0
  const TEMP_CRITICAL: real := 70.0

  const FAULT_PLL_UNLOCK: string := "RF-001"
  const FAULT_TR_SWITCH: string := "RF-004"
  const FAULT_OVERTEMP: string := "RF-007"

  datatype Reading = Reading(phaseLock: real, temperature: real, trSwitchOk: bool)

  function ReadingOf(t: ValueMap): Reading {
    Reading(ToDouble(Lookup(t, "phaseLock")), ToDouble(Lookup(t, "temperature")), ToBool(Lookup(t, "trSwitchOk")))
  }

  function State(enabled: bool, hasFaults: bool, r: Reading): (s: HealthState)
    ensures s == UNKNOWN <==> !enabled
    ensures s == FAIL <==> enabled && (r.phaseLock <= 0.5 || r.temperature >= 70.0 || !r.trSwitchOk)
    ensures s == DEGRADED <==>
      enabled && !(r.phaseLock <= 0.5 || r.temperature >= 70.0 || !r.trSwitchOk)
      && (r.phaseLock <= 0.8 || r.temperature >= 55.0 || hasFaults)
  {
    if !enabled then UNKNOWN
    else if r.phaseLock <= PHASE_LOCK_CRITICAL || r.temperature >= TEMP_CRITICAL || !r.trSwitchOk then FAIL
    else if r.phaseLock <= PHASE_LOCK_WARNING || r.temperature >= TEMP_WARNING then DEGRADED
    else if hasFaults then DEGRADED
    else OK
  }

  function Score(faultCount: nat, r: Reading): (s: real)
    ensures 0.0 <= s <= 100.0
    ensures s == 100.0 <==> faultCount == 0 && r.phaseLock >= 0.8 && r.temperature <= 55.0 && r.trSwitchOk
    ensures r.phaseLock <= 0.5 ==> s <= 60.0
    ensures !r.trSwitchOk ==> s <= 70.0
  {
    Clamp(100.0
      - Low(r.phaseLock, PHASE_LOCK_WARNING, PHASE_LOCK_CRITICAL, 40.0, 20.0)
      - High(r.temperature, TEMP_WARNING, TEMP_CRITICAL, 30.0, 15.0)
      - (if !r.trSwitchOk then 30.0 else 0.0)
      - FaultPenalty(faultCount))
  }

  function Status(enabled: bool, r: Reading): (m: string)
    ensures !enabled ==> m == "RF Front-End disabled"
  {
    if !enabled then "RF Front-End disabled"
    else if r.phaseLock <= PHASE_LOCK_CRITICAL then "CRITICAL: PLL unlocked"
    else if !r.trSwitchOk then "CRITICAL: T/R switch failure"
    else if r.temperature >= TEMP_CRITICAL then "CRITICAL: Overtemperature"
    else if r.phaseLock <= PHASE_LOCK_WARNING then "WARNING: PLL marginal"
    else "Locked - %1 GHz, Phase error: %2°"
  }

  lemma StatusAgreesWithState(hasFaults: bool, r: Reading)
    ensures StartsWith(Status(true, r), "CRITICAL:") ==> State(true, hasFaults, r) == FAIL
    ensures StartsWith(Status(true, r), "WARNING:") ==> State(true, hasFaults, r) != OK
  {
    var m := Status(true, r);
    if r.phaseLock <= PHASE_LOCK_CRITICAL || !r.trSwitchOk || r.temperature >= TEMP_CRITICAL {
      NotStartsWith(m, "WARNING:");
    } else if r.phaseLock <= PHASE_LOCK_WARNING {
      NotStartsWith(m, "CRITICAL:");
    } else {
      NotStartsWith(m, "CRITICAL:");
      NotStartsWith(m, "WARNING:");
    }
  }

  function Rules(id: string, data: ValueMap, now: int): (rules: seq<FaultRule>)
    ensures |rules| == 3 && DistinctRuleCodes(rules)
    ensures forall i :: 0 <= i < |rules| ==>
      rules[i].fault.severity == CRITICAL && rules[i].fault.active && rules[i].fault.subsystemId == id
    ensures UnitRules(rules, id)
  {
    [ FaultRule("phaseLock" in data, ToDouble(Lookup(data, "phaseLock")) <= PHASE_LOCK_CRITICAL,
                NewFaultCode(FAULT_PLL_UNLOCK, "PLL unlocked", CRITICAL, id, now)),
      FaultRule("trSwitchOk" in data, !ToBool(Lookup(data, "trSwitchOk")),
                NewFaultCode(FAULT_TR_SWITCH, "T/R switch failure", CRITICAL, id, now)),
      FaultRule("temperature" in data, ToDouble(Lookup(data, "temperature")) >= TEMP_CRITICAL,
                NewFaultCode(FAULT_OVERTEMP, "RF overtemperature", CRITICAL, id, now)) ]
  }

  lemma OnDataUpdate(l: Log, id: string, data: ValueMap, now: int)
    requires Valid(l)
    ensures var r := Apply(l, RuleActions(Rules(id, data, now)));
      && Valid(r)
      && Decided(l, r, "phaseLock" in data, "RF-001", ToDouble(Lookup(data, "phaseLock")) <= 0.5)
      && Decided(l, r, "trSwitchOk" in data, "RF-004", !ToBool(Lookup(data, "trSwitchOk")))
      && Decided(l, r, "temperature" in data, "RF-007", ToDouble(Lookup(data, "temperature")) >= 70.0)
      && Untouched(l, r, {"RF-001", "RF-004", "RF-007"})
  {
    var rules := Rules(id, data, now);
    RuleDecided(l, rules, 0);
    RuleDecided(l, rules, 1);
    RuleDecided(l, rules, 2);
    RulesUntouched(l, rules, {"RF-001", "RF-004", "RF-007"});
  }
}
