/**
 * The cooling system's threshold policy.  The flow thresholds are percentages
 * of a nominal 20 L/min: the state compares litres against the percentage
 * scaled by 0.2, the score and message compare the percentage itself.
 */
module Cooling {
  import opened Values
  import opened HealthStatus
  import opened FaultLog
  import opened Penalties

  const COOLANT_TEMP_WARNING: real := 45.0
  const COOLANT_TEMP_CRITICAL: real := 55.0
  const FLOW_WARNING_LOW: real := 70.0
  const FLOW_CRITICAL_LOW: real := 50.0
  const AMBIENT_WARNING: real := 40.0
  const AMBIENT_CRITICAL: real := 50.0
  const EFFICIENCY_WARNING: real := 70.0
  const EFFICIENCY_CRITICAL: real := 50.0

  const FAULT_COOLANT_TEMP_HIGH: string := "COOL-001"
  const FAULT_COOLANT_FLOW_LOW: string := "COOL-002"
  const FAULT_EFFICIENCY_LOW: string := "COOL-006"

  datatype Reading = Reading(coolantTemp: real, coolantFlow: real, ambientTemp: real, efficiency: real)

  function ReadingOf(t: ValueMap): Reading {
    Reading(ToDouble(Lookup(t, "coolantTemp")), ToDouble(Lookup(t, "coolantFlow")),
            ToDouble(Lookup(t, "ambientTemp")), ToDouble(Lookup(t, "efficiency")))
  }

  /** Coolant flow as a percentage of the nominal 20 L/min. */
  function FlowPercent(flow: real): real { flow / 20.0 * 100.0 }

  /** Both ways of comparing the flow agree on the same thresholds. */
  lemma FlowScalesAgree(flow: real)
    ensures FlowPercent(flow) <= FLOW_CRITICAL_LOW <==> flow <= FLOW_CRITICAL_LOW * 0.2
    ensures FlowPercent(flow) <= FLOW_WARNING_LOW <==> flow <= FLOW_WARNING_LOW * 0.2
  {
    assert FlowPercent(flow) == 5.0 * flow;
  }

  predicate Critical(r: Reading) {
    r.coolantTemp >= 55.0 || r.coolantFlow <= 10.0 || r.ambientTemp >= 50.0 || r.efficiency <= 50.0
  }

  function State(enabled: bool, hasFaults: bool, r: Reading): (s: HealthState)
    ensures s == UNKNOWN <==> !enabled
    ensures s == FAIL <==> enabled && Critical(r)
    ensures s == DEGRADED <==>
      enabled && !Critical(r)
      && (r.coolantTemp >= 45.0 || r.coolantFlow <= 14.0 || r.ambientTemp >= 40.0 || r.efficiency <= 70.0
          || hasFaults)
  {
    if !enabled then UNKNOWN
    else if r.coolantTemp >= COOLANT_TEMP_CRITICAL || r.coolantFlow <= FLOW_CRITICAL_LOW * 0.2
         || r.ambientTemp >= AMBIENT_CRITICAL || r.efficiency <= EFFICIENCY_CRITICAL then FAIL
    else if r.coolantTemp >= COOLANT_TEMP_WARNING || r.coolantFlow <= FLOW_WARNING_LOW * 0.2
         || r.ambientTemp >= AMBIENT_WARNING || r.efficiency <= EFFICIENCY_WARNING then DEGRADED
    else if hasFaults then DEGRADED
    else OK
  }

  function Score(faultCount: nat, r: Reading): (s: real)
    ensures 0.0 <= s <= 100.0
    ensures s == 100.0 <==>
      faultCount == 0 && r.coolantTemp <= 45.0 && r.coolantFlow >= 14.0 && r.ambientTemp <= 40.0
      && r.efficiency >= 70.0
    ensures r.coolantTemp >= 55.0 ==> s <= 65.0
    ensures r.coolantFlow <= 10.0 ==> s <= 70.0
  {
    FlowScalesAgree(r.coolantFlow);
    assert FlowPercent(r.coolantFlow) >= 70.0 <==> r.coolantFlow >= 14.0;
    Clamp(100.0
      - High(r.coolantTemp, COOLANT_TEMP_WARNING, COOLANT_TEMP_CRITICAL, 35.0, 15.0)
      - Low(FlowPercent(r.coolantFlow), FLOW_WARNING_LOW, FLOW_CRITICAL_LOW, 30.0, 15.0)
      - High(r.ambientTemp, AMBIENT_WARNING, AMBIENT_CRITICAL, 20.0, 10.0)
      - Low(r.efficiency, EFFICIENCY_WARNING, EFFICIENCY_CRITICAL, 15.0, 8.0)
      - FaultPenalty(faultCount))
  }

  function Status(enabled: bool, r: Reading): (m: string)
    ensures !enabled ==> m == "Cooling System disabled"
    ensures enabled && r.coolantTemp < 55.0 && r.coolantFlow <= 10.0 ==> m == "CRITICAL: Low coolant flow"
  {
    FlowScalesAgree(r.coolantFlow);
    if !enabled then "Cooling System disabled"
    else if r.coolantTemp >= COOLANT_TEMP_CRITICAL then "CRITICAL: Coolant overtemperature"
    else if FlowPercent(r.coolantFlow) <= FLOW_CRITICAL_LOW then "CRITICAL: Low coolant flow"
    else if r.coolantTemp >= COOLANT_TEMP_WARNING then "WARNING: Elevated coolant temperature"
    else if FlowPercent(r.coolantFlow) <= FLOW_WARNING_LOW then "WARNING: Reduced coolant flow"
    else "%1 Mode - Coolant: %2°C, Flow: %3 L/min"
  }

  lemma StatusAgreesWithState(hasFaults: bool, r: Reading)
    ensures StartsWith(Status(true, r), "CRITICAL:") ==> State(true, hasFaults, r) == FAIL
    ensures StartsWith(Status(true, r), "WARNING:") ==> State(true, hasFaults, r) != OK
  {
    var m := Status(true, r);
    FlowScalesAgree(r.coolantFlow);
    if r.coolantTemp >= COOLANT_TEMP_CRITICAL || FlowPercent(r.coolantFlow) <= FLOW_CRITICAL_LOW {
      NotStartsWith(m, "WARNING:");
    } else if r.coolantTemp >= COOLANT_TEMP_WARNING || FlowPercent(r.coolantFlow) <= FLOW_WARNING_LOW {
      NotStartsWith(m, "CRITICAL:");
    } else {
      NotStartsWith(m, "CRITICAL:");
      NotStartsWith(m, "WARNING:");
    }
  }

  /** Low efficiency is the one WARNING-severity cooling fault. */
  function Rules(id: string, data: ValueMap, now: int): (rules: seq<FaultRule>)
    ensures |rules| == 3 && DistinctRuleCodes(rules)
    ensures forall i :: 0 <= i < |rules| ==> rules[i].fault.active && rules[i].fault.subsystemId == id
    ensures rules[0].fault.severity == CRITICAL && rules[1].fault.severity == CRITICAL
    ensures rules[2].fault.severity == WARNING
    ensures UnitRules(rules, id)
  {
    [ FaultRule("coolantTemp" in data, ToDouble(Lookup(data, "coolantTemp")) >= COOLANT_TEMP_CRITICAL,
                NewFaultCode(FAULT_COOLANT_TEMP_HIGH, "Coolant overtemperature", CRITICAL, id, now)),
      FaultRule("coolantFlow" in data, FlowPercent(ToDouble(Lookup(data, "coolantFlow"))) <= FLOW_CRITICAL_LOW,
                NewFaultCode(FAULT_COOLANT_FLOW_LOW, "Low coolant flow", CRITICAL, id, now)),
      FaultRule("efficiency" in data, ToDouble(Lookup(data, "efficiency")) <= EFFICIENCY_CRITICAL,
                NewFaultCode(FAULT_EFFICIENCY_LOW, "Cooling efficiency degraded", WARNING, id, now)) ]
  }

  lemma OnDataUpdate(l: Log, id: string, data: ValueMap, now: int)
    requires Valid(l)
    ensures var r := Apply(l, RuleActions(Rules(id, data, now)));
      && Valid(r)
      && Decided(l, r, "coolantTemp" in data, "COOL-001", ToDouble(Lookup(data, "coolantTemp")) >= 55.0)
      && Decided(l, r, "coolantFlow" in data, "COOL-002", ToDouble(Lookup(data, "coolantFlow")) <= 10.0)
      && Decided(l, r, "efficiency" in data, "COOL-006", ToDouble(Lookup(data, "efficiency")) <= 50.0)
      && Untouched(l, r, {"COOL-001", "COOL-002", "COOL-006"})
  {
    var rules := Rules(id, data, now);
    FlowScalesAgree(ToDouble(Lookup(data, "coolantFlow")));
    RuleDecided(l, rules, 0);
    RuleDecided(l, rules, 1);
    RuleDecided(l, rules, 2);
    RulesUntouched(l, rules, {"COOL-001", "COOL-002", "COOL-006"});
  }
}
