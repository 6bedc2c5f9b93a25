/** The signal processor's threshold policy. */
module SignalProcessor {
  import opened Values
  import opened HealthStatus
  import opened FaultLog
  import opened Penalties

  const CPU_WARNING: real := 80.0
  const CPU_CRITICAL: real := 95.0
  const MEMORY_WARNING: real := 75.0
  const MEMORY_CRITICAL: real := 90.0
  const LATENCY_WARNING: real := 10.0
  const LATENCY_CRITICAL: real := 50.0
  const TEMP_WARNING: real := 70.0
  const TEMP_CRITICAL: real := 85.0

  const FAULT_CPU_OVERLOAD: string := "SP-001"
  const FAULT_MEMORY_FULL: string := "SP-002"
  const FAULT_FPGA_ERROR: string := "SP-003"

  datatype Reading = Reading(cpuLoad: real, memoryUsage: real, temperature: real, latency: real, fpgaHealthy: bool)

  function ReadingOf(t: ValueMap): Reading {
    Reading(ToDouble(Lookup(t, "cpuLoad")), ToDouble(Lookup(t, "memoryUsage")), ToDouble(Lookup(t, "temperature")),
            ToDouble(Lookup(t, "latency")), ToBool(Lookup(t, "fpgaHealthy")))
  }

  predicate Critical(r: Reading) {
    r.cpuLoad >= 95.0 || r.memoryUsage >= 90.0 || r.temperature >= 85.0 || r.latency >= 50.0 || !r.fpgaHealthy
  }

  function State(enabled: bool, hasFaults: bool, r: Reading): (s: HealthState)
    ensures s == UNKNOWN <==> !enabled
    ensures s == FAIL <==> enabled && Critical(r)
    ensures s == DEGRADED <==>
      enabled && !Critical(r)
      && (r.cpuLoad >= 80.0 || r.memoryUsage >= 75.0 || r.temperature >= 70.0 || r.latency >= 10.0 || hasFaults)
  {
    if !enabled then UNKNOWN
    else if r.cpuLoad >= CPU_CRITICAL || r.memoryUsage >= MEMORY_CRITICAL || r.temperature >= TEMP_CRITICAL
         || r.latency >= LATENCY_CRITICAL || !r.fpgaHealthy then FAIL
    else if r.cpuLoad >= CPU_WARNING || r.memoryUsage >= MEMORY_WARNING || r.temperature >= TEMP_WARNING
         || r.latency >= LATENCY_WARNING then DEGRADED
    else if hasFaults then DEGRADED
    else OK
  }

  function Score(faultCount: nat, r: Reading): (s: real)
    ensures 0.0 <= s <= 100.0
    ensures s == 100.0 <==>
      faultCount == 0 && r.cpuLoad <= 80.0 && r.memoryUsage <= 75.0 && r.temperature <= 70.0
      && r.latency <= 10.0 && r.fpgaHealthy
    ensures !r.fpgaHealthy ==> s <= 70.0
    ensures r.cpuLoad >= 95.0 || r.memoryUsage >= 90.0 || r.temperature >= 85.0 ==> s <= 75.0
  {
    Clamp(100.0
      - High(r.cpuLoad, CPU_WARNING, CPU_CRITICAL, 25.0, 12.0)
      - High(r.memoryUsage, MEMORY_WARNING, MEMORY_CRITICAL, 25.0, 12.0)
      - High(r.temperature, TEMP_WARNING, TEMP_CRITICAL, 25.0, 12.0)
      - High(r.latency, LATENCY_WARNING, LATENCY_CRITICAL, 20.0, 10.0)
      - (if !r.fpgaHealthy then 30.0 else 0.0)
      - FaultPenalty(faultCount))
  }

  function Status(enabled: bool, r: Reading): (m: string)
    ensures !enabled ==> m == "Signal Processor disabled"
    ensures enabled && !r.fpgaHealthy ==> m == "CRITICAL: FPGA error"
  {
    if !enabled then "Signal Processor disabled"
    else if !r.fpgaHealthy then "CRITICAL: FPGA error"
    else if r.cpuLoad >= CPU_CRITICAL then "CRITICAL: CPU overload"
    else if r.memoryUsage >= MEMORY_CRITICAL then "CRITICAL: Memory exhausted"
    else if r.cpuLoad >= CPU_WARNING then "WARNING: High CPU load"
    else if r.memoryUsage >= MEMORY_WARNING then "WARNING: High memory usage"
    else "Processing - %1 MSPS, Lat: %2ms"
  }

  lemma StatusAgreesWithState(hasFaults: bool, r: Reading)
    ensures StartsWith(Status(true, r), "CRITICAL:") ==> State(true, hasFaults, r) == FAIL
    ensures StartsWith(Status(true, r), "WARNING:") ==> State(true, hasFaults, r) != OK
  {
    var m := Status(true, r);
    if !r.fpgaHealthy || r.cpuLoad >= CPU_CRITICAL || r.memoryUsage >= MEMORY_CRITICAL {
      NotStartsWith(m, "WARNING:");
    } else if r.cpuLoad >= CPU_WARNING || r.memoryUsage >= MEMORY_WARNING {
      NotStartsWith(m, "CRITICAL:");
    } else {
      NotStartsWith(m, "CRITICAL:");
      NotStartsWith(m, "WARNING:");
    }
  }

  /** An unhealthy FPGA raises the only FATAL fault of the policies. */
  function Rules(id: string, data: ValueMap, now: int): (rules: seq<FaultRule>)
    ensures |rules| == 3 && DistinctRuleCodes(rules)
    ensures forall i :: 0 <= i < |rules| ==> rules[i].fault.active && rules[i].fault.subsystemId == id
    ensures rules[0].fault.severity == CRITICAL && rules[1].fault.severity == CRITICAL
    ensures rules[2].fault.severity == FATAL
    ensures UnitRules(rules, id)
  {
    [ FaultRule("cpuLoad" in data, ToDouble(Lookup(data, "cpuLoad")) >= CPU_CRITICAL,
                NewFaultCode(FAULT_CPU_OVERLOAD, "CPU overload", CRITICAL, id, now)),
      FaultRule("memoryUsage" in data, ToDouble(Lookup(data, "memoryUsage")) >= MEMORY_CRITICAL,
                NewFaultCode(FAULT_MEMORY_FULL, "Memory exhausted", CRITICAL, id, now)),
      FaultRule("fpgaHealthy" in data, !ToBool(Lookup(data, "fpgaHealthy")),
                NewFaultCode(FAULT_FPGA_ERROR, "FPGA error", FATAL, id, now)) ]
  }

  lemma OnDataUpdate(l: Log, id: string, data: ValueMap, now: int)
    requires Valid(l)
    ensures var r := Apply(l, RuleActions(Rules(id, data, now)));
      && Valid(r)
      && Decided(l, r, "cpuLoad" in data, "SP-001", ToDouble(Lookup(data, "cpuLoad")) >= 95.0)
      && Decided(l, r, "memoryUsage" in data, "SP-002", ToDouble(Lookup(data, "memoryUsage")) >= 90.0)
      && Decided(l, r, "fpgaHealthy" in data, "SP-003", !ToBool(Lookup(data, "fpgaHealthy")))
      && Untouched(l, r, {"SP-001", "SP-002", "SP-003"})
  {
    var rules := Rules(id, data, now);
    RuleDecided(l, rules, 0);
    RuleDecided(l, rules, 1);
    RuleDecided(l, rules, 2);
    RulesUntouched(l, rules, {"SP-001", "SP-002", "SP-003"});
  }
}
