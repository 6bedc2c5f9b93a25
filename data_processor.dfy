/**
 * The data processor's threshold policy.  Track capacity divides the active
 * track count by the maximum in floating point with no guard; a zero maximum
 * gives an infinity or NaN, written out below as a Ratio.
 */
module DataProcessor {
  import opened Values
  import opened HealthStatus
  import opened FaultLog
  import opened Penalties

  const CPU_WARNING: real := 75.0
  const CPU_CRITICAL: real := 90.0
  const MEMORY_WARNING: real := 70.0
  const MEMORY_CRITICAL: real := 85.0
  const TRACK_CAPACITY_WARNING: real := 80.0
  const TRACK_CAPACITY_CRITICAL: real := 95.0
  const LATENCY_WARNING: real := 100.0
  const LATENCY_CRITICAL: real := 500.0

  const FAULT_CPU_OVERLOAD: string := "DP-001"
  const FAULT_MEMORY_FULL: string := "DP-002"
  const FAULT_TRACK_OVERFLOW: string := "DP-003"

  /** An IEEE double quotient: finite, infinite or NaN. */
  datatype Ratio = Finite(r: real) | PosInf | NegInf | NaN

  /** (double)active / max * 100.0. */
  function Capacity(active: int, max: int): (c: Ratio)
    ensures max != 0 ==> c == Finite(active as real / max as real * 100.0)
    ensures max == 0 ==> (c.PosInf? <==> active > 0) && (c.NaN? <==> active == 0)
  {
    if max != 0 then Finite(active as real / max as real * 100.0)
    else if active > 0 then PosInf
    else if active < 0 then NegInf
    else NaN
  }

  /** `c >= t`; every comparison with NaN is false. */
  predicate AtLeast(c: Ratio, t: real) {
    c.PosInf? || (c.Finite? && c.r >= t)
  }

  function CapacityPenalty(c: Ratio): (p: real)
    ensures 0.0 <= p <= 20.0
    ensures p == 20.0 <==> AtLeast(c, 95.0)
    ensures p == 0.0 <==> !AtLeast(c, 80.0) || (c.Finite? && c.r == 80.0)
  {
    if c.Finite? then High(c.r, TRACK_CAPACITY_WARNING, TRACK_CAPACITY_CRITICAL, 20.0, 10.0)
    else if c.PosInf? then 20.0
    else 0.0
  }

  datatype Reading = Reading(cpuLoad: real, memoryUsage: real, latency: real, activeTracks: int, maxTracks: int)

  function ReadingOf(t: ValueMap): Reading {
    Reading(ToDouble(Lookup(t, "cpuLoad")), ToDouble(Lookup(t, "memoryUsage")),
            ToDouble(Lookup(t, "processingLatency")), ToInt(Lookup(t, "activeTracks")),
            ToInt(Lookup(t, "maxTracks")))
  }

  function State(enabled: bool, hasFaults: bool, r: Reading): (s: HealthState)
    ensures s == UNKNOWN <==> !enabled
    ensures s == FAIL <==>
      enabled && (r.cpuLoad >= 90.0 || r.memoryUsage >= 85.0 || r.latency >= 500.0
                  || AtLeast(Capacity(r.activeTracks, r.maxTracks), 95.0))
    ensures s == DEGRADED <==>
      enabled && !(r.cpuLoad >= 90.0 || r.memoryUsage >= 85.0 || r.latency >= 500.0
                   || AtLeast(Capacity(r.activeTracks, r.maxTracks), 95.0))
      && (r.cpuLoad >= 75.0 || r.memoryUsage >= 70.0 || r.latency >= 100.0
          || AtLeast(Capacity(r.activeTracks, r.maxTracks), 80.0) || hasFaults)
  {
    var capacity := Capacity(r.activeTracks, r.maxTracks);
    if !enabled then UNKNOWN
    else if r.cpuLoad >= CPU_CRITICAL || r.memoryUsage >= MEMORY_CRITICAL || r.latency >= LATENCY_CRITICAL
         || AtLeast(capacity, TRACK_CAPACITY_CRITICAL) then FAIL
    else if r.cpuLoad >= CPU_WARNING || r.memoryUsage >= MEMORY_WARNING || r.latency >= LATENCY_WARNING
         || AtLeast(capacity, TRACK_CAPACITY_WARNING) then DEGRADED
    else if hasFaults then DEGRADED
    else OK
  }

  /** With no track limit, a positive track count reads as infinite load and fails; zero tracks compare as NaN. */
  lemma ZeroMaxTracks(hasFaults: bool, r: Reading)
    requires r.maxTracks == 0
    ensures r.activeTracks > 0 ==> State(true, hasFaults, r) == FAIL
    ensures r.activeTracks <= 0 ==> !AtLeast(Capacity(r.activeTracks, r.maxTracks), 80.0)
  {
  }

  function Score(faultCount: nat, r: Reading): (s: real)
    ensures 0.0 <= s <= 100.0
    ensures s == 100.0 <==>
      faultCount == 0 && r.cpuLoad <= 75.0 && r.memoryUsage <= 70.0 && r.latency <= 100.0
      && CapacityPenalty(Capacity(r.activeTracks, r.maxTracks)) == 0.0
    ensures AtLeast(Capacity(r.activeTracks, r.maxTracks), 95.0) ==> s <= 80.0
  {
    Clamp(100.0
      - High(r.cpuLoad, CPU_WARNING, CPU_CRITICAL, 25.0, 12.0)
      - High(r.memoryUsage, MEMORY_WARNING, MEMORY_CRITICAL, 25.0, 12.0)
      - High(r.latency, LATENCY_WARNING, LATENCY_CRITICAL, 25.0, 12.0)
      - CapacityPenalty(Capacity(r.activeTracks, r.maxTracks))
      - FaultPenalty(faultCount))
  }

  function Status(enabled: bool, r: Reading): (m: string)
    ensures !enabled ==> m == "Data Processor disabled"
  {
    var capacity := Capacity(r.activeTracks, r.maxTracks);
    if !enabled then "Data Processor disabled"
    else if r.cpuLoad >= CPU_CRITICAL then "CRITICAL: CPU overload"
    else if r.memoryUsage >= MEMORY_CRITICAL then "CRITICAL: Memory exhausted"
    else if AtLeast(capacity, TRACK_CAPACITY_CRITICAL) then "CRITICAL: Track capacity exceeded"
    else if AtLeast(capacity, TRACK_CAPACITY_WARNING) then "WARNING: High track load"
    else "Tracking %1/%2 targets, Quality: %3%"
  }

  lemma StatusAgreesWithState(hasFaults: bool, r: Reading)
    ensures StartsWith(Status(true, r), "CRITICAL:") ==> State(true, hasFaults, r) == FAIL
    ensures StartsWith(Status(true, r), "WARNING:") ==> State(true, hasFaults, r) != OK
  {
    var m := Status(true, r);
    var capacity := Capacity(r.activeTracks, r.maxTracks);
    if r.cpuLoad >= CPU_CRITICAL || r.memoryUsage >= MEMORY_CRITICAL || AtLeast(capacity, TRACK_CAPACITY_CRITICAL) {
      NotStartsWith(m, "WARNING:");
    } else if AtLeast(capacity, TRACK_CAPACITY_WARNING) {
      NotStartsWith(m, "CRITICAL:");
    } else {
      NotStartsWith(m, "CRITICAL:");
      NotStartsWith(m, "WARNING:");
    }
  }

  /** The track rule needs both counts in the update and a positive maximum. */
  function Rules(id: string, data: ValueMap, now: int): (rules: seq<FaultRule>)
    ensures |rules| == 3 && DistinctRuleCodes(rules)
    ensures forall i :: 0 <= i < |rules| ==>
      rules[i].fault.severity == CRITICAL && rules[i].fault.active && rules[i].fault.subsystemId == id
    ensures UnitRules(rules, id)
  {
    var active := ToInt(Lookup(data, "activeTracks"));
    var max := ToInt(Lookup(data, "maxTracks"));
    [ FaultRule("cpuLoad" in data, ToDouble(Lookup(data, "cpuLoad")) >= CPU_CRITICAL,
                NewFaultCode(FAULT_CPU_OVERLOAD, "CPU overload", CRITICAL, id, now)),
      FaultRule("memoryUsage" in data, ToDouble(Lookup(data, "memoryUsage")) >= MEMORY_CRITICAL,
                NewFaultCode(FAULT_MEMORY_FULL, "Memory exhausted", CRITICAL, id, now)),
      FaultRule("activeTracks" in data && "maxTracks" in data,
                max > 0 && active as real / max as real * 100.0 >= TRACK_CAPACITY_CRITICAL,
                NewFaultCode(FAULT_TRACK_OVERFLOW, "Track capacity exceeded", CRITICAL, id, now)) ]
  }

  lemma OnDataUpdate(l: Log, id: string, data: ValueMap, now: int)
    requires Valid(l)
    ensures var r := Apply(l, RuleActions(Rules(id, data, now)));
      var active := ToInt(Lookup(data, "activeTracks"));
      var max := ToInt(Lookup(data, "maxTracks"));
      && Valid(r)
      && Decided(l, r, "cpuLoad" in data, "DP-001", ToDouble(Lookup(data, "cpuLoad")) >= 90.0)
      && Decided(l, r, "memoryUsage" in data, "DP-002", ToDouble(Lookup(data, "memoryUsage")) >= 85.0)
      && Decided(l, r, "activeTracks" in data && "maxTracks" in data, "DP-003",
                 max > 0 && AtLeast(Capacity(active, max), 95.0))
      && Untouched(l, r, {"DP-001", "DP-002", "DP-003"})
  {
    var rules := Rules(id, data, now);
    RuleDecided(l, rules, 0);
    RuleDecided(l, rules, 1);
    RuleDecided(l, rules, 2);
    RulesUntouched(l, rules, {"DP-001", "DP-002", "DP-003"});
  }
}
