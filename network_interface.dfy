/** The network interface's threshold policy. */
module NetworkInterface {
  import opened Values
  import opened HealthStatus
  import opened FaultLog
  import opened Penalties

  const PACKET_LOSS_WARNING: real := 0.1
  const PACKET_LOSS_CRITICAL: real := 1.0
  const LATENCY_WARNING: real := 50.0
  const LATENCY_CRITICAL: real := 200.0
  const UTILIZATION_WARNING: real := 80.0
  const UTILIZATION_CRITICAL: real := 95.0

  const FAULT_LINK_DOWN: string := "NET-001"
  const FAULT_HIGH_PACKET_LOSS: string := "NET-002"
  const FAULT_HIGH_LATENCY: string := "NET-003"
  const FAULT_C2_DISCONNECT: string := "NET-005"

  datatype Reading = Reading(linkUp: bool, packetLoss: real, latency: real, utilization: real,
                             connectionStatus: string)

  function ReadingOf(t: ValueMap): Reading {
    Reading(ToBool(Lookup(t, "linkUp")), ToDouble(Lookup(t, "packetLoss")), ToDouble(Lookup(t, "latency")),
            ToDouble(Lookup(t, "utilization")), ToText(Lookup(t, "connectionStatus")))
  }

  predicate Critical(r: Reading) {
    !r.linkUp || r.packetLoss >= 1.0 || r.latency >= 200.0 || r.utilization >= 95.0
  }

  function State(enabled: bool, hasFaults: bool, r: Reading): (s: HealthState)
    ensures s == UNKNOWN <==> !enabled
    ensures s == FAIL <==> enabled && Critical(r)
    ensures s == DEGRADED <==>
      enabled && !Critical(r)
      && (r.packetLoss >= 0.1 || r.latency >= 50.0 || r.utilization >= 80.0
          || r.connectionStatus == "DEGRADED" || hasFaults)
  {
    if !enabled then UNKNOWN
    else if !r.linkUp then FAIL
    else if r.packetLoss >= PACKET_LOSS_CRITICAL || r.latency >= LATENCY_CRITICAL
         || r.utilization >= UTILIZATION_CRITICAL then FAIL
    else if r.packetLoss >= PACKET_LOSS_WARNING || r.latency >= LATENCY_WARNING
         || r.utilization >= UTILIZATION_WARNING then DEGRADED
    else if r.connectionStatus == "DEGRADED" then DEGRADED
    else if hasFaults then DEGRADED
    else OK
  }

  /** A down link scores zero outright, before any other penalty. */
  function Score(faultCount: nat, r: Reading): (s: real)
    ensures 0.0 <= s <= 100.0
    ensures !r.linkUp ==> s == 0.0
    ensures s == 100.0 <==>
      r.linkUp && faultCount == 0 && r.packetLoss <= 0.1 && r.latency <= 50.0 && r.utilization <= 80.0
    ensures r.packetLoss >= 1.0 ==> s <= 65.0
  {
    if !r.linkUp then 0.0
    else Clamp(100.0
      - High(r.packetLoss, PACKET_LOSS_WARNING, PACKET_LOSS_CRITICAL, 35.0, 15.0)
      - High(r.latency, LATENCY_WARNING, LATENCY_CRITICAL, 30.0, 15.0)
      - High(r.utilization, UTILIZATION_WARNING, UTILIZATION_CRITICAL, 25.0, 12.0)
      - FaultPenalty(faultCount))
  }

  function Status(enabled: bool, r: Reading): (m: string)
    ensures !enabled ==> m == "Network Interface disabled"
    ensures enabled && !r.linkUp ==> m == "CRITICAL: Link down"
  {
    if !enabled then "Network Interface disabled"
    else if !r.linkUp then "CRITICAL: Link down"
    else if r.packetLoss >= PACKET_LOSS_CRITICAL then "CRITICAL: High packet loss (%1%)"
    else if r.latency >= LATENCY_CRITICAL then "CRITICAL: High latency (%1 ms)"
    else if r.packetLoss >= PACKET_LOSS_WARNING then "WARNING: Packet loss (%1%)"
    else if r.latency >= LATENCY_WARNING then "WARNING: Elevated latency (%1 ms)"
    else "Connected - %1 Mbps, Latency: %2 ms"
  }

  lemma StatusAgreesWithState(hasFaults: bool, r: Reading)
    ensures StartsWith(Status(true, r), "CRITICAL:") ==> State(true, hasFaults, r) == FAIL
    ensures StartsWith(Status(true, r), "WARNING:") ==> State(true, hasFaults, r) != OK
  {
    var m := Status(true, r);
    if !r.linkUp || r.packetLoss >= PACKET_LOSS_CRITICAL || r.latency >= LATENCY_CRITICAL {
      NotStartsWith(m, "WARNING:");
    } else if r.packetLoss >= PACKET_LOSS_WARNING || r.latency >= LATENCY_WARNING {
      NotStartsWith(m, "CRITICAL:");
    } else {
      NotStartsWithAt(m, "CRITICAL:", 1);
      NotStartsWith(m, "WARNING:");
    }
  }

  /** High latency is a WARNING-severity fault; a DISCONNECTED C2 status raises NET-005. */
  function Rules(id: string, data: ValueMap, now: int): (rules: seq<FaultRule>)
    ensures |rules| == 4 && DistinctRuleCodes(rules)
    ensures forall i :: 0 <= i < |rules| ==> rules[i].fault.active && rules[i].fault.subsystemId == id
    ensures rules[0].fault.severity == CRITICAL && rules[1].fault.severity == CRITICAL
    ensures rules[2].fault.severity == WARNING && rules[3].fault.severity == CRITICAL
    ensures UnitRules(rules, id)
  {
    [ FaultRule("linkUp" in data, !ToBool(Lookup(data, "linkUp")),
                NewFaultCode(FAULT_LINK_DOWN, "Network link down", CRITICAL, id, now)),
      FaultRule("packetLoss" in data, ToDouble(Lookup(data, "packetLoss")) >= PACKET_LOSS_CRITICAL,
                NewFaultCode(FAULT_HIGH_PACKET_LOSS, "High packet loss", CRITICAL, id, now)),
      FaultRule("latency" in data, ToDouble(Lookup(data, "latency")) >= LATENCY_CRITICAL,
                NewFaultCode(FAULT_HIGH_LATENCY, "High network latency", WARNING, id, now)),
      FaultRule("connectionStatus" in data, ToText(Lookup(data, "connectionStatus")) == "DISCONNECTED",
                NewFaultCode(FAULT_C2_DISCONNECT, "C2 system disconnected", CRITICAL, id, now)) ]
  }

  lemma OnDataUpdate(l: Log, id: string, data: ValueMap, now: int)
    requires Valid(l)
    ensures var r := Apply(l, RuleActions(Rules(id, data, now)));
      && Valid(r)
      && Decided(l, r, "linkUp" in data, "NET-001", !ToBool(Lookup(data, "linkUp")))
      && Decided(l, r, "packetLoss" in data, "NET-002", ToDouble(Lookup(data, "packetLoss")) >= 1.0)
      && Decided(l, r, "latency" in data, "NET-003", ToDouble(Lookup(data, "latency")) >= 200.0)
      && Decided(l, r, "connectionStatus" in data, "NET-005",
                 ToText(Lookup(data, "connectionStatus")) == "DISCONNECTED")
      && Untouched(l, r, {"NET-001", "NET-002", "NET-003", "NET-005"})
  {
    var rules := Rules(id, data, now);
    RuleDecided(l, rules, 0);
    RuleDecided(l, rules, 1);
    RuleDecided(l, rules, 2);
    RuleDecided(l, rules, 3);
    RulesUntouched(l, rules, {"NET-001", "NET-002", "NET-003", "NET-005"});
  }
}
