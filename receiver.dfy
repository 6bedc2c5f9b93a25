/** The receiver's threshold policy. */
module Receiver {
  import opened Values
  import opened HealthStatus
  import opened FaultLog
  import opened Penalties

  const NOISE_FIGURE_WARNING: real := 4.0
  const NOISE_FIGURE_CRITICAL: real := 6.0
  const GAIN_WARNING_LOW: real := 25.0
  const GAIN_CRITICAL_LOW: real := 20.0
  const TEMP_WARNING: real := 55.0
  const TEMP_CRITICAL: real := 70.0

  const FAULT_NOISE_FIGURE_HIGH: string := "RX-001"
  const FAULT_GAIN_LOW: string := "RX-002"
  const FAULT_OVERTEMP: string := "RX-006"

  datatype Reading = Reading(noiseFigure: real, gain: real, temperature: real)

  function ReadingOf(t: ValueMap): Reading {
    Reading(ToDouble(Lookup(t, "noiseFigure")), ToDouble(Lookup(t, "gain")), ToDouble(Lookup(t, "temperature")))
  }

  function State(enabled: bool, hasFaults: bool, r: Reading): (s: HealthState)
    ensures s == UNKNOWN <==> !enabled
    ensures s == FAIL <==> enabled && (r.noiseFigure >= 6.0 || r.gain <= 20.0 || r.temperature >= 70.0)
    ensures s == DEGRADED <==>
      enabled && !(r.noiseFigure >= 6.0 || r.gain <= 20.0 || r.temperature >= 70.0)
      && (r.noiseFigure >= 4.0 || r.gain <= 25.0 || r.temperature >= 55.0 || hasFaults)
  {
    if !enabled then UNKNOWN
    else if r.noiseFigure >= NOISE_FIGURE_CRITICAL || r.gain <= GAIN_CRITICAL_LOW || r.temperature >= TEMP_CRITICAL then FAIL
    else if r.noiseFigure >= NOISE_FIGURE_WARNING || r.gain <= GAIN_WARNING_LOW || r.temperature >= TEMP_WARNING then DEGRADED
    else if hasFaults then DEGRADED
    else OK
  }

  function Score(faultCount: nat, r: Reading): (s: real)
    ensures 0.0 <= s <= 100.0
    ensures s == 100.0 <==> faultCount == 0 && r.noiseFigure <= 4.0 && r.gain >= 25.0 && r.temperature <= 55.0
    ensures r.noiseFigure >= 6.0 || r.gain <= 20.0 ==> s <= 65.0
    ensures r.temperature >= 70.0 ==> s <= 70.0
  {
    Clamp(100.0
      - High(r.noiseFigure, NOISE_FIGURE_WARNING, NOISE_FIGURE_CRITICAL, 35.0, 15.0)
      - Low(r.gain, GAIN_WARNING_LOW, GAIN_CRITICAL_LOW, 35.0, 15.0)
      - High(r.temperature, TEMP_WARNING, TEMP_CRITICAL, 30.0, 15.0)
      - FaultPenalty(faultCount))
  }

  /** Lower gain never scores higher. */
  lemma ScoreFallsWithGain(faultCount: nat, r: Reading, lower: real)
    requires lower <= r.gain
    ensures Score(faultCount, r.(gain := lower)) <= Score(faultCount, r)
  {
    LowAntitone(lower, r.gain, GAIN_WARNING_LOW, GAIN_CRITICAL_LOW, 35.0, 15.0);
  }

  /** Priority: critical noise figure, critical gain, warning noise figure, warning gain. */
  function Status(enabled: bool, r: Reading): (m: string)
    ensures !enabled ==> m == "Receiver disabled"
    ensures enabled && r.noiseFigure >= 6.0 ==> m == "CRITICAL: High noise figure"
    ensures enabled && r.noiseFigure < 6.0 && r.gain <= 20.0 ==> m == "CRITICAL: Low gain - LNA failure"
  {
    if !enabled then "Receiver disabled"
    else if r.noiseFigure >= NOISE_FIGURE_CRITICAL then "CRITICAL: High noise figure"
    else if r.gain <= GAIN_CRITICAL_LOW then "CRITICAL: Low gain - LNA failure"
    else if r.noiseFigure >= NOISE_FIGURE_WARNING then "WARNING: Elevated noise figure"
    else if r.gain <= GAIN_WARNING_LOW then "WARNING: Reduced gain"
    else "Receiving - NF: %1 dB, Gain: %2 dB"
  }

  lemma StatusAgreesWithState(hasFaults: bool, r: Reading)
    ensures StartsWith(Status(true, r), "CRITICAL:") ==> State(true, hasFaults, r) == FAIL
    ensures StartsWith(Status(true, r), "WARNING:") ==> State(true, hasFaults, r) != OK
  {
    var m := Status(true, r);
    if r.noiseFigure >= NOISE_FIGURE_CRITICAL || r.gain <= GAIN_CRITICAL_LOW {
      NotStartsWith(m, "WARNING:");
    } else if r.noiseFigure >= NOISE_FIGURE_WARNING || r.gain <= GAIN_WARNING_LOW {
      NotStartsWith(m, "CRITICAL:");
    } else {
      NotStartsWith(m, "CRITICAL:");
      NotStartsWith(m, "WARNING:");
    }
  }

  function Rules(id: string, data: ValueMap, now: int): (rules: seq<FaultRule>)
    ensures |rules| == 3 && DistinctRuleCodes(rules)
    ensures forall i :: 0 <= i < |rules| ==>
      rules[i].fault.severity == CRITICAL && rules[i].fault.active && rules[i].fault.subsystemId == id
    ensures UnitRules(rules, id)
  {
    [ FaultRule("noiseFigure" in data, ToDouble(Lookup(data, "noiseFigure")) >= NOISE_FIGURE_CRITICAL,
                NewFaultCode(FAULT_NOISE_FIGURE_HIGH, "High noise figure", CRITICAL, id, now)),
      FaultRule("gain" in data, ToDouble(Lookup(data, "gain")) <= GAIN_CRITICAL_LOW,
                NewFaultCode(FAULT_GAIN_LOW, "Low receiver gain", CRITICAL, id, now)),
      FaultRule("temperature" in data, ToDouble(Lookup(data, "temperature")) >= TEMP_CRITICAL,
                NewFaultCode(FAULT_OVERTEMP, "Receiver overtemperature", CRITICAL, id, now)) ]
  }

  lemma OnDataUpdate(l: Log, id: string, data: ValueMap, now: int)
    requires Valid(l)
    ensures var r := Apply(l, RuleActions(Rules(id, data, now)));
      && Valid(r)
      && Decided(l, r, "noiseFigure" in data, "RX-001", ToDouble(Lookup(data, "noiseFigure")) >= 6.0)
      && Decided(l, r, "gain" in data, "RX-002", ToDouble(Lookup(data, "gain")) <= 20.0)
      && Decided(l, r, "temperature" in data, "RX-006", ToDouble(Lookup(data, "temperature")) >= 70.0)
      && Untouched(l, r, {"RX-001", "RX-002", "RX-006"})
  {
    var rules := Rules(id, data, now);
    RuleDecided(l, rules, 0);
    RuleDecided(l, rules, 1);
    RuleDecided(l, rules, 2);
    RulesUntouched(l, rules, {"RX-001", "RX-002", "RX-006"});
  }
}
