/** The power supply's threshold policy. */
module PowerSupply {
  import opened Values
  import opened HealthStatus
  import opened FaultLog
  import opened Penalties

  const INPUT_VOLTAGE_LOW_WARNING: real := 200.0
  const INPUT_VOLTAGE_LOW_CRITICAL: real := 180.0
  const INPUT_VOLTAGE_HIGH_WARNING: real := 250.0
  const INPUT_VOLTAGE_HIGH_CRITICAL: real := 270.0
  const BATTERY_WARNING: real := 30.0
  const BATTERY_CRITICAL: real := 10.0
  const TEMP_WARNING: real := 50.0
  const TEMP_CRITICAL: real := 65.0

  const FAULT_INPUT_LOW: string := "PSU-001"
  const FAULT_INPUT_HIGH: string := "PSU-002"
  const FAULT_OVERTEMP: string := "PSU-006"
  const FAULT_BATTERY_LOW: string := "PSU-007"

  datatype Reading = Reading(inputVoltage: real, temperature: real, batteryLevel: real, onBattery: bool)

  function ReadingOf(t: ValueMap): Reading {
    Reading(ToDouble(Lookup(t, "inputVoltage")), ToDouble(Lookup(t, "temperature")),
            ToDouble(Lookup(t, "batteryLevel")), ToBool(Lookup(t, "onBattery")))
  }

  predicate Critical(r: Reading) {
    r.inputVoltage <= 180.0 || r.inputVoltage >= 270.0 || r.temperature >= 65.0
    || (r.onBattery && r.batteryLevel <= 10.0)
  }

  /** Running on battery is at least DEGRADED, whatever the charge. */
  function State(enabled: bool, hasFaults: bool, r: Reading): (s: HealthState)
    ensures s == UNKNOWN <==> !enabled
    ensures s == FAIL <==> enabled && Critical(r)
    ensures s == DEGRADED <==>
      enabled && !Critical(r)
      && (r.inputVoltage <= 200.0 || r.inputVoltage >= 250.0 || r.temperature >= 50.0 || r.onBattery || hasFaults)
  {
    if !enabled then UNKNOWN
    else if r.inputVoltage <= INPUT_VOLTAGE_LOW_CRITICAL || r.inputVoltage >= INPUT_VOLTAGE_HIGH_CRITICAL
         || r.temperature >= TEMP_CRITICAL || (r.onBattery && r.batteryLevel <= BATTERY_CRITICAL) then FAIL
    else if r.inputVoltage <= INPUT_VOLTAGE_LOW_WARNING || r.inputVoltage >= INPUT_VOLTAGE_HIGH_WARNING
         || r.temperature >= TEMP_WARNING || (r.onBattery && r.batteryLevel <= BATTERY_WARNING) then DEGRADED
    else if r.onBattery then DEGRADED
    else if hasFaults then DEGRADED
    else OK
  }

  /** Input voltage is penalised on both sides of its normal window. */
  function InputPenalty(v: real): (p: real)
    ensures 0.0 <= p <= 35.0
    ensures p == 35.0 <==> v <= 180.0 || v >= 270.0
    ensures p == 0.0 <==> 250.0 >= v >= 200.0
  {
    if v <= INPUT_VOLTAGE_LOW_CRITICAL || v >= INPUT_VOLTAGE_HIGH_CRITICAL then 35.0
    else if v <= INPUT_VOLTAGE_LOW_WARNING then
      Interpolate(15.0, INPUT_VOLTAGE_LOW_WARNING - v, INPUT_VOLTAGE_LOW_WARNING - INPUT_VOLTAGE_LOW_CRITICAL)
    else if v >= INPUT_VOLTAGE_HIGH_WARNING then
      Interpolate(15.0, v - INPUT_VOLTAGE_HIGH_WARNING, INPUT_VOLTAGE_HIGH_CRITICAL - INPUT_VOLTAGE_HIGH_WARNING)
    else 0.0
  }

  /** Ten points for running on battery, plus the charge penalty. */
  function BatteryPenalty(r: Reading): (p: real)
    ensures !r.onBattery ==> p == 0.0
    ensures r.onBattery ==> 10.0 <= p <= 35.0 && (p == 35.0 <==> r.batteryLevel <= 10.0)
  {
    if r.onBattery then 10.0 + Low(r.batteryLevel, BATTERY_WARNING, BATTERY_CRITICAL, 25.0, 15.0) else 0.0
  }

  function Score(faultCount: nat, r: Reading): (s: real)
    ensures 0.0 <= s <= 100.0
    ensures s == 100.0 <==>
      faultCount == 0 && 200.0 <= r.inputVoltage <= 250.0 && r.temperature <= 50.0 && !r.onBattery
    ensures r.inputVoltage <= 180.0 || r.inputVoltage >= 270.0 ==> s <= 65.0
    ensures r.onBattery ==> s <= 90.0
  {
    Clamp(100.0
      - InputPenalty(r.inputVoltage)
      - High(r.temperature, TEMP_WARNING, TEMP_CRITICAL, 30.0, 15.0)
      - BatteryPenalty(r)
      - FaultPenalty(faultCount))
  }

  /** On battery the message reports the charge and skips the input-voltage warnings. */
  function Status(enabled: bool, r: Reading): (m: string)
    ensures !enabled ==> m == "Power Supply disabled"
    ensures enabled && 180.0 < r.inputVoltage < 270.0 && r.onBattery ==>
      m == (if r.batteryLevel <= 10.0 then "CRITICAL: Battery low (%1%)" else "Running on battery - %1% remaining")
  {
    if !enabled then "Power Supply disabled"
    else if r.inputVoltage <= INPUT_VOLTAGE_LOW_CRITICAL then "CRITICAL: Input voltage low"
    else if r.inputVoltage >= INPUT_VOLTAGE_HIGH_CRITICAL then "CRITICAL: Input voltage high"
    else if r.onBattery then
      (if r.batteryLevel <= BATTERY_CRITICAL then "CRITICAL: Battery low (%1%)" else "Running on battery - %1% remaining")
    else if r.inputVoltage <= INPUT_VOLTAGE_LOW_WARNING then "WARNING: Input voltage low"
    else if r.inputVoltage >= INPUT_VOLTAGE_HIGH_WARNING then "WARNING: Input voltage high"
    else "Normal - %1 kW @ %2% efficiency"
  }

  lemma StatusAgreesWithState(hasFaults: bool, r: Reading)
    ensures StartsWith(Status(true, r), "CRITICAL:") ==> State(true, hasFaults, r) == FAIL
    ensures StartsWith(Status(true, r), "WARNING:") ==> State(true, hasFaults, r) != OK
  {
    var m := Status(true, r);
    if r.inputVoltage <= INPUT_VOLTAGE_LOW_CRITICAL || r.inputVoltage >= INPUT_VOLTAGE_HIGH_CRITICAL {
      NotStartsWith(m, "WARNING:");
    } else if r.onBattery && r.batteryLevel <= BATTERY_CRITICAL {
      NotStartsWith(m, "WARNING:");
    } else if r.onBattery {
      NotStartsWith(m, "CRITICAL:");
      NotStartsWith(m, "WARNING:");
    } else if r.inputVoltage <= INPUT_VOLTAGE_LOW_WARNING || r.inputVoltage >= INPUT_VOLTAGE_HIGH_WARNING {
      NotStartsWith(m, "CRITICAL:");
    } else {
      NotStartsWith(m, "CRITICAL:");
      NotStartsWith(m, "WARNING:");
    }
  }

  /** The battery rule needs both the level and the on-battery flag in one update. */
  function Rules(id: string, data: ValueMap, now: int): (rules: seq<FaultRule>)
    ensures |rules| == 4 && DistinctRuleCodes(rules)
    ensures forall i :: 0 <= i < |rules| ==>
      rules[i].fault.severity == CRITICAL && rules[i].fault.active && rules[i].fault.subsystemId == id
    ensures UnitRules(rules, id)
  {
    var v := ToDouble(Lookup(data, "inputVoltage"));
    [ FaultRule("inputVoltage" in data, v <= INPUT_VOLTAGE_LOW_CRITICAL,
                NewFaultCode(FAULT_INPUT_LOW, "Input voltage low", CRITICAL, id, now)),
      FaultRule("inputVoltage" in data, v >= INPUT_VOLTAGE_HIGH_CRITICAL,
                NewFaultCode(FAULT_INPUT_HIGH, "Input voltage high", CRITICAL, id, now)),
      FaultRule("batteryLevel" in data && "onBattery" in data,
                ToBool(Lookup(data, "onBattery")) && ToDouble(Lookup(data, "batteryLevel")) <= BATTERY_CRITICAL,
                NewFaultCode(FAULT_BATTERY_LOW, "Battery critically low", CRITICAL, id, now)),
      FaultRule("temperature" in data, ToDouble(Lookup(data, "temperature")) >= TEMP_CRITICAL,
                NewFaultCode(FAULT_OVERTEMP, "PSU overtemperature", CRITICAL, id, now)) ]
  }

  lemma OnDataUpdate(l: Log, id: string, data: ValueMap, now: int)
    requires Valid(l)
    ensures var r := Apply(l, RuleActions(Rules(id, data, now)));
      var v := ToDouble(Lookup(data, "inputVoltage"));
      && Valid(r)
      && Decided(l, r, "inputVoltage" in data, "PSU-001", v <= 180.0)
      && Decided(l, r, "inputVoltage" in data, "PSU-002", v >= 270.0)
      && Decided(l, r, "batteryLevel" in data && "onBattery" in data, "PSU-007",
                 ToBool(Lookup(data, "onBattery")) && ToDouble(Lookup(data, "batteryLevel")) <= 10.0)
      && Decided(l, r, "temperature" in data, "PSU-006", ToDouble(Lookup(data, "temperature")) >= 65.0)
      && Untouched(l, r, {"PSU-001", "PSU-002", "PSU-006", "PSU-007"})
  {
    var rules := Rules(id, data, now);
    RuleDecided(l, rules, 0);
    RuleDecided(l, rules, 1);
    RuleDecided(l, rules, 2);
    RuleDecided(l, rules, 3);
    RulesUntouched(l, rules, {"PSU-001", "PSU-002", "PSU-006", "PSU-007"});
  }

  /** A brown-out to 170 V raises PSU-001 and fails the supply; a later 220 V reading clears it. */
  lemma BrownOutScenario(l: Log, id: string, now: int)
    requires Valid(l)
    ensures var low := Apply(l, RuleActions(Rules(id, map["inputVoltage" := Num(170.0)], now)));
      var back := Apply(low, RuleActions(Rules(id, map["inputVoltage" := Num(220.0)], now)));
      && HasCode(low.active, "PSU-001") && !HasCode(low.active, "PSU-002")
      && State(true, true, Reading(170.0, 25.0, 100.0, false)) == FAIL
      && !HasCode(back.active, "PSU-001") && !HasCode(back.active, "PSU-002")
  {
    var d1 := map["inputVoltage" := Num(170.0)];
    var d2 := map["inputVoltage" := Num(220.0)];
    assert Lookup(d1, "inputVoltage") == Num(170.0);
    assert Lookup(d2, "inputVoltage") == Num(220.0);
    OnDataUpdate(l, id, d1, now);
    var low := Apply(l, RuleActions(Rules(id, d1, now)));
    OnDataUpdate(low, id, d2, now);
  }
}
