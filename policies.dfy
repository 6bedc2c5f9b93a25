/**
 * Virtual dispatch of the health engine: which computeHealthState,
 * computeHealthScore, computeStatusMessage and onDataUpdate a unit runs.
 * The base policy is the fault-driven one; each unit type overrides all four
 * with its threshold policy over the stored telemetry.
 */
module Policies {
  import opened Values
  import opened HealthStatus
  import opened FaultLog
  import Transmitter
  import Receiver
  import AntennaServo
  import RFFrontEnd
  import SignalProcessor
  import DataProcessor
  import PowerSupply
  import Cooling
  import TimingSync
  import NetworkInterface

  datatype Policy =
    | BasePolicy
    | TransmitterPolicy | ReceiverPolicy | AntennaServoPolicy | RFFrontEndPolicy | SignalProcessorPolicy
    | DataProcessorPolicy | PowerSupplyPolicy | CoolingPolicy | TimingSyncPolicy | NetworkInterfacePolicy

  /** computeHealthState over the enabled flag, the active faults and the stored telemetry. */
  function PolicyState(p: Policy, enabled: bool, faults: seq<FaultCode>, t: ValueMap): HealthState {
    var hasFaults := |faults| > 0;
    match p
    case BasePolicy => BaseHealthState(enabled, faults)
    case TransmitterPolicy => Transmitter.State(enabled, hasFaults, Transmitter.ReadingOf(t))
    case ReceiverPolicy => Receiver.State(enabled, hasFaults, Receiver.ReadingOf(t))
    case AntennaServoPolicy => AntennaServo.State(enabled, hasFaults, AntennaServo.ReadingOf(t))
    case RFFrontEndPolicy => RFFrontEnd.State(enabled, hasFaults, RFFrontEnd.ReadingOf(t))
    case SignalProcessorPolicy => SignalProcessor.State(enabled, hasFaults, SignalProcessor.ReadingOf(t))
    case DataProcessorPolicy => DataProcessor.State(enabled, hasFaults, DataProcessor.ReadingOf(t))
    case PowerSupplyPolicy => PowerSupply.State(enabled, hasFaults, PowerSupply.ReadingOf(t))
    case CoolingPolicy => Cooling.State(enabled, hasFaults, Cooling.ReadingOf(t))
    case TimingSyncPolicy => TimingSync.State(enabled, hasFaults, TimingSync.ReadingOf(t))
    case NetworkInterfacePolicy => NetworkInterface.State(enabled, hasFaults, NetworkInterface.ReadingOf(t))
  }

  /** computeHealthScore; no policy looks at the enabled flag here. */
  function PolicyScore(p: Policy, faults: seq<FaultCode>, t: ValueMap): real {
    var n := |faults|;
    match p
    case BasePolicy => BaseHealthScore(faults)
    case TransmitterPolicy => Transmitter.Score(n, Transmitter.ReadingOf(t))
    case ReceiverPolicy => Receiver.Score(n, Receiver.ReadingOf(t))
    case AntennaServoPolicy => AntennaServo.Score(n, AntennaServo.ReadingOf(t))
    case RFFrontEndPolicy => RFFrontEnd.Score(n, RFFrontEnd.ReadingOf(t))
    case SignalProcessorPolicy => SignalProcessor.Score(n, SignalProcessor.ReadingOf(t))
    case DataProcessorPolicy => DataProcessor.Score(n, DataProcessor.ReadingOf(t))
    case PowerSupplyPolicy => PowerSupply.Score(n, PowerSupply.ReadingOf(t))
    case CoolingPolicy => Cooling.Score(n, Cooling.ReadingOf(t))
    case TimingSyncPolicy => TimingSync.Score(n, TimingSync.ReadingOf(t))
    case NetworkInterfacePolicy => NetworkInterface.Score(n, NetworkInterface.ReadingOf(t))
  }

  function PolicyStatus(p: Policy, enabled: bool, faults: seq<FaultCode>, t: ValueMap): string {
    match p
    case BasePolicy => BaseStatusMessage(enabled, faults)
    case TransmitterPolicy => Transmitter.Status(enabled, Transmitter.ReadingOf(t))
    case ReceiverPolicy => Receiver.Status(enabled, Receiver.ReadingOf(t))
    case AntennaServoPolicy => AntennaServo.Status(enabled, AntennaServo.ReadingOf(t))
    case RFFrontEndPolicy => RFFrontEnd.Status(enabled, RFFrontEnd.ReadingOf(t))
    case SignalProcessorPolicy => SignalProcessor.Status(enabled, SignalProcessor.ReadingOf(t))
    case DataProcessorPolicy => DataProcessor.Status(enabled, DataProcessor.ReadingOf(t))
    case PowerSupplyPolicy => PowerSupply.Status(enabled, PowerSupply.ReadingOf(t))
    case CoolingPolicy => Cooling.Status(enabled, Cooling.ReadingOf(t))
    case TimingSyncPolicy => TimingSync.Status(enabled, TimingSync.ReadingOf(t))
    case NetworkInterfacePolicy => NetworkInterface.Status(enabled, NetworkInterface.ReadingOf(t))
  }

  /**
   * onDataUpdate as fault rules; the base policy has none.  Only the transmitter reads stored telemetry.
   * One rule per fault code, each raising an active fault of its own unit.
   */
  function PolicyRules(p: Policy, id: string, data: ValueMap, t: ValueMap, now: int): (rules: seq<FaultRule>)
    ensures UnitRules(rules, id)
  {
    match p
    case BasePolicy => []
    case TransmitterPolicy => Transmitter.Rules(id, data, t, now)
    case ReceiverPolicy => Receiver.Rules(id, data, now)
    case AntennaServoPolicy => AntennaServo.Rules(id, data, now)
    case RFFrontEndPolicy => RFFrontEnd.Rules(id, data, now)
    case SignalProcessorPolicy => SignalProcessor.Rules(id, data, now)
    case DataProcessorPolicy => DataProcessor.Rules(id, data, now)
    case PowerSupplyPolicy => PowerSupply.Rules(id, data, now)
    case CoolingPolicy => Cooling.Rules(id, data, now)
    case TimingSyncPolicy => TimingSync.Rules(id, data, now)
    case NetworkInterfacePolicy => NetworkInterface.Rules(id, data, now)
  }

  /** What every policy shares: UNKNOWN exactly when disabled, and a score within [0, 100]. */
  lemma PolicyBounds(p: Policy, enabled: bool, faults: seq<FaultCode>, t: ValueMap)
    ensures PolicyState(p, enabled, faults, t) == UNKNOWN <==> !enabled
    ensures 0.0 <= PolicyScore(p, faults, t) <= 100.0
  {
  }

  /** A unit's active faults can make it DEGRADED but never FAIL; only telemetry fails a unit. */
  lemma FaultsNeverFailAUnit(p: Policy, enabled: bool, faults: seq<FaultCode>, t: ValueMap)
    requires p != BasePolicy
    ensures PolicyState(p, enabled, faults, t) == FAIL <==> PolicyState(p, enabled, [], t) == FAIL
    ensures PolicyState(p, enabled, [], t) == DEGRADED ==> PolicyState(p, enabled, faults, t) == DEGRADED
    ensures |faults| > 0 && PolicyState(p, enabled, [], t) == OK ==> PolicyState(p, enabled, faults, t) == DEGRADED
  {
  }

  /** Under the base policy, a CRITICAL fault alone decides FAIL. */
  lemma BaseFailsOnSevereFault(enabled: bool, faults: seq<FaultCode>, f: FaultCode, t: ValueMap)
    requires enabled && IsSevere(f.severity)
    ensures PolicyState(BasePolicy, enabled, faults + [f], t) == FAIL
  {
    assert (faults + [f])[|faults|] == f;
  }

  /** onDataUpdate keeps the fault list well formed and decides every code it names. */
  lemma DataUpdateDecides(p: Policy, l: Log, id: string, data: ValueMap, t: ValueMap, now: int, code: string)
    requires Valid(l)
    ensures var rules := PolicyRules(p, id, data, t, now);
      var r := Apply(l, RuleActions(rules));
      && Valid(r)
      && ((forall i :: 0 <= i < |rules| ==> rules[i].fault.code != code) ==>
            (HasCode(r.active, code) <==> HasCode(l.active, code)))
      && (forall i :: 0 <= i < |rules| && rules[i].fault.code == code ==>
            (HasCode(r.active, code) <==>
              if rules[i].applies then rules[i].raise else HasCode(l.active, code)))
  {
    RulesDecide(l, PolicyRules(p, id, data, t, now), code);
  }
}
