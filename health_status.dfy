/**
 * Shared vocabulary of the health engine: health states, fault severities,
 * subsystem types, the fault record and the health snapshot, and their
 * display names.
 */
module HealthStatus {
  import opened Values

  datatype HealthState = OK | DEGRADED | FAIL | UNKNOWN

  datatype FaultSeverity = INFO | WARNING | CRITICAL | FATAL

  datatype SubsystemType =
    | Transmitter | Receiver | AntennaServo | RFFrontEnd | SignalProcessor
    | DataProcessor | PowerSupply | CoolingSystem | TimingSync | NetworkInterface

  /** The enumerators' integer values. */
  function HealthStateValue(s: HealthState): (n: nat)
    ensures n < 4
    ensures s == OK <==> n == 0
    ensures s == UNKNOWN <==> n == 3
  {
    match s
    case OK => 0
    case DEGRADED => 1
    case FAIL => 2
    case UNKNOWN => 3
  }

  function SeverityValue(s: FaultSeverity): (n: nat)
    ensures n < 4
    ensures s == INFO <==> n == 0
    ensures s == FATAL <==> n == 3
  {
    match s
    case INFO => 0
    case WARNING => 1
    case CRITICAL => 2
    case FATAL => 3
  }

  /** The `>` comparison on severities, which follows the enumerators' values. */
  predicate MoreSevere(a: FaultSeverity, b: FaultSeverity) {
    SeverityValue(a) > SeverityValue(b)
  }

  /** The integer values order the severities INFO < WARNING < CRITICAL < FATAL, and distinct states get distinct values. */
  lemma EnumeratorOrder()
    ensures MoreSevere(WARNING, INFO) && MoreSevere(CRITICAL, WARNING) && MoreSevere(FATAL, CRITICAL)
    ensures forall a, b :: MoreSevere(a, b) ==> !MoreSevere(b, a)
    ensures forall a, b :: SeverityValue(a) == SeverityValue(b) ==> a == b
    ensures forall a, b :: HealthStateValue(a) == HealthStateValue(b) ==> a == b
  {
  }

  /** A fault record.  `timestamp` is the creation time in milliseconds. */
  datatype FaultCode = FaultCode(
    code: string,
    description: string,
    severity: FaultSeverity,
    timestamp: int,
    subsystemId: string,
    active: bool,
    metadata: ValueMap)

  /** The timestamp of a record built without one (an invalid QDateTime). */
  const NO_TIME: int := 0

  /** The default constructor: an inactive INFO fault with empty fields and no timestamp. */
  function DefaultFaultCode(): (f: FaultCode)
    ensures f.severity == INFO && !f.active && f.timestamp == NO_TIME
    ensures f.code == "" && f.subsystemId == "" && f.metadata == map[]
  {
    FaultCode("", "", INFO, NO_TIME, "", false, map[])
  }

  /** The four-argument constructor: always an active fault, stamped with the current time. */
  function NewFaultCode(code: string, description: string, severity: FaultSeverity,
                        subsystemId: string, now: int): (f: FaultCode)
    ensures f.active && f.timestamp == now
    ensures f.code == code && f.description == description
    ensures f.severity == severity && f.subsystemId == subsystemId
    ensures f.metadata == map[]
  {
    FaultCode(code, description, severity, now, subsystemId, true, map[])
  }

  datatype HealthSnapshot = HealthSnapshot(
    state: HealthState,
    healthScore: real,
    timestamp: int,
    telemetry: ValueMap,
    activeFaults: seq<FaultCode>,
    statusMessage: string)

  /** A default snapshot reports UNKNOWN with a full score and nothing else. */
  function DefaultSnapshot(now: int): (s: HealthSnapshot)
    ensures s.state == UNKNOWN && s.healthScore == 100.0
    ensures s.activeFaults == [] && s.telemetry == map[] && s.statusMessage == ""
  {
    HealthSnapshot(UNKNOWN, 100.0, now, map[], [], "")
  }

  function HealthStateToString(s: HealthState): string {
    match s
    case OK => "OK"
    case DEGRADED => "DEGRADED"
    case FAIL => "FAIL"
    case UNKNOWN => "UNKNOWN"
  }

  function FaultSeverityToString(s: FaultSeverity): string {
    match s
    case INFO => "INFO"
    case WARNING => "WARNING"
    case CRITICAL => "CRITICAL"
    case FATAL => "FATAL"
  }

  function SubsystemTypeToString(t: SubsystemType): string {
    match t
    case Transmitter => "Transmitter"
    case Receiver => "Receiver"
    case AntennaServo => "Antenna & Servo"
    case RFFrontEnd => "RF Front-End"
    case SignalProcessor => "Signal Processor"
    case DataProcessor => "Data Processor"
    case PowerSupply => "Power Supply"
    case CoolingSystem => "Cooling System"
    case TimingSync => "Timing & Sync"
    case NetworkInterface => "Network Interface"
  }

  /** The state names are the four distinct strings, so the name determines the state. */
  lemma HealthStateNamesDistinct(a: HealthState, b: HealthState)
    ensures HealthStateToString(a) in {"OK", "DEGRADED", "FAIL", "UNKNOWN"}
    ensures HealthStateToString(a) == HealthStateToString(b) <==> a == b
  {
  }

  lemma SeverityNamesDistinct(a: FaultSeverity, b: FaultSeverity)
    ensures FaultSeverityToString(a) in {"INFO", "WARNING", "CRITICAL", "FATAL"}
    ensures FaultSeverityToString(a) == FaultSeverityToString(b) <==> a == b
  {
  }

  lemma SubsystemTypeNamesDistinct(a: SubsystemType, b: SubsystemType)
    ensures SubsystemTypeToString(a) == SubsystemTypeToString(b) <==> a == b
  {
  }
}
