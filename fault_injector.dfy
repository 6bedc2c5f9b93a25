/**
 * The fault injector of the simulator: a table of injected faults keyed by
 * (unit, code), a table of faults waiting on a one-shot delay timer, and the
 * auto-recovery timers of the injected faults that clear themselves.
 *
 * Timers are numbered as they are created; a timer firing is an operation
 * that names its number.  The units the subsystem manager holds are a
 * parameter, and what the injector asks of them is logged alongside its own
 * signals, in the order it happens.  A clear is a direct call on the unit;
 * an add is a request by name through QMetaObject::invokeMethod, which
 * finds no invokable addFault on the unit (it is a protected member, not a
 * slot or Q_INVOKABLE): DeliveredAsWritten and DeliveredIntended say what
 * each request does to the unit's fault list.
 */
module Injector {
  import opened Wrappers
  import opened Values
  import opened HealthStatus
  import opened KeyOrder
  import FaultManager
  import FaultLog

  type FaultKey = FaultManager.FaultKey

  /** FaultConfig; `severity` keeps the raw enumerator value, as the cast from an int does. */
  datatype FaultConfig = FaultConfig(
    subsystemId: string,
    faultCode: string,
    severity: int,
    durationMs: int,
    delayMs: int,
    autoRecover: bool)

  datatype InjectorEvent =
    | RequestAddFault(subsystemId: string, code: string, description: string, severity: int, timestamp: int)
    | ClearFromUnit(subsystemId: string, code: string)
    | TimerStarted(timer: nat, ms: int)
    | FaultInjected(subsystemId: string, code: string)
    | FaultCleared(subsystemId: string, code: string)
    | FaultsChanged
    | ScenarioStarted(name: string)
    | ScenarioCompleted(name: string)

  /** The injector's tables: active faults, delayed faults by timer, recovery timers by key. */
  datatype InjectorState = InjectorState(
    active: map<FaultKey, FaultConfig>,
    scheduled: map<nat, FaultConfig>,
    recovery: map<FaultKey, nat>,
    nextTimer: nat)

  /** The new tables and what was emitted on the way. */
  datatype Step = Step(state: InjectorState, emitted: seq<InjectorEvent>)

  const WARNING_LEVEL: int := 1
  const CRITICAL_LEVEL: int := 2

  function KeyOf(c: FaultConfig): FaultKey {
    FaultManager.FaultKey(c.subsystemId, c.faultCode)
  }

  /** The configuration injectFault builds: a permanent warning, injected at once. */
  function Manual(subsystemId: string, faultCode: string): FaultConfig {
    FaultConfig(subsystemId, faultCode, WARNING_LEVEL, 0, 0, false)
  }

  /** The configuration scheduleFault stores: a permanent warning after the delay. */
  function Delayed(subsystemId: string, faultCode: string, delayMs: int): FaultConfig {
    FaultConfig(subsystemId, faultCode, WARNING_LEVEL, 0, delayMs, false)
  }

  /** A stored delayed fault: a permanent warning without auto-recovery. */
  predicate IsDelayed(c: FaultConfig) {
    c.severity == WARNING_LEVEL && c.durationMs == 0 && !c.autoRecover
  }

  /** The fault gets a recovery timer. */
  predicate Armed(c: FaultConfig) {
    c.autoRecover && c.durationMs > 0
  }

  /** value(key, default): the default only when the key is absent. */
  function IntOr(m: ValueMap, key: string, default: int): int {
    if key in m then ToInt(m[key]) else default
  }

  /** The configuration injectFaultWithConfig reads from its map. */
  function ConfigOf(m: ValueMap): (c: FaultConfig)
    ensures "severity" !in m ==> c.severity == WARNING_LEVEL
    ensures "delayMs" !in m ==> c.delayMs == 0
    ensures "durationMs" !in m && "autoRecover" !in m ==> !Armed(c)
  {
    FaultConfig(
      ToText(Lookup(m, "subsystemId")),
      ToText(Lookup(m, "faultCode")),
      IntOr(m, "severity", 1),
      IntOr(m, "durationMs", 0),
      IntOr(m, "delayMs", 0),
      if "autoRecover" in m then ToBool(m["autoRecover"]) else false)
  }

  /**
   * The invariant the operations keep: each entry sits under its own key,
   * delayed entries are plain warnings, recovery timers belong to armed
   * active faults, and every timer number is issued once.
   */
  ghost predicate Consistent(s: InjectorState) {
    && (forall k :: k in s.active ==> KeyOf(s.active[k]) == k)
    && (forall t :: t in s.scheduled ==> t < s.nextTimer && IsDelayed(s.scheduled[t]))
    && (forall k :: k in s.recovery ==> k in s.active && Armed(s.active[k]))
    && (forall k :: k in s.recovery ==> s.recovery[k] < s.nextTimer && s.recovery[k] !in s.scheduled)
    && (forall k1, k2 :: k1 in s.recovery && k2 in s.recovery && s.recovery[k1] == s.recovery[k2] ==> k1 == k2)
  }

  function Empty(): (s: InjectorState)
    ensures Consistent(s) && s.active == map[] && s.scheduled == map[]
  {
    InjectorState(map[], map[], map[], 0)
  }

  /** doInjectFault: a no-op for an active key; otherwise records, tells the unit, arms recovery. */
  function Inject(s: InjectorState, c: FaultConfig, units: set<string>, now: int): Step {
    var key := KeyOf(c);
    if key in s.active then Step(s, [])
    else
      var added := s.(active := s.active[key := c]);
      var toUnit := if c.subsystemId in units
        then [RequestAddFault(c.subsystemId, c.faultCode, "Injected fault: " + c.faultCode, c.severity, now)]
        else [];
      var done := [FaultInjected(c.subsystemId, c.faultCode), FaultsChanged];
      if Armed(c) then
        Step(added.(recovery := s.recovery[key := s.nextTimer], nextTimer := s.nextTimer + 1),
             toUnit + [TimerStarted(s.nextTimer, c.durationMs)] + done)
      else Step(added, toUnit + done)
  }

  /** scheduleFault: a new one-shot timer holding a permanent warning, whatever was asked for. */
  function Schedule(s: InjectorState, subsystemId: string, faultCode: string, delayMs: int): Step {
    Step(s.(scheduled := s.scheduled[s.nextTimer := Delayed(subsystemId, faultCode, delayMs)],
            nextTimer := s.nextTimer + 1),
         [TimerStarted(s.nextTimer, delayMs)])
  }

  /** A configuration with a positive delay is scheduled; any other is injected at once. */
  function Apply(s: InjectorState, c: FaultConfig, units: set<string>, now: int): Step {
    if c.delayMs > 0 then Schedule(s, c.subsystemId, c.faultCode, c.delayMs) else Inject(s, c, units, now)
  }

  /** clearFault: only a present key is removed, with its recovery timer, and only then announced. */
  function Clear(s: InjectorState, subsystemId: string, faultCode: string, units: set<string>): Step {
    var key := FaultManager.FaultKey(subsystemId, faultCode);
    if key !in s.active then Step(s, [])
    else
      Step(s.(active := s.active - {key}, recovery := s.recovery - {key}),
           (if subsystemId in units then [ClearFromUnit(subsystemId, faultCode)] else [])
           + [FaultCleared(subsystemId, faultCode), FaultsChanged])
  }

  /** The active keys whose fault belongs to the unit. */
  function UnitKeys(active: map<FaultKey, FaultConfig>, subsystemId: string): set<FaultKey> {
    set k | k in active && active[k].subsystemId == subsystemId
  }

  /** clearAllFaults(id): the tables without the unit's faults and their timers. */
  function ClearUnit(s: InjectorState, subsystemId: string): InjectorState {
    var gone := UnitKeys(s.active, subsystemId);
    s.(active := s.active - gone, recovery := s.recovery - gone)
  }

  /** clearAllFaults(): no active fault and no recovery timer; delayed faults stay. */
  function ClearEverything(s: InjectorState): InjectorState {
    s.(active := map[], recovery := map[])
  }

  /** What clearing one key tells the unit and the listeners. */
  function ClearedOne(k: FaultKey, units: set<string>): seq<InjectorEvent> {
    (if k.subsystemId in units then [ClearFromUnit(k.subsystemId, k.code)] else [])
    + [FaultCleared(k.subsystemId, k.code)]
  }

  /** The announcements of clearing the keys in the order visited. */
  function ClearedAlong(order: seq<FaultKey>, units: set<string>): seq<InjectorEvent>
    decreases |order|
  {
    if order == [] then []
    else ClearedAlong(order[..|order| - 1], units) + ClearedOne(order[|order| - 1], units)
  }

  /** A fired delay timer: taken out of the table, then its fault injected. */
  function FireScheduled(s: InjectorState, timer: nat, units: set<string>, now: int): Step {
    if timer !in s.scheduled then Step(s, [])
    else Inject(s.(scheduled := s.scheduled - {timer}), s.scheduled[timer], units, now)
  }

  /** The key a recovery timer belongs to, if any. */
  ghost function Owner(recovery: map<FaultKey, nat>, timer: nat): (r: Option<FaultKey>)
    ensures r.Some? ==> r.value in recovery && recovery[r.value] == timer
    ensures r.None? ==> forall k :: k in recovery ==> recovery[k] != timer
  {
    if exists k :: k in recovery && recovery[k] == timer
    then Some(var k :| k in recovery && recovery[k] == timer; k)
    else None
  }

  /** A fired recovery timer clears the fault it belongs to. */
  ghost function FireRecovery(s: InjectorState, timer: nat, units: set<string>): Step {
    match Owner(s.recovery, timer)
    case None => Step(s, [])
    case Some(k) =>
      if k in s.active then Clear(s, s.active[k].subsystemId, s.active[k].faultCode, units) else Step(s, [])
  }

  /** The configurations of a scenario applied in turn. */
  function RunAlong(s: InjectorState, cs: seq<FaultConfig>, units: set<string>, now: int): Step
    decreases |cs|
  {
    if cs == [] then Step(s, [])
    else
      var first := Apply(s, cs[0], units, now);
      var rest := RunAlong(first.state, cs[1..], units, now);
      Step(rest.state, first.emitted + rest.emitted)
  }

  /** The severity a raw level names; levels outside 0 to 3 take the nearest enumerator. */
  function SeverityOfLevel(n: int): (s: FaultSeverity)
    ensures 0 <= n < 4 ==> SeverityValue(s) as int == n
  {
    if n <= 0 then INFO else if n == 1 then WARNING else if n == 2 then CRITICAL else FATAL
  }

  /** The record doInjectFault builds for the unit behind an add request. */
  function RequestedFault(e: InjectorEvent): FaultCode
    requires e.RequestAddFault?
  {
    FaultCode(e.code, e.description, SeverityOfLevel(e.severity), e.timestamp, e.subsystemId, true, map[])
  }

  /**
   * One request as it reaches the unit with the given id in the source: a
   * clear is the unit's own clearFault and takes effect, while an add request
   * finds no invokable method and changes nothing.
   */
  function ReachesAsWritten(l: FaultLog.Log, id: string, e: InjectorEvent): FaultLog.Log {
    match e
    case ClearFromUnit(u, code) => if u == id then FaultLog.ClearFault(l, code).log else l
    case _ => l
  }

  /** One request as the injector evidently means it: an add request runs the unit's addFault. */
  function ReachesIntended(l: FaultLog.Log, id: string, e: InjectorEvent): FaultLog.Log {
    match e
    case RequestAddFault(u, _, _, _, _) => if u == id then FaultLog.AddFault(l, RequestedFault(e)) else l
    case _ => ReachesAsWritten(l, id, e)
  }

  /** The unit's fault list after the requests, as the source delivers them. */
  function DeliveredAsWritten(l: FaultLog.Log, id: string, emitted: seq<InjectorEvent>): FaultLog.Log
    decreases |emitted|
  {
    if emitted == [] then l else DeliveredAsWritten(ReachesAsWritten(l, id, emitted[0]), id, emitted[1..])
  }

  /** The unit's fault list after the requests, with add requests reaching the unit. */
  function DeliveredIntended(l: FaultLog.Log, id: string, emitted: seq<InjectorEvent>): FaultLog.Log
    decreases |emitted|
  {
    if emitted == [] then l else DeliveredIntended(ReachesIntended(l, id, emitted[0]), id, emitted[1..])
  }

  predicate NoClear(emitted: seq<InjectorEvent>) {
    forall i :: 0 <= i < |emitted| ==> !emitted[i].ClearFromUnit?
  }

  /** As written, requests without a clear leave the unit's fault list as it was. */
  lemma {:induction false} NoClearNoChange(l: FaultLog.Log, id: string, emitted: seq<InjectorEvent>)
    requires NoClear(emitted)
    ensures DeliveredAsWritten(l, id, emitted) == l
    decreases |emitted|
  {
    if emitted != [] {
      assert !emitted[0].ClearFromUnit?;
      assert NoClear(emitted[1..]) by {
        forall i | 0 <= i < |emitted[1..]| ensures !emitted[1..][i].ClearFromUnit? {
          assert emitted[1..][i] == emitted[i + 1];
        }
      }
      NoClearNoChange(l, id, emitted[1..]);
    }
  }

  /** Under the intended delivery, requests without a clear never take an active code away. */
  lemma {:induction false} NoClearKeeps(l: FaultLog.Log, id: string, emitted: seq<InjectorEvent>, code: string)
    requires FaultLog.HasCode(l.active, code) && NoClear(emitted)
    ensures FaultLog.HasCode(DeliveredIntended(l, id, emitted).active, code)
    decreases |emitted|
  {
    if emitted != [] {
      var l1 := ReachesIntended(l, id, emitted[0]);
      assert !emitted[0].ClearFromUnit?;
      assert FaultLog.HasCode(l1.active, code) by {
        var i :| 0 <= i < |l.active| && l.active[i].code == code;
        if l1 != l {
          assert l1.active == l.active + [RequestedFault(emitted[0])];
          assert l1.active[i] == l.active[i];
        }
      }
      assert NoClear(emitted[1..]) by {
        forall i | 0 <= i < |emitted[1..]| ensures !emitted[1..][i].ClearFromUnit? {
          assert emitted[1..][i] == emitted[i + 1];
        }
      }
      NoClearKeeps(l1, id, emitted[1..], code);
    }
  }

  /** What an injection of a new key asks of the units contains no clear. */
  lemma InjectNoClear(s: InjectorState, c: FaultConfig, units: set<string>, now: int)
    ensures NoClear(Inject(s, c, units, now).emitted)
  {
  }

  /**
   * As written, an injection records the fault and announces it, yet the
   * unit's fault list is left as it was: the unit never has the code.
   */
  lemma InjectMissesUnit(s: InjectorState, c: FaultConfig, units: set<string>, now: int, l: FaultLog.Log)
    requires KeyOf(c) !in s.active
    ensures KeyOf(c) in Inject(s, c, units, now).state.active
    ensures FaultInjected(c.subsystemId, c.faultCode) in Inject(s, c, units, now).emitted
    ensures DeliveredAsWritten(l, c.subsystemId, Inject(s, c, units, now).emitted) == l
  {
    InjectNoClear(s, c, units, now);
    NoClearNoChange(l, c.subsystemId, Inject(s, c, units, now).emitted);
  }

  /** As intended, the injected code is active in the unit afterwards. */
  lemma InjectReachesUnit(s: InjectorState, c: FaultConfig, units: set<string>, now: int, l: FaultLog.Log)
    requires KeyOf(c) !in s.active && c.subsystemId in units
    ensures FaultLog.HasCode(DeliveredIntended(l, c.subsystemId, Inject(s, c, units, now).emitted).active, c.faultCode)
  {
    var e := Inject(s, c, units, now).emitted;
    InjectNoClear(s, c, units, now);
    assert e[0].RequestAddFault? && e[0].subsystemId == c.subsystemId && e[0].code == c.faultCode;
    var l1 := ReachesIntended(l, c.subsystemId, e[0]);
    assert l1 == FaultLog.AddFault(l, RequestedFault(e[0]));
    assert FaultLog.HasCode(l1.active, c.faultCode) by {
      if !FaultLog.HasCode(l.active, c.faultCode) {
        assert l1.active[|l.active|] == RequestedFault(e[0]);
      }
    }
    assert NoClear(e[1..]) by {
      forall i | 0 <= i < |e[1..]| ensures !e[1..][i].ClearFromUnit? {
        assert e[1..][i] == e[i + 1];
      }
    }
    NoClearKeeps(l1, c.subsystemId, e[1..], c.faultCode);
  }

  /** clearFault does reach the unit: afterwards the code is not active there. */
  lemma ClearReachesUnit(s: InjectorState, subsystemId: string, faultCode: string, units: set<string>, l: FaultLog.Log)
    requires FaultManager.FaultKey(subsystemId, faultCode) in s.active && subsystemId in units && FaultLog.Valid(l)
    ensures !FaultLog.HasCode(DeliveredAsWritten(l, subsystemId, Clear(s, subsystemId, faultCode, units).emitted).active, faultCode)
  {
    var e := Clear(s, subsystemId, faultCode, units).emitted;
    var l1 := FaultLog.ClearFault(l, faultCode).log;
    FaultLog.ClearFaultEffect(l, faultCode);
    assert e[0] == ClearFromUnit(subsystemId, faultCode);
    assert DeliveredAsWritten(l, subsystemId, e) == DeliveredAsWritten(l1, subsystemId, e[1..]);
    assert NoClear(e[1..]) by {
      assert e[1..] == [FaultCleared(subsystemId, faultCode), FaultsChanged];
    }
    NoClearNoChange(l1, subsystemId, e[1..]);
  }

  /** The predefined scenarios; fields the table leaves unset are read as 0 and false. */
  function Scenarios(): map<string, seq<FaultConfig>> {
    map[
      "TransmitterOverheat" := [FaultConfig("TX-001", "TX-004", CRITICAL_LEVEL, 30000, 0, true)],
      "PowerFailure" := [FaultConfig("PSU-001", "PSU-001", CRITICAL_LEVEL, 0, 0, false)],
      "GPSLoss" := [FaultConfig("TIME-001", "TIME-001", CRITICAL_LEVEL, 60000, 0, true)],
      "NetworkDegradation" := [FaultConfig("NET-001", "NET-002", WARNING_LEVEL, 0, 0, false)],
      "CascadingFailure" := [
        FaultConfig("TX-001", "TX-003", WARNING_LEVEL, 0, 0, false),
        FaultConfig("COOL-001", "COOL-001", WARNING_LEVEL, 0, 5000, false),
        FaultConfig("SP-001", "SP-001", WARNING_LEVEL, 0, 10000, false)]
    ]
  }

  // ---------------------------------------------------------------------
  // The invariant is kept by every operation.

  lemma InjectConsistent(s: InjectorState, c: FaultConfig, units: set<string>, now: int)
    requires Consistent(s)
    ensures Consistent(Inject(s, c, units, now).state)
  {
  }

  lemma ScheduleConsistent(s: InjectorState, subsystemId: string, faultCode: string, delayMs: int)
    requires Consistent(s)
    ensures Consistent(Schedule(s, subsystemId, faultCode, delayMs).state)
  {
  }

  lemma ApplyConsistent(s: InjectorState, c: FaultConfig, units: set<string>, now: int)
    requires Consistent(s)
    ensures Consistent(Apply(s, c, units, now).state)
  {
    if c.delayMs > 0 {
      ScheduleConsistent(s, c.subsystemId, c.faultCode, c.delayMs);
    } else {
      InjectConsistent(s, c, units, now);
    }
  }

  lemma ClearConsistent(s: InjectorState, subsystemId: string, faultCode: string, units: set<string>)
    requires Consistent(s)
    ensures Consistent(Clear(s, subsystemId, faultCode, units).state)
  {
  }

  lemma ClearUnitConsistent(s: InjectorState, subsystemId: string)
    requires Consistent(s)
    ensures Consistent(ClearUnit(s, subsystemId))
  {
  }

  lemma FireScheduledConsistent(s: InjectorState, timer: nat, units: set<string>, now: int)
    requires Consistent(s)
    ensures Consistent(FireScheduled(s, timer, units, now).state)
  {
    if timer in s.scheduled {
      var taken := s.(scheduled := s.scheduled - {timer});
      assert Consistent(taken);
      InjectConsistent(taken, s.scheduled[timer], units, now);
    }
  }

  lemma {:induction false} RunAlongConsistent(s: InjectorState, cs: seq<FaultConfig>, units: set<string>, now: int)
    requires Consistent(s)
    ensures Consistent(RunAlong(s, cs, units, now).state)
    decreases |cs|
  {
    if cs != [] {
      ApplyConsistent(s, cs[0], units, now);
      RunAlongConsistent(Apply(s, cs[0], units, now).state, cs[1..], units, now);
    }
  }

  // ---------------------------------------------------------------------
  // What each operation does.

  /**
   * Injecting is a no-op for an active key; otherwise exactly that key gains
   * the configuration, and a recovery timer appears exactly when it is armed.
   */
  lemma InjectSpec(s: InjectorState, c: FaultConfig, units: set<string>, now: int)
    requires Consistent(s)
    ensures var r := Inject(s, c, units, now).state;
      && KeyOf(c) in r.active
      && r.active[KeyOf(c)] == (if KeyOf(c) in s.active then s.active[KeyOf(c)] else c)
      && (forall k :: k != KeyOf(c) ==> (k in r.active <==> k in s.active))
      && r.scheduled == s.scheduled
      && (KeyOf(c) in r.recovery <==> KeyOf(c) in s.recovery || (KeyOf(c) !in s.active && Armed(c)))
    ensures KeyOf(c) in s.active <==> Inject(s, c, units, now) == Step(s, [])
  {
  }

  /** A second injection of the same configuration changes nothing. */
  lemma InjectTwice(s: InjectorState, c: FaultConfig, units: set<string>, now: int, later: int)
    ensures var once := Inject(s, c, units, now).state;
      Inject(once, c, units, later) == Step(once, [])
  {
  }

  /** injectFault: a permanent warning that never arms a recovery timer and schedules nothing. */
  lemma ManualSpec(s: InjectorState, subsystemId: string, faultCode: string, units: set<string>, now: int)
    requires Consistent(s)
    ensures var r := Inject(s, Manual(subsystemId, faultCode), units, now).state;
      && r.recovery == s.recovery && r.scheduled == s.scheduled && r.nextTimer == s.nextTimer
      && (FaultManager.FaultKey(subsystemId, faultCode) !in s.active ==>
            r.active[FaultManager.FaultKey(subsystemId, faultCode)].severity == SeverityValue(WARNING) as int)
  {
  }

  /**
   * A positive delay schedules instead of injecting: the active faults are
   * untouched and the new delayed entry is a warning, whatever was configured.
   */
  lemma DelayedSpec(s: InjectorState, c: FaultConfig, units: set<string>, now: int)
    requires Consistent(s) && c.delayMs > 0
    ensures var r := Apply(s, c, units, now).state;
      && r.active == s.active && r.recovery == s.recovery
      && s.nextTimer !in s.scheduled
      && r.scheduled.Keys == s.scheduled.Keys + {s.nextTimer}
      && r.scheduled[s.nextTimer].severity == SeverityValue(WARNING) as int
      && r.scheduled[s.nextTimer].subsystemId == c.subsystemId
      && r.scheduled[s.nextTimer].faultCode == c.faultCode
  {
  }

  /** A delay timer is consumed once: it leaves the table, and a second firing does nothing. */
  lemma FireScheduledOnce(s: InjectorState, timer: nat, units: set<string>, now: int, later: int)
    ensures var once := FireScheduled(s, timer, units, now).state;
      && timer !in once.scheduled
      && FireScheduled(once, timer, units, later) == Step(once, [])
      && (timer in s.scheduled ==> once.scheduled == s.scheduled - {timer})
  {
  }

  /** clearFault: removes the key and its timer exactly when present, and announces only then. */
  lemma ClearSpec(s: InjectorState, subsystemId: string, faultCode: string, units: set<string>)
    requires Consistent(s)
    ensures var key := FaultManager.FaultKey(subsystemId, faultCode);
      var r := Clear(s, subsystemId, faultCode, units);
      && r.state.active == s.active - {key}
      && r.state.recovery == s.recovery - {key}
      && r.state.scheduled == s.scheduled
      && (r.emitted != [] <==> key in s.active)
  {
    var r := Clear(s, subsystemId, faultCode, units);
    if FaultManager.FaultKey(subsystemId, faultCode) in s.active {
      assert r.emitted[|r.emitted| - 1] == FaultsChanged;
    }
  }

  /** clearAllFaults(id) takes away exactly that unit's faults and timers. */
  lemma ClearUnitExact(s: InjectorState, subsystemId: string)
    requires Consistent(s)
    ensures var r := ClearUnit(s, subsystemId);
      && (forall k :: k in r.active <==> k in s.active && k.subsystemId != subsystemId)
      && (forall k :: k in r.active ==> r.active[k] == s.active[k])
      && (forall k :: k in r.recovery <==> k in s.recovery && k.subsystemId != subsystemId)
      && r.scheduled == s.scheduled
  {
    var r := ClearUnit(s, subsystemId);
    forall k
      ensures k in r.active <==> k in s.active && k.subsystemId != subsystemId
    {
      if k in s.active {
        assert KeyOf(s.active[k]) == k;
      }
    }
    forall k
      ensures k in r.recovery <==> k in s.recovery && k.subsystemId != subsystemId
    {
      if k in s.recovery {
        assert KeyOf(s.active[k]) == k;
      }
    }
  }

  /** A recovery timer clears exactly the fault it was armed for. */
  lemma FireRecoverySpec(s: InjectorState, k: FaultKey, units: set<string>)
    requires Consistent(s) && k in s.recovery
    ensures FireRecovery(s, s.recovery[k], units) == Clear(s, k.subsystemId, k.code, units)
    ensures FireRecovery(s, s.recovery[k], units).state.active == s.active - {k}
  {
    assert Owner(s.recovery, s.recovery[k]) == Some(k);
    assert KeyOf(s.active[k]) == k;
  }

  /** A timer that belongs to no fault does nothing when it fires. */
  lemma FireStrayTimer(s: InjectorState, timer: nat, units: set<string>)
    requires forall k :: k in s.recovery ==> s.recovery[k] != timer
    ensures FireRecovery(s, timer, units) == Step(s, [])
  {
  }

  /** The scenario table lists every scenario's delayed entries as warnings once scheduled. */
  lemma RunAlongKeepsDelayedWarnings(s: InjectorState, cs: seq<FaultConfig>, units: set<string>, now: int)
    requires Consistent(s)
    ensures forall t :: t in RunAlong(s, cs, units, now).state.scheduled ==>
      RunAlong(s, cs, units, now).state.scheduled[t].severity == SeverityValue(WARNING) as int
  {
    RunAlongConsistent(s, cs, units, now);
  }

  /** The cascading scenario injects the VSWR fault at once and schedules the other two. */
  lemma CascadeSpec(s: InjectorState, units: set<string>, now: int)
    requires Consistent(s) && s.active == map[]
    ensures var r := RunAlong(s, Scenarios()["CascadingFailure"], units, now).state;
      && r.active.Keys == {FaultManager.FaultKey("TX-001", "TX-003")}
      && r.scheduled.Keys == s.scheduled.Keys + {s.nextTimer, s.nextTimer + 1}
      && r.scheduled[s.nextTimer] == Delayed("COOL-001", "COOL-001", 5000)
      && r.scheduled[s.nextTimer + 1] == Delayed("SP-001", "SP-001", 10000)
  {
    var cs := Scenarios()["CascadingFailure"];
    var s1 := Apply(s, cs[0], units, now).state;
    var s2 := Apply(s1, cs[1], units, now).state;
    var s3 := Apply(s2, cs[2], units, now).state;
    assert cs[1..][1..][1..] == [];
    assert RunAlong(s2, cs[1..][1..], units, now).state == s3;
    assert RunAlong(s1, cs[1..], units, now).state == s3;
  }

  /** The table holds five scenarios under these names. */
  lemma ScenarioNames()
    ensures Scenarios().Keys == {"TransmitterOverheat", "PowerFailure", "GPSLoss", "NetworkDegradation", "CascadingFailure"}
    ensures |Scenarios().Keys| == 5
  {
  }

  lemma ClearedAlongSnoc(order: seq<FaultKey>, k: FaultKey, units: set<string>)
    ensures ClearedAlong(order + [k], units) == ClearedAlong(order, units) + ClearedOne(k, units)
  {
    assert (order + [k])[..|order|] == order;
  }

  /** Every key appears exactly once in the listing. */
  ghost predicate Lists(r: seq<FaultKey>, s: set<FaultKey>) {
    && (forall k :: k in r <==> k in s)
    && (forall i, j :: 0 <= i < j < |r| ==> r[i] != r[j])
  }

  /** The keys of a set in an order the model leaves open (the map's own iteration order). */
  method ListKeys(s: set<FaultKey>) returns (r: seq<FaultKey>)
    ensures Lists(r, s)
  {
    r := [];
    var todo := s;
    while todo != {}
      invariant todo <= s
      invariant forall k :: k in r <==> k in s && k !in todo
      invariant forall i, j :: 0 <= i < j < |r| ==> r[i] != r[j]
      decreases |todo|
    {
      var k :| k in todo;
      r := r + [k];
      todo := todo - {k};
    }
  }

  /** The announcements for a listing of keys, one key at a time. */
  method AnnounceCleared(keys: seq<FaultKey>, units: set<string>) returns (emitted: seq<InjectorEvent>)
    ensures emitted == ClearedAlong(keys, units)
  {
    emitted := [];
    var i := 0;
    while i < |keys|
      invariant 0 <= i <= |keys|
      invariant emitted == ClearedAlong(keys[..i], units)
    {
      assert keys[..i + 1] == keys[..i] + [keys[i]];
      ClearedAlongSnoc(keys[..i], keys[i], units);
      var k := keys[i];
      if k.subsystemId in units {
        emitted := emitted + [ClearFromUnit(k.subsystemId, k.code)];
      }
      emitted := emitted + [FaultCleared(k.subsystemId, k.code)];
      i := i + 1;
    }
    assert keys[..i] == keys;
  }

  class FaultInjector {
    var active: map<FaultKey, FaultConfig>
    var scheduled: map<nat, FaultConfig>
    var recovery: map<FaultKey, nat>
    var nextTimer: nat
    var events: seq<InjectorEvent>

    function Contents(): InjectorState
      reads this`active, this`scheduled, this`recovery, this`nextTimer
    {
      InjectorState(active, scheduled, recovery, nextTimer)
    }

    ghost predicate Valid()
      reads this`active, this`scheduled, this`recovery, this`nextTimer
    {
      Consistent(Contents())
    }

    constructor ()
      ensures Valid() && Contents() == Empty() && events == []
    {
      active := map[];
      scheduled := map[];
      recovery := map[];
      nextTimer := 0;
      events := [];
    }

    method DoInjectFault(c: FaultConfig, units: set<string>, now: int)
      requires Valid()
      modifies this`active, this`recovery, this`nextTimer, this`events
      ensures Valid()
      ensures Contents() == Inject(old(Contents()), c, units, now).state
      ensures events == old(events) + Inject(old(Contents()), c, units, now).emitted
    {
      ghost var s0 := Contents();
      InjectConsistent(s0, c, units, now);
      var key := KeyOf(c);
      if key in active {
        return;
      }
      active := active[key := c];
      var emitted := [];
      if c.subsystemId in units {
        emitted := [RequestAddFault(c.subsystemId, c.faultCode, "Injected fault: " + c.faultCode, c.severity, now)];
      }
      if c.autoRecover && c.durationMs > 0 {
        recovery := recovery[key := nextTimer];
        emitted := emitted + [TimerStarted(nextTimer, c.durationMs)];
        nextTimer := nextTimer + 1;
      }
      events := events + (emitted + [FaultInjected(c.subsystemId, c.faultCode), FaultsChanged]);
    }

    method InjectFault(subsystemId: string, faultCode: string, units: set<string>, now: int)
      requires Valid()
      modifies this`active, this`recovery, this`nextTimer, this`events
      ensures Valid()
      ensures Contents() == Inject(old(Contents()), Manual(subsystemId, faultCode), units, now).state
      ensures events == old(events) + Inject(old(Contents()), Manual(subsystemId, faultCode), units, now).emitted
    {
      DoInjectFault(Manual(subsystemId, faultCode), units, now);
    }

    method ScheduleFault(subsystemId: string, faultCode: string, delayMs: int)
      requires Valid()
      modifies this`scheduled, this`nextTimer, this`events
      ensures Valid()
      ensures Contents() == Schedule(old(Contents()), subsystemId, faultCode, delayMs).state
      ensures events == old(events) + Schedule(old(Contents()), subsystemId, faultCode, delayMs).emitted
    {
      ScheduleConsistent(Contents(), subsystemId, faultCode, delayMs);
      scheduled := scheduled[nextTimer := Delayed(subsystemId, faultCode, delayMs)];
      events := events + [TimerStarted(nextTimer, delayMs)];
      nextTimer := nextTimer + 1;
    }

    /** One configuration: scheduled when it has a positive delay, injected otherwise. */
    method ApplyConfig(c: FaultConfig, units: set<string>, now: int)
      requires Valid()
      modifies this`active, this`scheduled, this`recovery, this`nextTimer, this`events
      ensures Valid()
      ensures Contents() == Apply(old(Contents()), c, units, now).state
      ensures events == old(events) + Apply(old(Contents()), c, units, now).emitted
    {
      if c.delayMs > 0 {
        ScheduleFault(c.subsystemId, c.faultCode, c.delayMs);
      } else {
        DoInjectFault(c, units, now);
      }
    }

    method InjectFaultWithConfig(configMap: ValueMap, units: set<string>, now: int)
      requires Valid()
      modifies this`active, this`scheduled, this`recovery, this`nextTimer, this`events
      ensures Valid()
      ensures Contents() == Apply(old(Contents()), ConfigOf(configMap), units, now).state
      ensures events == old(events) + Apply(old(Contents()), ConfigOf(configMap), units, now).emitted
    {
      ApplyConfig(ConfigOf(configMap), units, now);
    }

    method ClearFault(subsystemId: string, faultCode: string, units: set<string>)
      requires Valid()
      modifies this`active, this`recovery, this`events
      ensures Valid()
      ensures Contents() == Clear(old(Contents()), subsystemId, faultCode, units).state
      ensures events == old(events) + Clear(old(Contents()), subsystemId, faultCode, units).emitted
    {
      ClearConsistent(Contents(), subsystemId, faultCode, units);
      var key := FaultManager.FaultKey(subsystemId, faultCode);
      if key in active {
        active := active - {key};
        if subsystemId in units {
          events := events + [ClearFromUnit(subsystemId, faultCode)];
        }
        recovery := recovery - {key};
        events := events + [FaultCleared(subsystemId, faultCode), FaultsChanged];
      }
    }

    /** clearAllFaults(id): lists the unit's keys, then takes each out with its timer. */
    method ClearAllFaultsOf(subsystemId: string, units: set<string>) returns (ghost order: seq<FaultKey>)
      requires Valid()
      modifies this`active, this`recovery, this`events
      ensures Valid()
      ensures Contents() == ClearUnit(old(Contents()), subsystemId)
      ensures Lists(order, UnitKeys(old(active), subsystemId))
      ensures events == old(events) + ClearedAlong(order, units) + (if |order| > 0 then [FaultsChanged] else [])
    {
      ClearUnitConsistent(Contents(), subsystemId);
      var gone := UnitKeys(active, subsystemId);
      var keysToRemove := ListKeys(gone);
      assert forall k :: k in gone ==> KeyOf(active[k]) == k;
      var emitted := AnnounceCleared(keysToRemove, units);
      active := active - gone;
      recovery := recovery - gone;
      events := events + emitted;
      order := keysToRemove;
      if |keysToRemove| > 0 {
        events := events + [FaultsChanged];
      }
    }

    /** clearAllFaults(): every active fault is announced, then both tables are emptied. */
    method ClearAllFaults(units: set<string>) returns (ghost order: seq<FaultKey>)
      requires Valid()
      modifies this`active, this`recovery, this`events
      ensures Valid()
      ensures Contents() == ClearEverything(old(Contents()))
      ensures Lists(order, old(active).Keys)
      ensures events == old(events) + ClearedAlong(order, units) + [FaultsChanged]
    {
      var keys := ListKeys(active.Keys);
      var emitted := AnnounceCleared(keys, units);
      order := keys;
      active := map[];
      recovery := map[];
      events := events + emitted + [FaultsChanged];
    }

    /** The entries of a scenario applied in turn. */
    method ApplyAll(faults: seq<FaultConfig>, units: set<string>, now: int)
      requires Valid()
      modifies this`active, this`scheduled, this`recovery, this`nextTimer, this`events
      ensures Valid()
      ensures Contents() == RunAlong(old(Contents()), faults, units, now).state
      ensures events == old(events) + RunAlong(old(Contents()), faults, units, now).emitted
    {
      ghost var s0 := Contents();
      ghost var e0 := events;
      var i := 0;
      while i < |faults|
        invariant 0 <= i <= |faults|
        invariant Valid()
        invariant RunAlong(Contents(), faults[i..], units, now).state == RunAlong(s0, faults, units, now).state
        invariant events + RunAlong(Contents(), faults[i..], units, now).emitted
          == e0 + RunAlong(s0, faults, units, now).emitted
      {
        assert faults[i..][1..] == faults[i + 1..];
        ApplyConfig(faults[i], units, now);
        i := i + 1;
      }
    }

    /** runScenario: an unknown name does nothing; otherwise each entry is applied in turn. */
    method RunScenario(name: string, units: set<string>, now: int)
      requires Valid()
      modifies this`active, this`scheduled, this`recovery, this`nextTimer, this`events
      ensures Valid()
      ensures name !in Scenarios() ==> Contents() == old(Contents()) && events == old(events)
      ensures name in Scenarios() ==>
        && Contents() == RunAlong(old(Contents()), Scenarios()[name], units, now).state
        && events == old(events) + [ScenarioStarted(name)]
             + RunAlong(old(Contents()), Scenarios()[name], units, now).emitted + [ScenarioCompleted(name)]
    {
      var table := Scenarios();
      if name !in table {
        return;
      }
      events := events + [ScenarioStarted(name)];
      ApplyAll(table[name], units, now);
      events := events + [ScenarioCompleted(name)];
    }

    /** getAvailableScenarios: the scenario names in key order. */
    method GetAvailableScenarios() returns (r: seq<string>)
      ensures r == Ordered(Scenarios().Keys)
      ensures |r| == 5 && forall n :: n in r <==> n in Scenarios()
    {
      r := SortedKeys(Scenarios().Keys);
      ScenarioNames();
    }

    /** getInjectedFaults, as the set of active configurations. */
    function InjectedFaults(): (r: set<FaultConfig>)
      reads this`active
      ensures forall c :: c in r <==> exists k :: k in active && active[k] == c
    {
      set k | k in active :: active[k]
    }

    /** hasFault: the pair is among the injected faults. */
    function HasFault(subsystemId: string, faultCode: string): (r: bool)
      requires Valid()
      reads this`active, this`scheduled, this`recovery, this`nextTimer
      ensures r <==> exists c :: c in InjectedFaults() && c.subsystemId == subsystemId && c.faultCode == faultCode
    {
      var key := FaultManager.FaultKey(subsystemId, faultCode);
      assert key in active ==> active[key] in InjectedFaults() && KeyOf(active[key]) == key;
      key in active
    }

    function InjectedFaultCount(): (n: nat)
      reads this`active
      ensures n == 0 <==> InjectedFaults() == {}
    {
      assert forall k :: k in active ==> active[k] in InjectedFaults();
      |active|
    }

    /** isActive: some fault is injected. */
    function IsActive(): (r: bool)
      reads this`active
      ensures r <==> InjectedFaultCount() > 0
    {
      active != map[]
    }

    /** onScheduledFault: a timer not in the table is ignored; otherwise its entry is taken and injected. */
    method OnScheduledFault(timer: nat, units: set<string>, now: int)
      requires Valid()
      modifies this`active, this`scheduled, this`recovery, this`nextTimer, this`events
      ensures Valid()
      ensures Contents() == FireScheduled(old(Contents()), timer, units, now).state
      ensures events == old(events) + FireScheduled(old(Contents()), timer, units, now).emitted
    {
      FireScheduledConsistent(Contents(), timer, units, now);
      if timer !in scheduled {
        return;
      }
      var config := scheduled[timer];
      scheduled := scheduled - {timer};
      DoInjectFault(config, units, now);
    }

    /** onFaultTimeout: the fault the timer belongs to is cleared, if it is still active. */
    method OnFaultTimeout(timer: nat, units: set<string>)
      requires Valid()
      modifies this`active, this`recovery, this`events
      ensures Valid()
      ensures Contents() == FireRecovery(old(Contents()), timer, units).state
      ensures events == old(events) + FireRecovery(old(Contents()), timer, units).emitted
    {
      if k :| k in recovery && recovery[k] == timer {
        assert Owner(recovery, timer) == Some(k);
        if k in active {
          var config := active[k];
          ClearFault(config.subsystemId, config.faultCode, units);
        }
      }
    }
  }
}
