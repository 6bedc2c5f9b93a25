/**
 * The per-unit health engine: the active fault list, the bounded fault
 * history, the cached state/score/message, the re-entrancy guard around
 * recomputation and the 50 ms notification debounce.
 *
 * Qt signals are appended to `events`; each QTimer::singleShot(0,
 * processHealthData) adds one to `queued` and is run by RunQueued; the
 * single-shot debounce timer is `debounceArmed` and fires in DebounceTimeout.
 */
module Subsystem {
  import opened Wrappers
  import opened Values
  import opened HealthStatus
  import opened Bounded
  import opened FaultLog
  import opened TelemetryData
  import opened Policies

  const SIGNAL_DEBOUNCE_MS: int := 50

  datatype Signal =
    | FaultOccurred(code: string, description: string)
    | FaultCleared(code: string)
    | FaultsChanged
    | EnabledChanged
    | HealthChanged
    | TelemetryChanged
    | StateTransition(from: string, to: string)

  /** The signals one addFault/clearFault call emits, given the list it runs on. */
  function StepSignals(l: Log, a: FaultAction): seq<Signal> {
    match a
    case Raise(f) => if HasCode(l.active, f.code) then [] else [FaultOccurred(f.code, f.description), FaultsChanged]
    case Clear(c) => if HasCode(l.active, c) then [FaultCleared(c), FaultsChanged] else []
  }

  function ApplySignals(l: Log, acts: seq<FaultAction>): seq<Signal>
    decreases |acts|
  {
    if |acts| == 0 then []
    else
      var n := |acts| - 1;
      ApplySignals(l, acts[..n]) + StepSignals(Apply(l, acts[..n]), acts[n])
  }

  /** One more call extends the fault list and the signal trace by one step. */
  lemma ApplyPrefix(l: Log, acts: seq<FaultAction>, i: nat)
    requires i < |acts|
    ensures Apply(l, acts[..i + 1]) == Step(Apply(l, acts[..i]), acts[i])
    ensures ApplySignals(l, acts[..i + 1]) == ApplySignals(l, acts[..i]) + StepSignals(Apply(l, acts[..i]), acts[i])
  {
    assert acts[..i + 1][..i] == acts[..i];
  }

  /** The registry a unit's initializeTelemetryParameters adds, applied over the current one. */
  function Registered(params: map<string, Parameter>, registry: seq<Parameter>): map<string, Parameter>
    decreases |registry|
  {
    if |registry| == 0 then params
    else
      var n := |registry| - 1;
      Registered(params, registry[..n])[registry[n].name := registry[n]]
  }

  /** The last parameter registered under the name. */
  function LastRegistration(registry: seq<Parameter>, name: string): (r: Option<Parameter>)
    ensures r.Some? ==> r.value in registry && r.value.name == name
    ensures r.None? ==> forall i :: 0 <= i < |registry| ==> registry[i].name != name
    decreases |registry|
  {
    if |registry| == 0 then None
    else if registry[|registry| - 1].name == name then Some(registry[|registry| - 1])
    else LastRegistration(registry[..|registry| - 1], name)
  }

  /** Registration overwrites a name with its last registered parameter and leaves every other name alone. */
  lemma {:induction false} RegisteredLookup(params: map<string, Parameter>, registry: seq<Parameter>, name: string)
    ensures LastRegistration(registry, name).Some? ==>
      name in Registered(params, registry)
      && Registered(params, registry)[name] == LastRegistration(registry, name).value
    ensures LastRegistration(registry, name).None? ==>
      (name in Registered(params, registry) <==> name in params)
      && (name in params ==> Registered(params, registry)[name] == params[name])
    decreases |registry|
  {
    if |registry| > 0 {
      RegisteredLookup(params, registry[..|registry| - 1], name);
    }
  }

  /** removeFirst() while the history holds more than cap entries. */
  method Trimmed(history: seq<FaultCode>, cap: nat) returns (h: seq<FaultCode>)
    ensures h == KeepLast(history, cap)
  {
    h := history;
    while |h| > cap
      invariant |h| <= |history| && h == history[|history| - |h|..]
      invariant |h| >= Min(|history|, cap)
      decreases |h|
    {
      h := h[1..];
    }
  }

  /** clearAllFaults' loop: each active fault appended to the history as inactive, in order. */
  method MoveToHistory(history: seq<FaultCode>, active: seq<FaultCode>) returns (h: seq<FaultCode>)
    ensures h == history + AllDeactivated(active)
  {
    h := history;
    var i := 0;
    while i < |active|
      invariant 0 <= i <= |active|
      invariant h == history + AllDeactivated(active[..i])
    {
      assert AllDeactivated(active[..i + 1]) == AllDeactivated(active[..i]) + [active[i].(active := false)];
      Regrouped(history, AllDeactivated(active[..i]), [active[i].(active := false)]);
      h := h + [active[i].(active := false)];
      i := i + 1;
    }
    assert active[..|active|] == active;
  }

  /** The 0.1-point change that counts as a new score. */
  predicate ScoreChanged(before: real, after: real) {
    before - after > 0.1 || after - before > 0.1
  }

  /** One operation on m_mutex by the thread running a health pass. */
  datatype LockOp = Lock | Unlock

  /**
   * m_mutex, a non-recursive QMutex, driven by one thread: Some(held) after
   * the operations, or None once the thread locks it while already holding
   * it, because that lock call then waits on the thread itself for ever.
   */
  function RunLocks(held: bool, ops: seq<LockOp>): Option<bool>
    decreases |ops|
  {
    if ops == [] then Some(held)
    else if ops[0] == Lock && held then None
    else RunLocks(ops[0] == Lock, ops[1..])
  }

  /** n calls of isEnabled(), hasFaults() or getFaultCount(), each locking m_mutex and releasing it on return. */
  function AccessorCalls(n: nat): seq<LockOp> {
    if n == 0 then [] else [Lock, Unlock] + AccessorCalls(n - 1)
  }

  /**
   * The m_mutex operations of computeHealthState, computeHealthScore and
   * computeStatusMessage on one pass.  The base implementation reads the
   * fields itself.  Every unit's override calls isEnabled() at the head of
   * computeHealthState and of computeStatusMessage and getFaultCount() in
   * computeHealthScore, and calls hasFaults() when computeHealthState gets
   * past its telemetry tests.
   */
  function ComputeLocks(p: Policy, reachesFaultTest: bool): seq<LockOp> {
    if p == BasePolicy then [] else AccessorCalls(if reachesFaultTest then 4 else 3)
  }

  /** processHealthData as written: the QMutexLocker, the three compute calls under it, the unlock. */
  function PassLocksAsWritten(p: Policy, reachesFaultTest: bool): seq<LockOp> {
    [Lock] + ComputeLocks(p, reachesFaultTest) + [Unlock]
  }

  /** The pass as the model runs it: the compute calls take the mutex themselves, then the results are stored under it. */
  function PassLocksIntended(p: Policy, reachesFaultTest: bool): seq<LockOp> {
    ComputeLocks(p, reachesFaultTest) + [Lock, Unlock]
  }

  /** Running two stretches of operations one after the other. */
  lemma {:induction false} RunLocksAppend(held: bool, a: seq<LockOp>, b: seq<LockOp>)
    ensures RunLocks(held, a + b) == (match RunLocks(held, a) case None => None case Some(h) => RunLocks(h, b))
    decreases |a|
  {
    if a == [] {
      assert a + b == b;
    } else {
      assert (a + b)[1..] == a[1..] + b;
      if !(a[0] == Lock && held) {
        RunLocksAppend(a[0] == Lock, a[1..], b);
      }
    }
  }

  /** Accessor calls leave a free mutex free, and never return on a held one. */
  lemma {:induction false} AccessorCallsLocks(n: nat)
    ensures RunLocks(false, AccessorCalls(n)) == Some(false)
    ensures RunLocks(true, AccessorCalls(n)) == if n == 0 then Some(true) else None
  {
    if n > 0 {
      AccessorCallsLocks(n - 1);
      RunLocksAppend(false, [Lock, Unlock], AccessorCalls(n - 1));
      RunLocksAppend(true, [Lock, Unlock], AccessorCalls(n - 1));
    }
  }

  /**
   * The pass as written never finishes for any unit's policy: its first
   * isEnabled() locks the mutex the pass already holds.  Only the base
   * implementation, which reads the fields directly, gets through.
   */
  lemma PassAsWrittenBlocks(p: Policy, reachesFaultTest: bool)
    ensures RunLocks(false, PassLocksAsWritten(p, reachesFaultTest)) == None <==> p != BasePolicy
    ensures p == BasePolicy ==> RunLocks(false, PassLocksAsWritten(p, reachesFaultTest)) == Some(false)
  {
    var c := ComputeLocks(p, reachesFaultTest);
    AccessorCallsLocks(if reachesFaultTest then 4 else 3);
    RunLocksAppend(false, [Lock], c + [Unlock]);
    RunLocksAppend(true, c, [Unlock]);
    assert [Lock] + c + [Unlock] == [Lock] + (c + [Unlock]);
  }

  /** The pass as modelled finishes for every policy and leaves the mutex free. */
  lemma PassIntendedReleases(p: Policy, reachesFaultTest: bool)
    ensures RunLocks(false, PassLocksIntended(p, reachesFaultTest)) == Some(false)
  {
    AccessorCallsLocks(if reachesFaultTest then 4 else 3);
    RunLocksAppend(false, ComputeLocks(p, reachesFaultTest), [Lock, Unlock]);
  }

  class RadarSubsystem {
    const id: string
    const policy: Policy
    /** The parameters initializeTelemetryParameters registers. */
    const registry: seq<Parameter>
    const telemetry: Store

    var active: seq<FaultCode>
    var history: seq<FaultCode>
    var enabled: bool
    var state: HealthState
    var score: real
    var message: string

    var processing: bool
    var pending: bool
    /** Deferred processHealthData runs not yet executed. */
    var queued: nat

    var pendingHealthSignal: bool
    var pendingTelemetrySignal: bool
    var debounceArmed: bool
    var lastHealthSignal: int
    var lastTelemetrySignal: int

    var events: seq<Signal>

    /**
     * The history stays bounded, no code is active twice, a pending request
     * implies a pass in progress, and a pending signal implies the debounce
     * timer is armed.
     */
    predicate Valid()
      reads this`active, this`history, this`pending, this`processing
      reads this`pendingHealthSignal, this`pendingTelemetrySignal, this`debounceArmed
    {
      && |history| <= MAX_FAULT_HISTORY
      && FaultLog.UniqueCodes(active)
      && (pending ==> processing)
      && (pendingHealthSignal || pendingTelemetrySignal ==> debounceArmed)
    }

    /** The fault list as a value, with the deferred runs it has scheduled. */
    function Faults(): Log
      reads this`active, this`history, this`queued
    {
      Log(active, history, queued)
    }

    function HasFaults(): bool
      reads this`active
    {
      |active| > 0
    }

    function FaultCount(): nat
      reads this`active
    {
      |active|
    }

    /** getTelemetryValue: an unregistered name reads as Null. */
    function TelemetryValue(name: string): (v: Value)
      reads telemetry`parameters
      ensures name in telemetry.parameters ==> v == telemetry.parameters[name].value
      ensures name !in telemetry.parameters ==> v == Null
    {
      telemetry.GetValue(name)
    }

    /** A new unit: enabled, UNKNOWN, score 100, no faults, and its registry in a fresh store. */
    constructor (id: string, policy: Policy, registry: seq<Parameter>, now: int)
      ensures this.id == id && this.policy == policy && this.registry == registry
      ensures Valid() && fresh(telemetry)
      ensures telemetry.parameters == Registered(map[], registry)
      ensures active == [] && history == [] && enabled
      ensures state == UNKNOWN && score == 100.0 && message == ""
      ensures !processing && !pending && queued == 0
      ensures !pendingHealthSignal && !pendingTelemetrySignal && !debounceArmed
      ensures lastHealthSignal == 0 && lastTelemetrySignal == 0 && events == []
    {
      this.id := id;
      this.policy := policy;
      this.registry := registry;
      var store := new Store(now);
      var i := 0;
      while i < |registry|
        invariant 0 <= i <= |registry|
        invariant store.parameters == Registered(map[], registry[..i])
        modifies store
      {
        assert registry[..i + 1][..i] == registry[..i];
        store.AddParameter(registry[i], now);
        i := i + 1;
      }
      assert registry[..|registry|] == registry;
      telemetry := store;
      active := [];
      history := [];
      enabled := true;
      state := UNKNOWN;
      score := 100.0;
      message := "";
      processing := false;
      pending := false;
      queued := 0;
      pendingHealthSignal := false;
      pendingTelemetrySignal := false;
      debounceArmed := false;
      lastHealthSignal := 0;
      lastTelemetrySignal := 0;
      events := [];
    }

    /** The history after removeFirst() runs while it holds more than 1000 entries. */
    method TrimHistory()
      modifies this`history
      ensures history == KeepLast(old(history), MAX_FAULT_HISTORY)
    {
      history := Trimmed(history, MAX_FAULT_HISTORY);
    }

    /** addFault: ignored when the code is already active; otherwise appended, announced and a recomputation deferred. */
    method AddFault(f: FaultCode)
      requires Valid()
      modifies this`active, this`queued, this`events
      ensures Valid()
      ensures Faults() == FaultLog.AddFault(old(Faults()), f)
      ensures events == old(events) + StepSignals(old(Faults()), Raise(f))
    {
      var i := 0;
      while i < |active|
        invariant 0 <= i <= |active|
        invariant forall j :: 0 <= j < i ==> active[j].code != f.code
      {
        if active[i].code == f.code {
          return;
        }
        i := i + 1;
      }
      active := active + [f];
      events := events + [FaultOccurred(f.code, f.description), FaultsChanged];
      queued := queued + 1;
    }

    /** clearFault: true iff the code was active; the fault moves to the bounded history as inactive. */
    method ClearFault(code: string) returns (found: bool)
      requires Valid()
      modifies this`active, this`history, this`queued, this`events
      ensures Valid()
      ensures found == FaultLog.ClearFault(old(Faults()), code).found
      ensures Faults() == FaultLog.ClearFault(old(Faults()), code).log
      ensures events == old(events) + StepSignals(old(Faults()), Clear(code))
    {
      var i := 0;
      while i < |active|
        invariant 0 <= i <= |active|
        invariant forall j :: 0 <= j < i ==> active[j].code != code
      {
        if active[i].code == code {
          assert i == IndexOfCode(active, code);
          var fault := active[i].(active := false);
          active := active[..i] + active[i + 1..];
          history := history + [fault];
          TrimHistory();
          events := events + [FaultCleared(code), FaultsChanged];
          queued := queued + 1;
          return true;
        }
        i := i + 1;
      }
      assert IndexOfCode(active, code) == |active|;
      return false;
    }

    /** clearAllFaults: every active fault moves to the bounded history; the count is returned. */
    method ClearAllFaults() returns (count: nat)
      requires Valid()
      modifies this`active, this`history, this`queued, this`events
      ensures Valid()
      ensures count == FaultLog.ClearAllFaults(old(Faults())).1
      ensures Faults() == FaultLog.ClearAllFaults(old(Faults())).0
      ensures events == old(events) + (if count > 0 then [FaultsChanged] else [])
    {
      count := |active|;
      var h := MoveToHistory(history, active);
      h := Trimmed(h, MAX_FAULT_HISTORY);
      active, history := [], h;
      if count > 0 {
        events := events + [FaultsChanged];
        queued := queued + 1;
      }
    }

    /** updateFault: activating needs the full fault record, so only deactivation acts. */
    method UpdateFault(code: string, activate: bool)
      requires Valid()
      modifies this`active, this`history, this`queued, this`events
      ensures Valid()
      ensures activate ==> Faults() == old(Faults()) && events == old(events)
      ensures !activate ==> Faults() == FaultLog.ClearFault(old(Faults()), code).log
    {
      if !activate {
        var _ := ClearFault(code);
      }
    }

    /** One addFault or clearFault call. */
    method ApplyAction(a: FaultAction)
      requires Valid()
      modifies this`active, this`history, this`queued, this`events
      ensures Valid()
      ensures Faults() == Step(old(Faults()), a)
      ensures events == old(events) + StepSignals(old(Faults()), a)
    {
      match a {
        case Raise(f) => AddFault(f);
        case Clear(c) => var _ := ClearFault(c);
      }
    }

    /** onDataUpdate's addFault/clearFault calls, in order. */
    method ApplyActions(acts: seq<FaultAction>)
      requires Valid()
      modifies this`active, this`history, this`queued, this`events
      ensures Valid()
      ensures Faults() == Apply(old(Faults()), acts)
      ensures events == old(events) + ApplySignals(old(Faults()), acts)
    {
      ghost var l0 := Faults();
      ghost var e0 := events;
      var i := 0;
      while i < |acts|
        invariant 0 <= i <= |acts|
        invariant Valid()
        invariant Faults() == Apply(l0, acts[..i])
        invariant events == e0 + ApplySignals(l0, acts[..i])
      {
        ghost var before, said := Faults(), events;
        ApplyPrefix(l0, acts, i);
        ApplyAction(acts[i]);
        Regrouped(e0, ApplySignals(l0, acts[..i]), StepSignals(before, acts[i]));
        i := i + 1;
      }
      assert acts[..|acts|] == acts;
    }

    /** getFaultHistory: newest first, at most maxCount entries. */
    method GetFaultHistory(maxCount: int) returns (r: seq<FaultCode>)
      ensures r == NewestFirst(history, maxCount)
      ensures |r| <= |history| && forall i :: 0 <= i < |r| ==> r[i] == history[|history| - 1 - i]
    {
      r := [];
      var count := 0;
      var k := |history|;
      while k > 0 && count < maxCount
        invariant 0 <= k <= |history| && count == |history| - k
        invariant |r| == count && count <= Max(0, maxCount)
        invariant forall i :: 0 <= i < |r| ==> r[i] == history[|history| - 1 - i]
      {
        k := k - 1;
        r := r + [history[k]];
        count := count + 1;
      }
      assert |r| == |NewestFirst(history, maxCount)|;
    }

    /** setEnabled: a change is announced and defers a recomputation; the same value does nothing. */
    method SetEnabled(e: bool)
      requires Valid()
      modifies this`enabled, this`queued, this`events
      ensures Valid() && enabled == e
      ensures old(enabled) == e ==> queued == old(queued) && events == old(events)
      ensures old(enabled) != e ==> queued == old(queued) + 1 && events == old(events) + [EnabledChanged]
    {
      if enabled == e {
        return;
      }
      enabled := e;
      events := events + [EnabledChanged];
      queued := queued + 1;
    }

    /** reset: no active faults, UNKNOWN, score 100, empty message, parameters re-registered; the history stays. */
    method Reset(now: int)
      requires Valid()
      modifies this`active, this`state, this`score, this`message, this`events, telemetry
      ensures Valid()
      ensures active == [] && history == old(history) && queued == old(queued)
      ensures state == UNKNOWN && score == 100.0 && message == ""
      ensures telemetry.parameters == Registered(old(telemetry.parameters), registry)
      ensures events == old(events) + [HealthChanged, FaultsChanged, TelemetryChanged]
    {
      active := [];
      state := UNKNOWN;
      score := 100.0;
      message := "";
      var i := 0;
      ghost var p0 := telemetry.parameters;
      while i < |registry|
        invariant 0 <= i <= |registry|
        invariant telemetry.parameters == Registered(p0, registry[..i])
        modifies telemetry
      {
        assert registry[..i + 1][..i] == registry[..i];
        telemetry.AddParameter(registry[i], now);
        i := i + 1;
      }
      assert registry[..|registry|] == registry;
      events := events + [HealthChanged, FaultsChanged, TelemetryChanged];
    }

    /** The cached state, score and message are the policy's verdict on the current flag, faults and telemetry. */
    predicate HealthCurrent()
      reads this`state, this`score, this`message, this`enabled, this`active, telemetry`parameters
    {
      && state == PolicyState(policy, enabled, active, telemetry.GetData())
      && score == PolicyScore(policy, active, telemetry.GetData())
      && message == PolicyStatus(policy, enabled, active, telemetry.GetData())
    }

    method Recompute() returns (oldState: HealthState, oldScore: real)
      modifies this`state, this`score, this`message
      ensures oldState == old(state) && oldScore == old(score)
      ensures HealthCurrent()
    {
      oldState, oldScore := state, score;
      var t := telemetry.GetData();
      state := PolicyState(policy, enabled, active, t);
      score := PolicyScore(policy, active, t);
      message := PolicyStatus(policy, enabled, active, t);
    }

    /** healthChanged, debounced: sent now if 50 ms have passed since the last one, else left pending on the armed timer. */
    method NotifyHealth(now: int)
      requires Valid()
      modifies this`pendingHealthSignal, this`debounceArmed, this`lastHealthSignal, this`events
      ensures Valid()
      ensures now - old(lastHealthSignal) >= SIGNAL_DEBOUNCE_MS ==>
        && lastHealthSignal == now && events == old(events) + [HealthChanged]
        && pendingHealthSignal == old(pendingHealthSignal) && debounceArmed == old(debounceArmed)
      ensures now - old(lastHealthSignal) < SIGNAL_DEBOUNCE_MS ==>
        && lastHealthSignal == old(lastHealthSignal) && events == old(events)
        && pendingHealthSignal && debounceArmed
    {
      if now - lastHealthSignal >= SIGNAL_DEBOUNCE_MS {
        lastHealthSignal := now;
        events := events + [HealthChanged];
      } else {
        pendingHealthSignal := true;
        if !debounceArmed {
          debounceArmed := true;
        }
      }
    }

    /** telemetryChanged, debounced the same way on the same timer. */
    method NotifyTelemetry(now: int)
      requires Valid()
      modifies this`pendingTelemetrySignal, this`debounceArmed, this`lastTelemetrySignal, this`events
      ensures Valid()
      ensures now - old(lastTelemetrySignal) >= SIGNAL_DEBOUNCE_MS ==>
        && lastTelemetrySignal == now && events == old(events) + [TelemetryChanged]
        && pendingTelemetrySignal == old(pendingTelemetrySignal) && debounceArmed == old(debounceArmed)
      ensures now - old(lastTelemetrySignal) < SIGNAL_DEBOUNCE_MS ==>
        && lastTelemetrySignal == old(lastTelemetrySignal) && events == old(events)
        && pendingTelemetrySignal && debounceArmed
    {
      if now - lastTelemetrySignal >= SIGNAL_DEBOUNCE_MS {
        lastTelemetrySignal := now;
        events := events + [TelemetryChanged];
      } else {
        pendingTelemetrySignal := true;
        if !debounceArmed {
          debounceArmed := true;
        }
      }
    }

    /**
     * processHealthData.  A call made while a pass is running only marks the
     * request pending; otherwise it runs one pass.
     */
    method ProcessHealthData(now: int, reenters: bool)
      requires Valid()
      modifies this`state, this`score, this`message, this`processing, this`pending, this`queued
      modifies this`pendingHealthSignal, this`debounceArmed, this`lastHealthSignal, this`events
      ensures Valid()
      ensures old(processing) ==>
        && pending && processing
        && state == old(state) && score == old(score) && message == old(message) && queued == old(queued)
        && pendingHealthSignal == old(pendingHealthSignal) && debounceArmed == old(debounceArmed)
        && lastHealthSignal == old(lastHealthSignal) && events == old(events)
      ensures !old(processing) ==> PassDone(old(state), old(score), old(queued), old(events), old(lastHealthSignal),
                                            old(pendingHealthSignal), old(debounceArmed), now, reenters)
    {
      if processing {
        MarkPending();
      } else {
        HealthPass(now, reenters);
      }
    }

    /** processHealthData while a pass is running: the guard only records the request. */
    method MarkPending()
      requires Valid() && processing
      modifies this`pending
      ensures Valid() && pending
    {
      pending := true;
    }

    /** The state after one full pass, in terms of the fields before it. */
    predicate PassDone(state0: HealthState, score0: real, queued0: nat, events0: seq<Signal>, last0: int,
                       pendingSignal0: bool, armed0: bool, now: int, reenters: bool)
      reads this`state, this`score, this`message, this`enabled, this`active, telemetry`parameters
      reads this`processing, this`pending, this`queued, this`events
      reads this`lastHealthSignal, this`pendingHealthSignal, this`debounceArmed
    {
      HealthCurrent() && Concluded(state0, score0, queued0, events0, last0, pendingSignal0, armed0, now, reenters)
    }

    /** The guard, the deferred runs and the signals after a pass, given the verdict it reached. */
    predicate Concluded(state0: HealthState, score0: real, queued0: nat, events0: seq<Signal>, last0: int,
                        pendingSignal0: bool, armed0: bool, now: int, reenters: bool)
      reads this`state, this`score, this`processing, this`pending, this`queued, this`events
      reads this`lastHealthSignal, this`pendingHealthSignal, this`debounceArmed
    {
      var changed := state0 != state;
      var notify := changed || ScoreChanged(score0, score);
      var immediate := notify && now - last0 >= SIGNAL_DEBOUNCE_MS;
      && !processing && !pending
      && queued == queued0 + (if changed && reenters then 1 else 0)
      && events == events0
           + (if changed then [StateTransition(HealthStateToString(state0), HealthStateToString(state))] else [])
           + (if immediate then [HealthChanged] else [])
      && lastHealthSignal == (if immediate then now else last0)
      && pendingHealthSignal == (pendingSignal0 || (notify && !immediate))
      && debounceArmed == (armed0 || (notify && !immediate))
    }

    /**
     * One pass: recompute, then announce the result and release the guard.
     */
    method HealthPass(now: int, reenters: bool)
      requires Valid() && !processing
      modifies this`state, this`score, this`message, this`processing, this`pending, this`queued
      modifies this`pendingHealthSignal, this`debounceArmed, this`lastHealthSignal, this`events
      ensures Valid()
      ensures PassDone(old(state), old(score), old(queued), old(events), old(lastHealthSignal),
                       old(pendingHealthSignal), old(debounceArmed), now, reenters)
    {
      processing := true;
      var oldState, oldScore := Recompute();
      Conclude(oldState, oldScore, now, reenters);
    }

    /**
     * The rest of a pass: announce a state change, let a re-entrant listener
     * hit the guard, send the debounced health notification when the state
     * changed or the score moved by more than 0.1, drop the guard and defer
     * the request that arrived meanwhile.
     */
    method Conclude(oldState: HealthState, oldScore: real, now: int, reenters: bool)
      requires Valid() && processing && !pending
      modifies this`processing, this`pending, this`queued
      modifies this`pendingHealthSignal, this`debounceArmed, this`lastHealthSignal, this`events
      ensures Valid()
      ensures Concluded(oldState, oldScore, old(queued), old(events), old(lastHealthSignal),
                        old(pendingHealthSignal), old(debounceArmed), now, reenters)
    {
      Announce(oldState, now, reenters);
      if oldState != state || ScoreChanged(oldScore, score) {
        NotifyHealth(now);
      }
      processing := false;
      if pending {
        pending := false;
        queued := queued + 1;
      }
    }

    /**
     * stateTransition is emitted on a change; a listener that calls
     * processHealthData back from it finds the pass running and so only
     * marks the request pending.
     */
    method Announce(oldState: HealthState, now: int, reenters: bool)
      requires Valid() && processing && !pending
      modifies this`pending, this`events
      ensures Valid() && pending == (oldState != state && reenters)
      ensures events == old(events) + (if oldState != state then [StateTransition(HealthStateToString(oldState), HealthStateToString(state))] else [])
    {
      if oldState != state {
        events := events + [StateTransition(HealthStateToString(oldState), HealthStateToString(state))];
        if reenters {
          MarkPending();
        }
      }
    }

    /** A deferred processHealthData run fires. */
    method RunQueued(now: int, reenters: bool)
      requires Valid() && queued > 0 && !processing
      modifies this`state, this`score, this`message, this`processing, this`pending, this`queued
      modifies this`pendingHealthSignal, this`debounceArmed, this`lastHealthSignal, this`events
      ensures Valid() && !processing && !pending && HealthCurrent()
      ensures queued + 1 >= old(queued) && queued <= old(queued)
    {
      queued := queued - 1;
      ProcessHealthData(now, reenters);
    }

    /** The debounce timer fires: the pending notifications go out in one batch. */
    method DebounceTimeout(now: int)
      requires Valid() && debounceArmed
      modifies this`pendingHealthSignal, this`pendingTelemetrySignal, this`debounceArmed
      modifies this`lastHealthSignal, this`lastTelemetrySignal, this`events
      ensures Valid() && !debounceArmed && !pendingHealthSignal && !pendingTelemetrySignal
      ensures events == old(events) + (if old(pendingHealthSignal) then [HealthChanged] else [])
                                    + (if old(pendingTelemetrySignal) then [TelemetryChanged] else [])
      ensures lastHealthSignal == if old(pendingHealthSignal) then now else old(lastHealthSignal)
      ensures lastTelemetrySignal == if old(pendingTelemetrySignal) then now else old(lastTelemetrySignal)
    {
      debounceArmed := false;
      if pendingHealthSignal {
        pendingHealthSignal := false;
        lastHealthSignal := now;
        events := events + [HealthChanged];
      }
      if pendingTelemetrySignal {
        pendingTelemetrySignal := false;
        lastTelemetrySignal := now;
        events := events + [TelemetryChanged];
      }
    }

    /** The stored values, then the unit's fault rules run against the updated store. */
    method StoreAndCheck(data: ValueMap, now: int)
      requires Valid()
      modifies this`active, this`history, this`queued, this`events, telemetry
      ensures Valid()
      ensures telemetry.parameters == Assigned(old(telemetry.parameters), data, now, data.Keys)
      ensures Faults() == Apply(old(Faults()), RuleActions(PolicyRules(policy, id, data, telemetry.GetData(), now)))
      ensures events == old(events) + ApplySignals(old(Faults()), RuleActions(PolicyRules(policy, id, data, telemetry.GetData(), now)))
    {
      telemetry.SetValues(data, now);
      var t := telemetry.GetData();
      ApplyActions(RuleActions(PolicyRules(policy, id, data, t, now)));
    }

    /** The tail of updateData: the debounced telemetryChanged, then one health pass. */
    method NotifyAndPass(now: int, reenters: bool)
      requires Valid() && !processing
      modifies this`pendingTelemetrySignal, this`debounceArmed, this`lastTelemetrySignal, this`events
      modifies this`state, this`score, this`message, this`processing, this`pending, this`queued
      modifies this`pendingHealthSignal, this`lastHealthSignal
      ensures Valid()
      ensures var sent := now - old(lastTelemetrySignal) >= SIGNAL_DEBOUNCE_MS;
        && lastTelemetrySignal == (if sent then now else old(lastTelemetrySignal))
        && pendingTelemetrySignal == (old(pendingTelemetrySignal) || !sent)
        && PassDone(old(state), old(score), old(queued), old(events) + (if sent then [TelemetryChanged] else []),
                    old(lastHealthSignal), old(pendingHealthSignal), old(debounceArmed) || !sent, now, reenters)
    {
      NotifyTelemetry(now);
      ghost var st, sc, q, e, last, pend, armed := state, score, queued, events, lastHealthSignal, pendingHealthSignal, debounceArmed;
      ProcessHealthData(now, reenters);
      assert PassDone(st, sc, q, e, last, pend, armed, now, reenters);
    }

    /**
     * updateData: store the values, run the unit's fault rules against the
     * updated store, notify telemetry (debounced) and recompute health.
     */
    method UpdateData(data: ValueMap, now: int, reenters: bool)
      requires Valid() && !processing
      modifies this`active, this`history, this`queued, this`events, telemetry
      modifies this`pendingTelemetrySignal, this`debounceArmed, this`lastTelemetrySignal
      modifies this`state, this`score, this`message, this`processing, this`pending
      modifies this`pendingHealthSignal, this`lastHealthSignal
      ensures Valid() && !processing && !pending && HealthCurrent()
      ensures telemetry.parameters == Assigned(old(telemetry.parameters), data, now, data.Keys)
      ensures var acts := RuleActions(PolicyRules(policy, id, data, telemetry.GetData(), now));
        var l := Apply(old(Faults()), acts);
        var sent := now - old(lastTelemetrySignal) >= SIGNAL_DEBOUNCE_MS;
        && active == l.active && history == l.history
        && lastTelemetrySignal == (if sent then now else old(lastTelemetrySignal))
        && pendingTelemetrySignal == (old(pendingTelemetrySignal) || !sent)
        && PassDone(old(state), old(score), l.scheduled,
                    old(events) + ApplySignals(old(Faults()), acts) + (if sent then [TelemetryChanged] else []),
                    old(lastHealthSignal), old(pendingHealthSignal), old(debounceArmed) || !sent, now, reenters)
    {
      StoreAndCheck(data, now);
      NotifyAndPass(now, reenters);
    }
  }
}
