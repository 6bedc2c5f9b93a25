/**
 * The subsystem manager: the registry of units, the on-canvas list the
 * operator works with, the shared fault ledger, and the system health
 * aggregated over the canvas.
 *
 * The manager reads three things from each registered unit: whether it is
 * enabled, its health state and its health score.  The model keeps, in the
 * registry, the status (`UnitStatus`) each unit last announced through
 * healthChanged (OnSubsystemHealthChanged) and aggregates those.  The
 * source reads the three values live from the unit at every recompute, so
 * the two differ once a unit's score or enabled flag has moved without a
 * healthChanged.
 */
module SubsystemManager {
  import opened Wrappers
  import opened HealthStatus
  import FaultManager

  /** What the manager reads of a unit: isEnabled, getHealthState, getHealthScore. */
  datatype UnitStatus = UnitStatus(enabled: bool, state: HealthState, score: real)

  /** A unit handed to registerSubsystem: its id and its status. */
  datatype Unit = Unit(id: string, status: UnitStatus)

  datatype ManagerSignal =
    | SubsystemsChanged
    | ActiveSubsystemsChanged
    | SystemHealthChanged
    | SubsystemHealthChanged(subsystemId: string)
    | SubsystemFaultOccurred(subsystemId: string, code: string)

  predicate NoDuplicates(s: seq<string>) {
    forall i, j :: 0 <= i < j < |s| ==> s[i] != s[j]
  }

  /** QList::removeAll: every occurrence of x goes, the rest keep their order. */
  function RemoveAll(s: seq<string>, x: string): (r: seq<string>)
    ensures |r| <= |s|
    decreases |s|
  {
    if |s| == 0 then []
    else if s[0] == x then RemoveAll(s[1..], x)
    else [s[0]] + RemoveAll(s[1..], x)
  }

  /** removeAll keeps exactly the other ids, keeps a duplicate-free list so, and returns it unchanged when x is absent. */
  lemma {:induction false} RemoveAllSpec(s: seq<string>, x: string)
    ensures forall y :: y in RemoveAll(s, x) <==> y in s && y != x
    ensures x !in s ==> RemoveAll(s, x) == s
    ensures x in s ==> |RemoveAll(s, x)| < |s|
    ensures NoDuplicates(s) ==> NoDuplicates(RemoveAll(s, x)) && |RemoveAll(s, x)| == |s| - (if x in s then 1 else 0)
    decreases |s|
  {
    if |s| > 0 {
      RemoveAllSpec(s[1..], x);
      assert s == [s[0]] + s[1..];
      if NoDuplicates(s) {
        assert s[0] !in s[1..] by {
          forall j | 0 <= j < |s[1..]|
            ensures s[1..][j] != s[0]
          {
            assert s[1..][j] == s[j + 1];
          }
        }
        assert NoDuplicates(s[1..]) by {
          forall i, j | 0 <= i < j < |s[1..]|
            ensures s[1..][i] != s[1..][j]
          {
            assert s[1..][i] == s[i + 1] && s[1..][j] == s[j + 1];
          }
        }
        var r := RemoveAll(s, x);
        if s[0] != x {
          assert r == [s[0]] + RemoveAll(s[1..], x);
          forall i, j | 0 <= i < j < |r|
            ensures r[i] != r[j]
          {
            if i == 0 {
              assert r[j] == RemoveAll(s[1..], x)[j - 1];
              assert r[j] in RemoveAll(s[1..], x);
            } else {
              assert r[i] == RemoveAll(s[1..], x)[i - 1] && r[j] == RemoveAll(s[1..], x)[j - 1];
            }
          }
        }
      }
    }
  }

  /** The statuses of the registered, enabled units on the canvas, in canvas order. */
  function EnabledOnCanvas(canvas: seq<string>, units: map<string, UnitStatus>): seq<UnitStatus>
    decreases |canvas|
  {
    if |canvas| == 0 then []
    else
      var rest := EnabledOnCanvas(canvas[..|canvas| - 1], units);
      var id := canvas[|canvas| - 1];
      if id in units && units[id].enabled then rest + [units[id]] else rest
  }

  function AnyIn(en: seq<UnitStatus>, s: HealthState): bool
    decreases |en|
  {
    |en| > 0 && (AnyIn(en[..|en| - 1], s) || en[|en| - 1].state == s)
  }

  function SumScores(en: seq<UnitStatus>): real
    decreases |en|
  {
    if |en| == 0 then 0.0 else SumScores(en[..|en| - 1]) + en[|en| - 1].score
  }

  /** computeSystemHealth's state: FAIL over DEGRADED over OK; UNKNOWN with no enabled unit on the canvas. */
  function AggregateState(canvas: seq<string>, units: map<string, UnitStatus>): HealthState {
    if |canvas| == 0 then UNKNOWN
    else
      var en := EnabledOnCanvas(canvas, units);
      if AnyIn(en, FAIL) then FAIL
      else if AnyIn(en, DEGRADED) then DEGRADED
      else if |en| > 0 then OK
      else UNKNOWN
  }

  /** computeSystemHealth's score: the mean over the enabled canvas units, 100 with none. */
  function MeanScore(canvas: seq<string>, units: map<string, UnitStatus>): real {
    if |canvas| == 0 then 100.0
    else
      var en := EnabledOnCanvas(canvas, units);
      if |en| > 0 then SumScores(en) / (|en| as real) else 100.0
  }

  /** Some enabled, registered unit on the canvas is in state s. */
  ghost predicate SomeEnabledIn(canvas: seq<string>, units: map<string, UnitStatus>, s: HealthState) {
    exists i :: 0 <= i < |canvas| && canvas[i] in units && units[canvas[i]].enabled && units[canvas[i]].state == s
  }

  /** Some registered unit on the canvas is enabled. */
  ghost predicate SomeEnabled(canvas: seq<string>, units: map<string, UnitStatus>) {
    exists i :: 0 <= i < |canvas| && canvas[i] in units && units[canvas[i]].enabled
  }

  /** The enabled statuses are exactly those of the enabled registered canvas units. */
  lemma {:induction false} EnabledOnCanvasMembers(canvas: seq<string>, units: map<string, UnitStatus>)
    ensures forall u :: u in EnabledOnCanvas(canvas, units) <==>
      exists i :: 0 <= i < |canvas| && canvas[i] in units && units[canvas[i]].enabled && units[canvas[i]] == u
    ensures forall u :: u in EnabledOnCanvas(canvas, units) ==> u in units.Values && u.enabled
    decreases |canvas|
  {
    if |canvas| > 0 {
      var n := |canvas| - 1;
      var front := canvas[..n];
      EnabledOnCanvasMembers(front, units);
      forall u | u in EnabledOnCanvas(canvas, units)
        ensures exists i :: 0 <= i < |canvas| && canvas[i] in units && units[canvas[i]].enabled && units[canvas[i]] == u
      {
        if u !in EnabledOnCanvas(front, units) {
          assert canvas[n] in units && units[canvas[n]] == u;
        } else {
          var i :| 0 <= i < |front| && front[i] in units && units[front[i]].enabled && units[front[i]] == u;
          assert canvas[i] == front[i];
        }
      }
      forall u | exists i :: 0 <= i < |canvas| && canvas[i] in units && units[canvas[i]].enabled && units[canvas[i]] == u
        ensures u in EnabledOnCanvas(canvas, units)
      {
        var i :| 0 <= i < |canvas| && canvas[i] in units && units[canvas[i]].enabled && units[canvas[i]] == u;
        if i < n {
          assert front[i] == canvas[i];
        }
      }
    }
  }

  lemma {:induction false} AnyInIff(en: seq<UnitStatus>, s: HealthState)
    ensures AnyIn(en, s) <==> exists u :: u in en && u.state == s
    decreases |en|
  {
    if |en| > 0 {
      var front := en[..|en| - 1];
      AnyInIff(front, s);
      assert en == front + [en[|en| - 1]];
      if AnyIn(front, s) {
        var u :| u in front && u.state == s;
        assert u in en;
      }
    }
  }

  /** The aggregate state, told by the canvas units themselves, both ways for every state. */
  lemma AggregateStateMeaning(canvas: seq<string>, units: map<string, UnitStatus>)
    ensures AggregateState(canvas, units) == FAIL <==> SomeEnabledIn(canvas, units, FAIL)
    ensures AggregateState(canvas, units) == DEGRADED <==>
      !SomeEnabledIn(canvas, units, FAIL) && SomeEnabledIn(canvas, units, DEGRADED)
    ensures AggregateState(canvas, units) == OK <==>
      !SomeEnabledIn(canvas, units, FAIL) && !SomeEnabledIn(canvas, units, DEGRADED) && SomeEnabled(canvas, units)
    ensures AggregateState(canvas, units) == UNKNOWN <==> !SomeEnabled(canvas, units)
  {
    var en := EnabledOnCanvas(canvas, units);
    EnabledOnCanvasMembers(canvas, units);
    AnyInIff(en, FAIL);
    AnyInIff(en, DEGRADED);
    assert SomeEnabled(canvas, units) <==> |en| > 0 by {
      if SomeEnabled(canvas, units) {
        var i :| 0 <= i < |canvas| && canvas[i] in units && units[canvas[i]].enabled;
        assert units[canvas[i]] in en;
      }
      if |en| > 0 {
        assert en[0] in en;
      }
    }
    forall s | s == FAIL || s == DEGRADED
      ensures AnyIn(en, s) <==> SomeEnabledIn(canvas, units, s)
    {
      AnyInIff(en, s);
      if SomeEnabledIn(canvas, units, s) {
        var i :| 0 <= i < |canvas| && canvas[i] in units && units[canvas[i]].enabled && units[canvas[i]].state == s;
        assert units[canvas[i]] in en;
      }
      if AnyIn(en, s) {
        var u :| u in en && u.state == s;
        var i :| 0 <= i < |canvas| && canvas[i] in units && units[canvas[i]].enabled && units[canvas[i]] == u;
      }
    }
  }

  lemma {:induction false} SumScoresBounds(en: seq<UnitStatus>)
    requires forall u :: u in en ==> 0.0 <= u.score <= 100.0
    ensures 0.0 <= SumScores(en) <= 100.0 * (|en| as real)
    decreases |en|
  {
    if |en| > 0 {
      var front := en[..|en| - 1];
      assert forall u :: u in front ==> u in en;
      SumScoresBounds(front);
      assert en[|en| - 1] in en;
    }
  }

  /** The system score stays within [0, 100] whenever every registered unit's does, and is 100 when no unit counts. */
  lemma MeanScoreBounds(canvas: seq<string>, units: map<string, UnitStatus>)
    requires forall id :: id in units ==> 0.0 <= units[id].score <= 100.0
    ensures 0.0 <= MeanScore(canvas, units) <= 100.0
    ensures |EnabledOnCanvas(canvas, units)| == 0 ==> MeanScore(canvas, units) == 100.0
  {
    var en := EnabledOnCanvas(canvas, units);
    EnabledOnCanvasMembers(canvas, units);
    SumScoresBounds(en);
    if |en| > 0 {
      var n := |en| as real;
      var total := SumScores(en);
      assert total / n <= 100.0 by {
        assert total <= 100.0 * n;
      }
    }
  }

  /** The number of registered canvas units in state s, enabled or not. */
  function StateCount(canvas: seq<string>, units: map<string, UnitStatus>, s: HealthState): nat
    decreases |canvas|
  {
    if |canvas| == 0 then 0
    else
      var id := canvas[|canvas| - 1];
      StateCount(canvas[..|canvas| - 1], units, s) + (if id in units && units[id].state == s then 1 else 0)
  }

  /** The healthy, degraded and failed counts never add up to more than the canvas holds. */
  lemma {:induction false} CountsWithinCanvas(canvas: seq<string>, units: map<string, UnitStatus>)
    ensures StateCount(canvas, units, OK) + StateCount(canvas, units, DEGRADED) + StateCount(canvas, units, FAIL)
      <= |canvas|
    decreases |canvas|
  {
    if |canvas| > 0 {
      CountsWithinCanvas(canvas[..|canvas| - 1], units);
    }
  }

  /** computeSystemHealth's pass over the canvas: total score, FAIL and DEGRADED flags, enabled count. */
  method Accumulate(canvas: seq<string>, units: map<string, UnitStatus>)
    returns (totalScore: real, hasFailed: bool, hasDegraded: bool, enabledCount: nat)
    ensures var en := EnabledOnCanvas(canvas, units);
      && totalScore == SumScores(en) && enabledCount == |en|
      && hasFailed == AnyIn(en, FAIL) && hasDegraded == AnyIn(en, DEGRADED)
  {
    totalScore, hasFailed, hasDegraded, enabledCount := 0.0, false, false, 0;
    var i := 0;
    while i < |canvas|
      invariant 0 <= i <= |canvas|
      invariant var en := EnabledOnCanvas(canvas[..i], units);
        && totalScore == SumScores(en) && enabledCount == |en|
        && hasFailed == AnyIn(en, FAIL) && hasDegraded == AnyIn(en, DEGRADED)
    {
      assert canvas[..i + 1][..i] == canvas[..i];
      var id := canvas[i];
      if id in units {
        var sub := units[id];
        if sub.enabled {
          enabledCount := enabledCount + 1;
          totalScore := totalScore + sub.score;
          match sub.state
          case FAIL => hasFailed := true;
          case DEGRADED => hasDegraded := true;
          case _ =>
        }
      }
      i := i + 1;
    }
    assert canvas[..i] == canvas;
  }

  class Manager {
    var units: map<string, UnitStatus>
    var canvas: seq<string>
    const ledger: FaultManager.FaultLedger
    var systemState: HealthState
    var systemScore: real
    var updateInterval: int
    var events: seq<ManagerSignal>

    constructor ()
      ensures units == map[] && canvas == [] && events == []
      ensures systemState == UNKNOWN && systemScore == 100.0 && updateInterval == 1000
      ensures fresh(ledger) && ledger.Contents() == FaultManager.Ledger(map[], [], map[], map[])
      ensures Valid()
    {
      units := map[];
      canvas := [];
      ledger := new FaultManager.FaultLedger();
      systemState := UNKNOWN;
      systemScore := 100.0;
      updateInterval := 1000;
      events := [];
    }

    /** The system state and score are those of the current canvas. */
    predicate HealthCurrent()
      reads this`units, this`canvas, this`systemState, this`systemScore
    {
      systemState == AggregateState(canvas, units) && systemScore == MeanScore(canvas, units)
    }

    /** The canvas holds registered ids, each once, and the system health is up to date. */
    predicate Valid()
      reads this`units, this`canvas, this`systemState, this`systemScore, ledger`active, ledger`history
    {
      && NoDuplicates(canvas)
      && (forall id :: id in canvas ==> id in units)
      && ledger.Valid()
      && HealthCurrent()
    }

    /** computeSystemHealth: one pass over the canvas, then the state and the mean score. */
    method ComputeSystemHealth()
      modifies this`systemState, this`systemScore, this`events
      ensures HealthCurrent()
      ensures |canvas| == 0 ==> systemState == UNKNOWN && systemScore == 100.0
      ensures events == old(events) + [SystemHealthChanged]
    {
      if |canvas| == 0 {
        systemState := UNKNOWN;
        systemScore := 100.0;
        events := events + [SystemHealthChanged];
        return;
      }
      var totalScore, hasFailed, hasDegraded, enabledCount := Accumulate(canvas, units);
      if hasFailed {
        systemState := FAIL;
      } else if hasDegraded {
        systemState := DEGRADED;
      } else if enabledCount > 0 {
        systemState := OK;
      } else {
        systemState := UNKNOWN;
      }
      systemScore := if enabledCount > 0 then totalScore / (enabledCount as real) else 100.0;
      events := events + [SystemHealthChanged];
    }

    /** registerSubsystem: a missing unit or an id already registered changes nothing. */
    method RegisterSubsystem(sub: Option<Unit>)
      requires Valid()
      modifies this`units, this`systemState, this`systemScore, this`events
      ensures Valid() && canvas == old(canvas)
      ensures if sub.None? || sub.value.id in old(units) then
          units == old(units) && events == old(events)
        else
          units == old(units)[sub.value.id := sub.value.status]
          && events == old(events) + [SubsystemsChanged, SystemHealthChanged]
    {
      if sub.None? || sub.value.id in units {
        return;
      }
      units := units[sub.value.id := sub.value.status];
      events := events + [SubsystemsChanged];
      ComputeSystemHealth();
    }

    /** unregisterSubsystem: the id leaves the canvas and the registry, and its faults leave the ledger. */
    method UnregisterSubsystem(id: string)
      requires Valid()
      modifies this`units, this`canvas, this`systemState, this`systemScore, this`events, ledger`active, ledger`events
      ensures Valid()
      ensures id !in old(units) ==>
        units == old(units) && canvas == old(canvas) && events == old(events)
        && ledger.Contents() == old(ledger.Contents())
      ensures id in old(units) ==>
        && units == old(units) - {id}
        && canvas == RemoveAll(old(canvas), id)
        && ledger.Contents() == FaultManager.ClearUnit(old(ledger.Contents()), id)
        && events == old(events) + [SubsystemsChanged, ActiveSubsystemsChanged, SystemHealthChanged]
    {
      if id !in units {
        return;
      }
      RemoveAllSpec(canvas, id);
      canvas := RemoveAll(canvas, id);
      units := units - {id};
      ghost var order := ledger.ClearAllFaultsOf(id);
      events := events + [SubsystemsChanged, ActiveSubsystemsChanged];
      ComputeSystemHealth();
    }

    /** addToCanvas: only a registered id not already on the canvas is appended. */
    method AddToCanvas(id: string)
      requires Valid()
      modifies this`canvas, this`systemState, this`systemScore, this`events
      ensures Valid() && units == old(units)
      ensures if id in old(units) && id !in old(canvas) then
          canvas == old(canvas) + [id] && events == old(events) + [ActiveSubsystemsChanged, SystemHealthChanged]
        else
          canvas == old(canvas) && events == old(events)
    {
      if id !in units {
        return;
      }
      if id !in canvas {
        canvas := canvas + [id];
        events := events + [ActiveSubsystemsChanged];
        ComputeSystemHealth();
      }
    }

    /** removeFromCanvas: every occurrence goes; only a removal is announced. */
    method RemoveFromCanvas(id: string)
      requires Valid()
      modifies this`canvas, this`systemState, this`systemScore, this`events
      ensures Valid() && units == old(units)
      ensures canvas == RemoveAll(old(canvas), id) && id !in canvas
      ensures events == old(events) + if id in old(canvas) then [ActiveSubsystemsChanged, SystemHealthChanged] else []
    {
      RemoveAllSpec(canvas, id);
      var remaining := RemoveAll(canvas, id);
      var removed := |canvas| - |remaining|;
      canvas := remaining;
      if removed > 0 {
        events := events + [ActiveSubsystemsChanged];
        ComputeSystemHealth();
      }
    }

    /** The healthy, degraded and failed counts: registered canvas units in that state. */
    method CountInState(s: HealthState) returns (count: nat)
      ensures count == StateCount(canvas, units, s)
    {
      count := 0;
      var i := 0;
      while i < |canvas|
        invariant 0 <= i <= |canvas|
        invariant count == StateCount(canvas[..i], units, s)
      {
        assert canvas[..i + 1][..i] == canvas[..i];
        var id := canvas[i];
        if id in units && units[id].state == s {
          count := count + 1;
        }
        i := i + 1;
      }
      assert canvas[..i] == canvas;
    }

    /** onSubsystemHealthChanged: the sender's new status is taken in and the system health recomputed. */
    method OnSubsystemHealthChanged(sender: Option<string>, status: UnitStatus)
      requires Valid()
      modifies this`units, this`systemState, this`systemScore, this`events
      ensures Valid() && canvas == old(canvas)
      ensures sender.Some? && sender.value in old(units) ==> units == old(units)[sender.value := status]
      ensures !(sender.Some? && sender.value in old(units)) ==> units == old(units)
      ensures events == old(events) + (if sender.Some? then [SubsystemHealthChanged(sender.value)] else []) + [SystemHealthChanged]
    {
      if sender.Some? {
        if sender.value in units {
          units := units[sender.value := status];
        }
        events := events + [SubsystemHealthChanged(sender.value)];
      }
      ComputeSystemHealth();
    }

    /** onSubsystemFaultOccurred: the sender's fault is logged with WARNING severity, whatever it was raised with. */
    method OnSubsystemFaultOccurred(sender: Option<string>, faultCode: string, description: string, now: int)
      requires Valid()
      modifies this`events, ledger`active, ledger`history, ledger`lastFault, ledger`counts, ledger`events
      ensures Valid()
      ensures sender.None? ==>
        ledger.Contents() == old(ledger.Contents()) && events == old(events) && ledger.events == old(ledger.events)
      ensures sender.Some? ==>
        && ledger.Contents() == FaultManager.Register(old(ledger.Contents()),
             NewFaultCode(faultCode, description, WARNING, sender.value, now))
        && ledger.events == old(ledger.events) + FaultManager.RegisterSignals(old(ledger.Contents()),
             NewFaultCode(faultCode, description, WARNING, sender.value, now))
        && events == old(events) + [SubsystemFaultOccurred(sender.value, faultCode)]
    {
      if sender.Some? {
        var fault := NewFaultCode(faultCode, description, WARNING, sender.value, now);
        ledger.RegisterFault(fault);
        events := events + [SubsystemFaultOccurred(sender.value, faultCode)];
      }
    }

    /** The faultCleared connection: the unit's fault leaves the ledger. */
    method OnSubsystemFaultCleared(subsystemId: string, faultCode: string)
      requires Valid()
      modifies ledger`active, ledger`events
      ensures Valid()
      ensures ledger.Contents() == FaultManager.Clear(old(ledger.Contents()), subsystemId, faultCode)
      ensures ledger.events == old(ledger.events) +
        if FaultManager.FaultKey(subsystemId, faultCode) in old(ledger.active)
        then [FaultManager.FaultCleared(subsystemId, faultCode), FaultManager.FaultsChanged] else []
    {
      ledger.ClearFault(faultCode, subsystemId);
    }
  }
}
