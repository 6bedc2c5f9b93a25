/**
 * The uptime tracker: per-unit running totals of the time spent up (OK or
 * DEGRADED) and down (FAIL), availability percentages, and a rolling 24-hour
 * history of availability snapshots.  Times are milliseconds; the current
 * time is the parameter `now`.
 */
module Uptime {
  import opened HealthStatus
  import opened KeyOrder

  const MS_PER_HOUR: int := 3600000
  /** The snapshot interval the constructor sets. */
  const SNAPSHOT_INTERVAL_MS: int := 60000
  /** What one tick adds to the bucket of a unit's current state. */
  const TICK_MS: int := 1000
  /** How far back the snapshot history reaches. */
  const HISTORY_MS: int := 24 * 3600 * 1000

  datatype UptimeRecord = UptimeRecord(
    subsystemId: string,
    startTime: int,
    totalUptimeMs: int,
    totalDowntimeMs: int,
    currentState: HealthState,
    lastStateChange: int,
    stateTransitions: int)

  datatype HistorySnapshot = HistorySnapshot(
    timestamp: int,
    systemAvailability: real,
    subsystemAvailability: map<string, real>)

  /** One entry of a history listing. */
  datatype HistoryEntry = HistoryEntry(timestamp: int, availability: real)

  datatype UnitSummary = UnitSummary(uptime: real, availability: real, stateTransitions: int, currentState: string)

  datatype UptimeSummary = UptimeSummary(
    systemUptime: real,
    systemAvailability: real,
    trackingStartTime: int,
    subsystemCount: nat,
    subsystems: map<string, UnitSummary>)

  datatype UptimeSignal =
    | UptimeUpdated
    | StateChanged(subsystemId: string, oldState: string, newState: string)
    | OutageStarted(subsystemId: string)
    | OutageEnded(subsystemId: string, durationMs: int)

  /** OK and DEGRADED count as up. */
  predicate IsUp(s: HealthState) {
    s == OK || s == DEGRADED
  }

  /** Every record is filed under its own unit id. */
  ghost predicate IdsMatch(records: map<string, UptimeRecord>) {
    forall k :: k in records ==> records[k].subsystemId == k
  }

  /** Both running totals are non-negative. */
  predicate Accounted(r: UptimeRecord) {
    r.totalUptimeMs >= 0 && r.totalDowntimeMs >= 0
  }

  /** The share of accrued time spent up, as a percentage; 100 when nothing has accrued. */
  function Percent(up: int, down: int): (a: real)
    ensures up + down <= 0 ==> a == 100.0
    ensures up >= 0 && down >= 0 ==> 0.0 <= a <= 100.0
    ensures up > 0 && down == 0 ==> a == 100.0
    ensures up == 0 && down > 0 ==> a == 0.0
  {
    var total := up + down;
    if total > 0 then
      assert up >= 0 && down >= 0 ==> up as real / total as real <= 1.0 by {
        if up >= 0 && down >= 0 {
          assert up as real <= total as real;
        }
      }
      up as real / total as real * 100.0
    else 100.0
  }

  function Availability(r: UptimeRecord): real {
    Percent(r.totalUptimeMs, r.totalDowntimeMs)
  }

  function UptimeHours(r: UptimeRecord): real {
    r.totalUptimeMs as real / MS_PER_HOUR as real
  }

  /** A record for a newly registered unit. */
  function NewRecord(id: string, now: int): (r: UptimeRecord)
    ensures r.subsystemId == id && r.currentState == UNKNOWN && r.stateTransitions == 0
    ensures r.totalUptimeMs == 0 && r.totalDowntimeMs == 0 && Availability(r) == 100.0
    ensures r.startTime == now && r.lastStateChange == now
  {
    UptimeRecord(id, now, 0, 0, UNKNOWN, now, 0)
  }

  /**
   * What QMap::value returns for an unknown id: a value-initialised record,
   * whose state is the enumerator with value 0.
   */
  function DefaultRecord(): (r: UptimeRecord)
    ensures r.subsystemId == "" && r.currentState == OK && HealthStateValue(r.currentState) == 0
    ensures r.totalUptimeMs == 0 && r.totalDowntimeMs == 0 && r.stateTransitions == 0
    ensures r.startTime == NO_TIME && r.lastStateChange == NO_TIME
  {
    UptimeRecord("", NO_TIME, 0, 0, OK, NO_TIME, 0)
  }

  /** registerSubsystem: a known id keeps its record. */
  function Registered(records: map<string, UptimeRecord>, id: string, now: int): (r: map<string, UptimeRecord>)
    ensures id in r && r.Keys == records.Keys + {id}
    ensures id in records ==> r == records
    ensures id !in records ==> r[id] == NewRecord(id, now)
    ensures forall k :: k in records ==> r[k] == records[k]
  {
    if id in records then records else records[id := NewRecord(id, now)]
  }

  /**
   * updateState on a registered record: on a change of state the time since
   * the last change goes to the bucket of the state being left.
   */
  function Transition(r: UptimeRecord, state: HealthState, now: int): UptimeRecord {
    if r.currentState == state then r
    else
      var d := now - r.lastStateChange;
      r.(totalUptimeMs := r.totalUptimeMs + (if IsUp(r.currentState) then d else 0),
         totalDowntimeMs := r.totalDowntimeMs + (if r.currentState == FAIL then d else 0),
         currentState := state,
         lastStateChange := now,
         stateTransitions := r.stateTransitions + 1)
  }

  /** The signals of one updateState call, in emission order. */
  function TransitionSignals(id: string, r: UptimeRecord, state: HealthState, now: int): seq<UptimeSignal> {
    if r.currentState == state then []
    else
      (if r.currentState == FAIL then [OutageEnded(id, now - r.lastStateChange)] else [])
      + (if state == FAIL then [OutageStarted(id)] else [])
      + [StateChanged(id, HealthStateToString(r.currentState), HealthStateToString(state)), UptimeUpdated]
  }

  /** updateState on the whole table: register an unknown id, then apply the transition. */
  function Updated(records: map<string, UptimeRecord>, id: string, state: HealthState, now: int): map<string, UptimeRecord> {
    var rs := Registered(records, id, now);
    rs[id := Transition(rs[id], state, now)]
  }

  /**
   * The attribution rule: an unchanged state changes nothing; a change adds
   * the elapsed time to uptime exactly when the old state was up, to downtime
   * exactly when it was FAIL (so to neither when it was UNKNOWN), and counts
   * one transition.  Other fields of the record are kept.
   */
  lemma TransitionSpec(r: UptimeRecord, state: HealthState, now: int)
    ensures var t := Transition(r, state, now);
      && t.subsystemId == r.subsystemId && t.startTime == r.startTime
      && t.currentState == state
      && (r.currentState == state ==> t == r)
      && (r.currentState != state ==>
            && t.stateTransitions == r.stateTransitions + 1
            && t.lastStateChange == now
            && t.totalUptimeMs == r.totalUptimeMs + (if IsUp(r.currentState) then now - r.lastStateChange else 0)
            && t.totalDowntimeMs == r.totalDowntimeMs + (if r.currentState == FAIL then now - r.lastStateChange else 0)
            && (r.currentState == UNKNOWN ==> t.totalUptimeMs == r.totalUptimeMs && t.totalDowntimeMs == r.totalDowntimeMs))
  {
  }

  /**
   * The signals say what happened: none without a change; otherwise an
   * outage ends exactly when FAIL is left, with the time spent in it, one
   * starts exactly when FAIL is entered, and the names of both states are
   * reported before uptimeUpdated.
   */
  lemma TransitionSignalsSpec(id: string, r: UptimeRecord, state: HealthState, now: int)
    ensures var s := TransitionSignals(id, r, state, now);
      && (s == [] <==> r.currentState == state)
      && (OutageStarted(id) in s <==> r.currentState != state && state == FAIL)
      && (OutageEnded(id, now - r.lastStateChange) in s <==> r.currentState != state && r.currentState == FAIL)
      && (r.currentState != state ==>
            && s[|s| - 1] == UptimeUpdated
            && s[|s| - 2] == StateChanged(id, HealthStateToString(r.currentState), HealthStateToString(state)))
  {
  }

  /** One updateState call at the given time. */
  datatype Step = Step(state: HealthState, at: int)

  /** The record after a series of updateState calls. */
  function Replay(r: UptimeRecord, steps: seq<Step>): UptimeRecord
    decreases |steps|
  {
    if steps == [] then r else Replay(Transition(r, steps[0].state, steps[0].at), steps[1..])
  }

  /** How many of the steps change the state, starting from s. */
  function Changes(s: HealthState, steps: seq<Step>): nat
    decreases |steps|
  {
    if steps == [] then 0 else (if steps[0].state != s then 1 else 0) + Changes(steps[0].state, steps[1..])
  }

  /** The clock never runs backwards over the steps, starting at t. */
  predicate Monotone(t: int, steps: seq<Step>)
    decreases |steps|
  {
    steps == [] || (t <= steps[0].at && Monotone(steps[0].at, steps[1..]))
  }

  lemma MonotoneFrom(t: int, u: int, steps: seq<Step>)
    requires t <= u && Monotone(u, steps)
    ensures Monotone(t, steps)
  {
  }

  /**
   * Over any series of updates, stateTransitions counts exactly the changes
   * of state, the record ends in the last requested state, and while the
   * clock runs forward neither total decreases.
   */
  lemma {:induction false} ReplaySpec(r: UptimeRecord, steps: seq<Step>)
    ensures Replay(r, steps).stateTransitions == r.stateTransitions + Changes(r.currentState, steps)
    ensures Replay(r, steps).currentState == if steps == [] then r.currentState else steps[|steps| - 1].state
    ensures Monotone(r.lastStateChange, steps) ==>
      Replay(r, steps).totalUptimeMs >= r.totalUptimeMs && Replay(r, steps).totalDowntimeMs >= r.totalDowntimeMs
    decreases |steps|
  {
    if steps != [] {
      var t := Transition(r, steps[0].state, steps[0].at);
      ReplaySpec(t, steps[1..]);
      if Monotone(r.lastStateChange, steps) && t == r {
        MonotoneFrom(r.lastStateChange, steps[0].at, steps[1..]);
      }
      if steps[1..] != [] {
        assert steps[1..][|steps[1..]| - 1] == steps[|steps| - 1];
      }
    }
  }

  /** recordOutage: an unknown id is ignored; otherwise only downtime grows. */
  function WithOutage(records: map<string, UptimeRecord>, id: string, durationMs: int): (r: map<string, UptimeRecord>)
    ensures r.Keys == records.Keys
    ensures id !in records ==> r == records
    ensures id in records ==>
      r[id].totalDowntimeMs == records[id].totalDowntimeMs + durationMs && r[id] == records[id].(totalDowntimeMs := r[id].totalDowntimeMs)
    ensures forall k :: k in records && k != id ==> r[k] == records[k]
  {
    if id in records then records[id := records[id].(totalDowntimeMs := records[id].totalDowntimeMs + durationMs)]
    else records
  }

  /** updateRunningTotals for one record: a fixed tick to the bucket of the current state. */
  function Accrue(r: UptimeRecord): (t: UptimeRecord)
    ensures t.totalUptimeMs + t.totalDowntimeMs == r.totalUptimeMs + r.totalDowntimeMs + (if r.currentState == UNKNOWN then 0 else TICK_MS)
    ensures IsUp(r.currentState) ==> t.totalDowntimeMs == r.totalDowntimeMs
    ensures r.currentState == FAIL ==> t.totalUptimeMs == r.totalUptimeMs
    ensures t == r.(totalUptimeMs := t.totalUptimeMs, totalDowntimeMs := t.totalDowntimeMs)
    ensures t.subsystemId == r.subsystemId && t.currentState == r.currentState
    ensures Accounted(r) ==> Accounted(t)
  {
    if IsUp(r.currentState) then r.(totalUptimeMs := r.totalUptimeMs + TICK_MS)
    else if r.currentState == FAIL then r.(totalDowntimeMs := r.totalDowntimeMs + TICK_MS)
    else r
  }

  /** reset for one record: totals and transitions cleared, the state kept. */
  function Cleared(r: UptimeRecord, now: int): (t: UptimeRecord)
    ensures t.subsystemId == r.subsystemId && t.currentState == r.currentState
    ensures t.totalUptimeMs == 0 && t.totalDowntimeMs == 0 && t.stateTransitions == 0
    ensures t.startTime == now && t.lastStateChange == now
    ensures Availability(t) == 100.0
  {
    r.(totalUptimeMs := 0, totalDowntimeMs := 0, startTime := now, lastStateChange := now, stateTransitions := 0)
  }

  /** The sum of the listed records' uptimes. */
  function UpAlong(keys: seq<string>, records: map<string, UptimeRecord>): int
    requires forall k :: k in keys ==> k in records
  {
    if keys == [] then 0
    else UpAlong(keys[..|keys| - 1], records) + records[keys[|keys| - 1]].totalUptimeMs
  }

  /** The sum of the listed records' downtimes. */
  function DownAlong(keys: seq<string>, records: map<string, UptimeRecord>): int
    requires forall k :: k in keys ==> k in records
  {
    if keys == [] then 0
    else DownAlong(keys[..|keys| - 1], records) + records[keys[|keys| - 1]].totalDowntimeMs
  }

  /** Division of a qint64 by a positive count, truncating toward zero. */
  function TruncDiv(a: int, b: int): int
    requires b > 0
  {
    if a >= 0 then a / b else -((-a) / b)
  }

  /** getSystemAvailability: the percentage over all records' totals. */
  ghost function SystemAvailabilityOf(records: map<string, UptimeRecord>): real {
    var keys := Ordered(records.Keys);
    Percent(UpAlong(keys, records), DownAlong(keys, records))
  }

  /** getSystemUptime: the mean uptime in whole milliseconds, in hours; 0 without records. */
  ghost function SystemUptimeOf(records: map<string, UptimeRecord>): real {
    if |records| > 0 then TruncDiv(UpAlong(Ordered(records.Keys), records), |records|) as real / MS_PER_HOUR as real
    else 0.0
  }

  /** Every listed record's totals lie in [0, bound]. */
  ghost predicate WithinAlong(keys: seq<string>, records: map<string, UptimeRecord>, bound: int)
    requires forall k :: k in keys ==> k in records
  {
    forall k :: k in keys ==> 0 <= records[k].totalUptimeMs <= bound && 0 <= records[k].totalDowntimeMs
  }

  lemma {:induction false} SumsAlongBounds(keys: seq<string>, records: map<string, UptimeRecord>, bound: int)
    requires forall k :: k in keys ==> k in records
    requires WithinAlong(keys, records, bound)
    ensures 0 <= UpAlong(keys, records) <= |keys| * bound
    ensures 0 <= DownAlong(keys, records)
    decreases |keys|
  {
    if keys != [] {
      var front := keys[..|keys| - 1];
      assert forall k :: k in front ==> k in keys;
      SumsAlongBounds(front, records, bound);
      assert keys[|keys| - 1] in keys;
      assert |keys| * bound == |front| * bound + bound;
    }
  }

  lemma {:induction false} SumsAlongZero(keys: seq<string>, records: map<string, UptimeRecord>)
    requires forall k :: k in keys ==> k in records
    requires forall k :: k in keys ==> records[k].totalUptimeMs == 0 && records[k].totalDowntimeMs == 0
    ensures UpAlong(keys, records) == 0 && DownAlong(keys, records) == 0
    decreases |keys|
  {
    if keys != [] {
      var front := keys[..|keys| - 1];
      assert forall k :: k in front ==> k in keys;
      SumsAlongZero(front, records);
      assert keys[|keys| - 1] in keys;
    }
  }

  /** A sum of n values of at most bound, divided by n, is at most bound. */
  lemma QuotientBound(s: int, n: int, bound: int)
    requires 0 <= s <= n * bound && n > 0
    ensures 0 <= s / n <= bound
  {
  }

  /**
   * The system figures stay meaningful: with non-negative totals availability
   * lies in [0, 100] and is 100 when nothing has accrued, and when no unit's
   * uptime exceeds `bound` the mean uptime lies between 0 and bound hours.
   */
  lemma SystemFiguresBounds(records: map<string, UptimeRecord>, bound: nat)
    requires forall k :: k in records ==> 0 <= records[k].totalUptimeMs <= bound && 0 <= records[k].totalDowntimeMs
    ensures 0.0 <= SystemAvailabilityOf(records) <= 100.0
    ensures (forall k :: k in records ==> records[k].totalUptimeMs == 0 && records[k].totalDowntimeMs == 0) ==>
      SystemAvailabilityOf(records) == 100.0
    ensures 0.0 <= SystemUptimeOf(records) <= bound as real / MS_PER_HOUR as real
  {
    var keys := Ordered(records.Keys);
    SumsAlongBounds(keys, records, bound);
    if forall k :: k in records ==> records[k].totalUptimeMs == 0 && records[k].totalDowntimeMs == 0 {
      SumsAlongZero(keys, records);
    }
    if |records| > 0 {
      assert |keys| == |records|;
      QuotientBound(UpAlong(keys, records), |records|, bound);
    }
  }

  /** The snapshots no older than the cutoff with an entry for the unit, as history entries. */
  function UnitHistory(history: seq<HistorySnapshot>, id: string, cutoff: int): seq<HistoryEntry> {
    if history == [] then []
    else
      var s := history[|history| - 1];
      UnitHistory(history[..|history| - 1], id, cutoff)
      + (if s.timestamp >= cutoff && id in s.subsystemAvailability then [HistoryEntry(s.timestamp, s.subsystemAvailability[id])] else [])
  }

  /** The snapshots no older than the cutoff, as history entries. */
  function SystemHistory(history: seq<HistorySnapshot>, cutoff: int): seq<HistoryEntry> {
    if history == [] then []
    else
      var s := history[|history| - 1];
      SystemHistory(history[..|history| - 1], cutoff)
      + (if s.timestamp >= cutoff then [HistoryEntry(s.timestamp, s.systemAvailability)] else [])
  }

  /** A unit's history lists exactly the recent snapshots that know the unit, each with its figure. */
  lemma {:induction false} UnitHistorySpec(history: seq<HistorySnapshot>, id: string, cutoff: int, e: HistoryEntry)
    ensures e in UnitHistory(history, id, cutoff) <==>
      exists s :: s in history && s.timestamp >= cutoff && id in s.subsystemAvailability
        && e == HistoryEntry(s.timestamp, s.subsystemAvailability[id])
    ensures |UnitHistory(history, id, cutoff)| <= |history|
    decreases |history|
  {
    if history != [] {
      var front := history[..|history| - 1];
      var last := history[|history| - 1];
      UnitHistorySpec(front, id, cutoff, e);
      assert history == front + [last];
      if e in UnitHistory(history, id, cutoff) && e !in UnitHistory(front, id, cutoff) {
        assert last in history;
      }
    }
  }

  /** The system history lists exactly the recent snapshots, each with the system figure. */
  lemma {:induction false} SystemHistorySpec(history: seq<HistorySnapshot>, cutoff: int, e: HistoryEntry)
    ensures e in SystemHistory(history, cutoff) <==>
      exists s :: s in history && s.timestamp >= cutoff && e == HistoryEntry(s.timestamp, s.systemAvailability)
    ensures |SystemHistory(history, cutoff)| <= |history|
    decreases |history|
  {
    if history != [] {
      var front := history[..|history| - 1];
      var last := history[|history| - 1];
      SystemHistorySpec(front, cutoff, e);
      assert history == front + [last];
      if e in SystemHistory(history, cutoff) && e !in SystemHistory(front, cutoff) {
        assert last in history;
      }
    }
  }

  /** The pruning loop of tick: drop snapshots older than the cutoff from the front. */
  function DropStale(history: seq<HistorySnapshot>, cutoff: int): seq<HistorySnapshot>
    decreases |history|
  {
    if history != [] && history[0].timestamp < cutoff then DropStale(history[1..], cutoff) else history
  }

  /**
   * Pruning keeps a suffix whose first snapshot is not older than the cutoff,
   * and keeps every snapshot after the first one that is recent enough; so
   * the newest snapshot survives when it is recent.
   */
  lemma {:induction false} DropStaleSpec(history: seq<HistorySnapshot>, cutoff: int)
    ensures var r := DropStale(history, cutoff);
      && |r| <= |history| && r == history[|history| - |r|..]
      && (r != [] ==> r[0].timestamp >= cutoff)
      && (forall i :: 0 <= i < |history| - |r| ==> history[i].timestamp < cutoff)
      && (history != [] && history[|history| - 1].timestamp >= cutoff ==> r != [])
    decreases |history|
  {
    if history != [] && history[0].timestamp < cutoff {
      DropStaleSpec(history[1..], cutoff);
      var r := DropStale(history[1..], cutoff);
      assert history[1..][|history| - 1 - |r|..] == history[|history| - |r|..];
      forall i | 0 <= i < |history| - |r|
        ensures history[i].timestamp < cutoff
      {
        if i > 0 {
          assert history[i] == history[1..][i - 1];
        }
      }
      if |history| > 1 {
        assert history[1..][|history[1..]| - 1] == history[|history| - 1];
      }
    }
  }

  /** The snapshot a tick takes of the updated records. */
  ghost function SnapshotOf(records: map<string, UptimeRecord>, now: int): HistorySnapshot {
    HistorySnapshot(now, SystemAvailabilityOf(records), map k | k in records :: Availability(records[k]))
  }

  /** getSystemUptimeSummary for one record. */
  function UnitSummaryOf(r: UptimeRecord): UnitSummary {
    UnitSummary(UptimeHours(r), Availability(r), r.stateTransitions, HealthStateToString(r.currentState))
  }

  ghost function SummaryOf(records: map<string, UptimeRecord>, trackingStartTime: int): UptimeSummary {
    UptimeSummary(SystemUptimeOf(records), SystemAvailabilityOf(records), trackingStartTime, |records|,
                  map k | k in records :: UnitSummaryOf(records[k]))
  }

  /** The per-record loops (reset, updateRunningTotals, the snapshot) over the listed keys. */
  method EachRecord<T>(keys: seq<string>, records: map<string, UptimeRecord>, f: UptimeRecord -> T) returns (m: map<string, T>)
    requires forall k :: k in keys ==> k in records
    ensures forall k :: k in keys ==> k in m
    ensures forall k :: k in m ==> k in records && m[k] == f(records[k])
  {
    m := map[];
    var i := 0;
    while i < |keys|
      invariant 0 <= i <= |keys|
      invariant forall j :: 0 <= j < i ==> keys[j] in m
      invariant forall k :: k in m ==> k in records && m[k] == f(records[k])
    {
      m := m[keys[i] := f(records[keys[i]])];
      i := i + 1;
    }
  }

  /** A per-record loop over the whole table, in key order. */
  method MapRecords<T>(records: map<string, UptimeRecord>, f: UptimeRecord -> T) returns (m: map<string, T>)
    ensures m == map k | k in records :: f(records[k])
  {
    var keys := SortedKeys(records.Keys);
    m := EachRecord(keys, records, f);
    assert forall k :: k in records ==> k in keys;
  }

  /** The summing loops of getSystemUptime and getSystemAvailability over the listed keys. */
  method Totals(keys: seq<string>, records: map<string, UptimeRecord>) returns (up: int, down: int, count: nat)
    requires forall k :: k in keys ==> k in records
    ensures up == UpAlong(keys, records) && down == DownAlong(keys, records) && count == |keys|
  {
    up, down, count := 0, 0, 0;
    var i := 0;
    while i < |keys|
      invariant 0 <= i <= |keys| && count == i
      invariant up == UpAlong(keys[..i], records) && down == DownAlong(keys[..i], records)
    {
      assert keys[..i + 1][..i] == keys[..i];
      var r := records[keys[i]];
      up := up + r.totalUptimeMs;
      down := down + r.totalDowntimeMs;
      count := count + 1;
      i := i + 1;
    }
    assert keys[..i] == keys;
  }

  method ComputeSystemAvailability(records: map<string, UptimeRecord>) returns (a: real)
    ensures a == SystemAvailabilityOf(records)
  {
    var keys := SortedKeys(records.Keys);
    var up, down, _ := Totals(keys, records);
    a := Percent(up, down);
  }

  method ComputeSystemUptime(records: map<string, UptimeRecord>) returns (hours: real)
    ensures hours == SystemUptimeOf(records)
  {
    var keys := SortedKeys(records.Keys);
    var up, _, count := Totals(keys, records);
    assert count == |records|;
    hours := if count > 0 then TruncDiv(up, count) as real / MS_PER_HOUR as real else 0.0;
  }

  /** The loop of getUptimeHistory. */
  method ListUnitHistory(history: seq<HistorySnapshot>, id: string, cutoff: int) returns (entries: seq<HistoryEntry>)
    ensures entries == UnitHistory(history, id, cutoff)
  {
    entries := [];
    var i := 0;
    while i < |history|
      invariant 0 <= i <= |history|
      invariant entries == UnitHistory(history[..i], id, cutoff)
    {
      assert history[..i + 1][..i] == history[..i];
      var s := history[i];
      if s.timestamp >= cutoff && id in s.subsystemAvailability {
        entries := entries + [HistoryEntry(s.timestamp, s.subsystemAvailability[id])];
      }
      i := i + 1;
    }
    assert history[..i] == history;
  }

  /** The loop of getAvailabilityHistory. */
  method ListSystemHistory(history: seq<HistorySnapshot>, cutoff: int) returns (entries: seq<HistoryEntry>)
    ensures entries == SystemHistory(history, cutoff)
  {
    entries := [];
    var i := 0;
    while i < |history|
      invariant 0 <= i <= |history|
      invariant entries == SystemHistory(history[..i], cutoff)
    {
      assert history[..i + 1][..i] == history[..i];
      var s := history[i];
      if s.timestamp >= cutoff {
        entries := entries + [HistoryEntry(s.timestamp, s.systemAvailability)];
      }
      i := i + 1;
    }
    assert history[..i] == history;
  }

  /** The pruning loop of tick. */
  method PruneHistory(history: seq<HistorySnapshot>, cutoff: int) returns (kept: seq<HistorySnapshot>)
    ensures kept == DropStale(history, cutoff)
  {
    kept := history;
    while kept != [] && kept[0].timestamp < cutoff
      invariant DropStale(kept, cutoff) == DropStale(history, cutoff)
      decreases |kept|
    {
      kept := kept[1..];
    }
  }

  method TakeSnapshot(records: map<string, UptimeRecord>, now: int) returns (s: HistorySnapshot)
    ensures s == SnapshotOf(records, now)
  {
    var system := ComputeSystemAvailability(records);
    var units := MapRecords(records, Availability);
    s := HistorySnapshot(now, system, units);
  }

  /** updateRunningTotals. */
  ghost function Accrued(records: map<string, UptimeRecord>): (r: map<string, UptimeRecord>)
    ensures IdsMatch(records) ==> IdsMatch(r)
  {
    map k | k in records :: Accrue(records[k])
  }

  method AccrueAll(records: map<string, UptimeRecord>) returns (r: map<string, UptimeRecord>)
    ensures r == Accrued(records)
  {
    r := MapRecords(records, Accrue);
  }

  /** The snapshot part of tick. */
  method SnapshotStep(records: map<string, UptimeRecord>, history: seq<HistorySnapshot>, last: int, interval: int, now: int)
    returns (history': seq<HistorySnapshot>, last': int)
    ensures now - last >= interval ==> history' == DropStale(history + [SnapshotOf(records, now)], now - HISTORY_MS) && last' == now
    ensures now - last < interval ==> history' == history && last' == last
  {
    history', last' := history, last;
    if now - last >= interval {
      var snapshot := TakeSnapshot(records, now);
      history' := PruneHistory(history + [snapshot], now - HISTORY_MS);
      last' := now;
    }
  }

  class UptimeTracker {
    var records: map<string, UptimeRecord>
    var trackingStartTime: int
    var history: seq<HistorySnapshot>
    var snapshotIntervalMs: int
    var lastSnapshotTime: int
    var events: seq<UptimeSignal>

    /** Every record is filed under its own unit id. */
    ghost predicate Valid()
      reads this`records
    {
      IdsMatch(records)
    }

    constructor (now: int)
      ensures Valid()
      ensures records == map[] && history == [] && events == []
      ensures trackingStartTime == now && snapshotIntervalMs == SNAPSHOT_INTERVAL_MS && lastSnapshotTime == 0
    {
      records := map[];
      trackingStartTime := now;
      history := [];
      snapshotIntervalMs := SNAPSHOT_INTERVAL_MS;
      lastSnapshotTime := 0;
      events := [];
    }

    method RegisterSubsystem(id: string, now: int)
      requires Valid()
      modifies this`records
      ensures Valid()
      ensures records == Registered(old(records), id, now)
    {
      if id in records {
        return;
      }
      records := records[id := NewRecord(id, now)];
    }

    method UnregisterSubsystem(id: string)
      requires Valid()
      modifies this`records
      ensures Valid()
      ensures records == old(records) - {id}
    {
      records := records - {id};
    }

    method UpdateState(id: string, state: HealthState, now: int)
      requires Valid()
      modifies this`records, this`events
      ensures Valid()
      ensures records == Updated(old(records), id, state, now)
      ensures events == old(events) + TransitionSignals(id, Registered(old(records), id, now)[id], state, now)
    {
      if id !in records {
        RegisterSubsystem(id, now);
      }
      var r := records[id];
      if r.currentState != state {
        var d := now - r.lastStateChange;
        var said: seq<UptimeSignal> := [];
        if r.currentState == FAIL {
          said := said + [OutageEnded(id, d)];
        }
        if state == FAIL {
          said := said + [OutageStarted(id)];
        }
        said := said + [StateChanged(id, HealthStateToString(r.currentState), HealthStateToString(state)), UptimeUpdated];
        assert said == TransitionSignals(id, r, state, now);
        events := events + said;
        records := records[id := Transition(r, state, now)];
      }
    }

    method RecordOutage(id: string, durationMs: int)
      requires Valid()
      modifies this`records, this`events
      ensures Valid()
      ensures records == WithOutage(old(records), id, durationMs)
      ensures events == old(events) + (if id in old(records) then [UptimeUpdated] else [])
    {
      if id !in records {
        return;
      }
      records := records[id := records[id].(totalDowntimeMs := records[id].totalDowntimeMs + durationMs)];
      events := events + [UptimeUpdated];
    }

    /** getUptimeRecord. */
    function RecordOf(id: string): (r: UptimeRecord)
      reads this`records
      ensures id !in records ==> r == DefaultRecord()
      ensures Valid() && id in records ==> r.subsystemId == id
    {
      if id in records then records[id] else DefaultRecord()
    }

    /** getSubsystemUptime: hours of uptime, 0 for an unknown id. */
    function SubsystemUptime(id: string): (h: real)
      reads this`records
      ensures id !in records ==> h == 0.0
      ensures id in records && records[id].totalUptimeMs >= 0 ==> h >= 0.0
    {
      if id in records then UptimeHours(records[id]) else 0.0
    }

    /** getSubsystemAvailability: 100 for an unknown id. */
    function SubsystemAvailability(id: string): (a: real)
      reads this`records
      ensures id !in records ==> a == 100.0
      ensures id in records && Accounted(records[id]) ==> 0.0 <= a <= 100.0
    {
      if id in records then Availability(records[id]) else 100.0
    }

    /** getSubsystemDowntimeMs: 0 for an unknown id. */
    function SubsystemDowntimeMs(id: string): (d: int)
      reads this`records
      ensures id !in records ==> d == 0
      ensures id in records ==> d == records[id].totalDowntimeMs
    {
      if id in records then records[id].totalDowntimeMs else 0
    }

    /** getStateTransitions: 0 for an unknown id. */
    function StateTransitions(id: string): (n: int)
      reads this`records
      ensures id !in records ==> n == 0
      ensures id in records ==> n == records[id].stateTransitions
    {
      if id in records then records[id].stateTransitions else 0
    }

    method GetSystemUptime() returns (hours: real)
      ensures hours == SystemUptimeOf(records)
    {
      hours := ComputeSystemUptime(records);
    }

    method GetSystemAvailability() returns (a: real)
      ensures a == SystemAvailabilityOf(records)
    {
      a := ComputeSystemAvailability(records);
    }

    /** getSystemUptimeSummary, which generateUptimeReport returns unchanged. */
    method GetSystemUptimeSummary() returns (s: UptimeSummary)
      ensures s == SummaryOf(records, trackingStartTime)
      ensures s.subsystemCount == |records| && s.subsystems.Keys == records.Keys
      ensures forall k :: k in records ==>
        s.subsystems[k].availability == SubsystemAvailability(k) && s.subsystems[k].stateTransitions == StateTransitions(k)
    {
      var uptime := ComputeSystemUptime(records);
      var availability := ComputeSystemAvailability(records);
      var units := MapRecords(records, UnitSummaryOf);
      s := UptimeSummary(uptime, availability, trackingStartTime, |records|, units);
    }

    /** getUptimeHistory: the unit's figures from the snapshots of the last `hours` hours. */
    method GetUptimeHistory(id: string, hours: int, now: int) returns (entries: seq<HistoryEntry>)
      ensures entries == UnitHistory(history, id, now - hours * MS_PER_HOUR)
    {
      entries := ListUnitHistory(history, id, now - hours * MS_PER_HOUR);
    }

    /** getAvailabilityHistory: the system figures from the snapshots of the last `hours` hours. */
    method GetAvailabilityHistory(hours: int, now: int) returns (entries: seq<HistoryEntry>)
      ensures entries == SystemHistory(history, now - hours * MS_PER_HOUR)
    {
      entries := ListSystemHistory(history, now - hours * MS_PER_HOUR);
    }

    /**
     * tick: accrue one tick per record; once the interval has elapsed take a
     * snapshot of the updated records and prune snapshots older than 24 hours.
     */
    method Tick(now: int)
      requires Valid()
      modifies this`records, this`history, this`lastSnapshotTime
      ensures Valid()
      ensures records == Accrued(old(records))
      ensures now - old(lastSnapshotTime) >= snapshotIntervalMs ==>
        history == DropStale(old(history) + [SnapshotOf(records, now)], now - HISTORY_MS) && lastSnapshotTime == now
      ensures now - old(lastSnapshotTime) < snapshotIntervalMs ==>
        history == old(history) && lastSnapshotTime == old(lastSnapshotTime)
    {
      var accrued := AccrueAll(records);
      records := accrued;
      history, lastSnapshotTime := SnapshotStep(accrued, history, lastSnapshotTime, snapshotIntervalMs, now);
    }

    /** reset: every record's totals cleared, its state kept; the history emptied. */
    method Reset(now: int)
      requires Valid()
      modifies this`records, this`history, this`trackingStartTime, this`lastSnapshotTime, this`events
      ensures Valid()
      ensures records == map k | k in old(records) :: Cleared(old(records)[k], now)
      ensures history == [] && trackingStartTime == now && lastSnapshotTime == 0
      ensures events == old(events) + [UptimeUpdated]
    {
      var cleared := MapRecords(records, r => Cleared(r, now));
      records := cleared;
      history := [];
      trackingStartTime := now;
      lastSnapshotTime := 0;
      events := events + [UptimeUpdated];
    }

    /** resetSubsystem: an unknown id is ignored. */
    method ResetSubsystem(id: string, now: int)
      requires Valid()
      modifies this`records, this`events
      ensures Valid()
      ensures id !in old(records) ==> records == old(records) && events == old(events)
      ensures id in old(records) ==>
        records == old(records)[id := Cleared(old(records)[id], now)] && events == old(events) + [UptimeUpdated]
    {
      if id !in records {
        return;
      }
      records := records[id := Cleared(records[id], now)];
      events := events + [UptimeUpdated];
    }
  }
}
