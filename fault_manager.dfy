/**
 * The system-wide fault ledger: the active faults of every unit keyed by
 * (unit, code), the bounded registration history, the cumulative number of
 * registrations per unit and the MTBF estimate built from them.
 *
 * The ledger is a class whose fields the operations update in place; each
 * operation is proved against a function on the `Ledger` value, and the
 * properties of the ledger are lemmas about those functions.
 */
module FaultManager {
  import opened HealthStatus
  import FaultLog
  import KeyOrder
  import opened Bounded

  const MAX_LEDGER_HISTORY: nat := 10000
  const MS_PER_HOUR: real := 3600000.0

  /** makeFaultKey as written: the unit id and the code joined by a colon. */
  function MakeFaultKey(subsystemId: string, code: string): string {
    subsystemId + ":" + code
  }

  /** The key the ledger is meant to have: one entry per (unit, code) pair. */
  datatype FaultKey = FaultKey(subsystemId: string, code: string)

  function KeyOf(f: FaultCode): FaultKey {
    FaultKey(f.subsystemId, f.code)
  }

  /** Two different (unit, code) pairs share one joined key. */
  lemma JoinedKeysCollide()
    ensures FaultKey("a:b", "c") != FaultKey("a", "b:c")
    ensures MakeFaultKey("a:b", "c") == MakeFaultKey("a", "b:c")
  {
    assert MakeFaultKey("a:b", "c") == "a:b:c";
    assert MakeFaultKey("a", "b:c") == "a:b:c";
  }

  /** The joined key spells the unit id, then the colon, then the code. */
  lemma JoinedKeyLayout(id: string, code: string)
    ensures |MakeFaultKey(id, code)| == |id| + 1 + |code|
    ensures MakeFaultKey(id, code)[..|id|] == id && MakeFaultKey(id, code)[|id|] == ':'
    ensures MakeFaultKey(id, code)[|id| + 1..] == code
  {
  }

  /** The joined key is faithful to the pair as long as unit ids hold no colon. */
  lemma JoinedKeyInjective(id1: string, code1: string, id2: string, code2: string)
    requires ':' !in id1 && ':' !in id2
    requires MakeFaultKey(id1, code1) == MakeFaultKey(id2, code2)
    ensures id1 == id2 && code1 == code2
  {
    var key := MakeFaultKey(id1, code1);
    JoinedKeyLayout(id1, code1);
    JoinedKeyLayout(id2, code2);
    if |id1| != |id2| {
      assert false;
    }
  }
  /** The string a key is stored under in the source's map; it fixes the visiting order. */
  function Joined(k: FaultKey): string {
    MakeFaultKey(k.subsystemId, k.code)
  }

  /** Two different keys with the same code never join to the same string. */
  lemma JoinedSameCode(a: FaultKey, b: FaultKey)
    requires a.code == b.code && a != b
    ensures Joined(a) != Joined(b)
  {
    JoinedKeyLayout(a.subsystemId, a.code);
    JoinedKeyLayout(b.subsystemId, b.code);
  }

  /** k is the first active key holding the code, in the order of the joined keys. */
  ghost predicate FirstWithCode(active: map<FaultKey, FaultCode>, code: string, k: FaultKey) {
    && k in active && active[k].code == code
    && forall k2 :: k2 in active && active[k2].code == code && k2 != k ==> KeyOrder.Less(Joined(k), Joined(k2))
  }


  /** The ledger's contents as a value. */
  datatype Ledger = Ledger(
    active: map<FaultKey, FaultCode>,
    history: seq<FaultCode>,
    lastFault: map<string, int>,
    counts: map<string, nat>)

  /** Every active fault sits under its own key, and the history stays bounded. */
  predicate Consistent(l: Ledger) {
    && |l.history| <= MAX_LEDGER_HISTORY
    && forall k :: k in l.active ==> KeyOf(l.active[k]) == k
  }

  /** m_subsystemFaultCounts.value(id, 0). */
  function CountOf(counts: map<string, nat>, id: string): nat {
    if id in counts then counts[id] else 0
  }

  /** registerFault: a key already active is ignored; otherwise the fault is recorded, logged and counted. */
  function Register(l: Ledger, f: FaultCode): Ledger {
    if KeyOf(f) in l.active then l
    else Ledger(l.active[KeyOf(f) := f],
                KeepLast(l.history + [f], MAX_LEDGER_HISTORY),
                l.lastFault[f.subsystemId := f.timestamp],
                l.counts[f.subsystemId := CountOf(l.counts, f.subsystemId) + 1])
  }

  /** clearFault: only the key goes; the history and the counts stay. */
  function Clear(l: Ledger, id: string, code: string): Ledger {
    l.(active := l.active - {FaultKey(id, code)})
  }

  /** The keys of one unit's active faults. */
  function KeysOf(active: map<FaultKey, FaultCode>, id: string): set<FaultKey> {
    set k | k in active && active[k].subsystemId == id
  }

  /** clearAllFaults(id). */
  function ClearUnit(l: Ledger, id: string): Ledger {
    l.(active := l.active - KeysOf(l.active, id))
  }

  /** clearAllFaults(). */
  function ClearEverything(l: Ledger): Ledger {
    l.(active := map[])
  }

  datatype LedgerSignal =
    | FaultRegistered(subsystemId: string, code: string)
    | FaultsChanged
    | FaultCleared(subsystemId: string, code: string)
    | CriticalFaultOccurred(subsystemId: string, code: string)

  /** What registerFault emits. */
  function RegisterSignals(l: Ledger, f: FaultCode): seq<LedgerSignal> {
    if KeyOf(f) in l.active then []
    else [FaultRegistered(f.subsystemId, f.code), FaultsChanged]
         + (if FaultLog.IsSevere(f.severity) then [CriticalFaultOccurred(f.subsystemId, f.code)] else [])
  }

  /** One faultCleared per removed key, in the order the keys were visited. */
  function ClearedSignals(order: seq<FaultKey>): seq<LedgerSignal>
    decreases |order|
  {
    if |order| == 0 then []
    else ClearedSignals(order[..|order| - 1]) + [FaultCleared(order[|order| - 1].subsystemId, order[|order| - 1].code)]
  }

  lemma ClearedSignalsSnoc(order: seq<FaultKey>, k: FaultKey)
    ensures ClearedSignals(order + [k]) == ClearedSignals(order) + [FaultCleared(k.subsystemId, k.code)]
  {
    assert (order + [k])[..|order|] == order;
  }

  /** The sequence lists the set, each element once. */
  ghost predicate Lists(r: seq<FaultKey>, s: set<FaultKey>) {
    && (forall k :: k in r <==> k in s)
    && forall i, j :: 0 <= i < j < |r| ==> r[i] != r[j]
  }

  /** The map a0 with the listed keys taken out. */
  ghost predicate Without(a: map<FaultKey, FaultCode>, a0: map<FaultKey, FaultCode>, gone: seq<FaultKey>) {
    && (forall k :: k in a <==> k in a0 && k !in gone)
    && forall k :: k in a ==> a[k] == a0[k]
  }

  lemma WithoutStep(a: map<FaultKey, FaultCode>, a0: map<FaultKey, FaultCode>, keys: seq<FaultKey>, i: nat)
    requires i < |keys| && keys[i] in a0 && Without(a, a0, keys[..i])
    requires forall p, q :: 0 <= p < q < |keys| ==> keys[p] != keys[q]
    ensures keys[i] in a && Without(a - {keys[i]}, a0, keys[..i + 1])
  {
    assert keys[..i + 1] == keys[..i] + [keys[i]];
    assert keys[i] !in keys[..i] by {
      forall j | 0 <= j < i
        ensures keys[..i][j] != keys[i]
      {
        assert keys[..i][j] == keys[j];
      }
    }
  }

  /** Registration is idempotent, keeps the ledger consistent and counts each new key once. */
  lemma RegisterEffect(l: Ledger, f: FaultCode)
    requires Consistent(l)
    ensures var r := Register(l, f);
      && Consistent(r)
      && KeyOf(f) in r.active
      && Register(r, f) == r
      && (KeyOf(f) in l.active ==> r == l && RegisterSignals(l, f) == [])
      && (KeyOf(f) !in l.active ==>
            && r.active[KeyOf(f)] == f
            && r.history[|r.history| - 1] == f
            && |r.history| == Min(|l.history| + 1, MAX_LEDGER_HISTORY)
            && CountOf(r.counts, f.subsystemId) == CountOf(l.counts, f.subsystemId) + 1)
  {
    if KeyOf(f) !in l.active {
      var r := Register(l, f);
      var h := l.history + [f];
      assert r.history == h[|h| - |r.history|..];
      assert r.history[|r.history| - 1] == h[|h| - 1] == f;
      assert r.active == l.active[KeyOf(f) := f];
      forall k | k in r.active
        ensures KeyOf(r.active[k]) == k
      {
        if k != KeyOf(f) {
          assert r.active[k] == l.active[k];
        }
      }
    }
  }

  /** Registration touches no other key and no other unit's count. */
  lemma RegisterFrame(l: Ledger, f: FaultCode)
    ensures var r := Register(l, f);
      && (forall k :: k != KeyOf(f) ==> (k in r.active <==> k in l.active))
      && (forall k :: k != KeyOf(f) && k in l.active ==> r.active[k] == l.active[k])
      && (forall id :: id != f.subsystemId ==> CountOf(r.counts, id) == CountOf(l.counts, id))
  {
    if KeyOf(f) !in l.active {
      var r := Register(l, f);
      assert r.active == l.active[KeyOf(f) := f];
      assert r.counts == l.counts[f.subsystemId := CountOf(l.counts, f.subsystemId) + 1];
    }
  }

  /** criticalFaultOccurred accompanies exactly the new CRITICAL and FATAL registrations. */
  lemma CriticalSignalOnlyForSevere(l: Ledger, f: FaultCode)
    ensures CriticalFaultOccurred(f.subsystemId, f.code) in RegisterSignals(l, f)
      <==> KeyOf(f) !in l.active && FaultLog.IsSevere(f.severity)
  {
    var s := RegisterSignals(l, f);
    if KeyOf(f) !in l.active && FaultLog.IsSevere(f.severity) {
      assert s[2] == CriticalFaultOccurred(f.subsystemId, f.code);
    }
  }

  /** clearFault removes that key alone and touches neither the history nor the counts. */
  lemma ClearOnlyThatKey(l: Ledger, id: string, code: string)
    requires Consistent(l)
    ensures var r := Clear(l, id, code);
      && Consistent(r)
      && FaultKey(id, code) !in r.active
      && r.history == l.history && r.counts == l.counts
      && (forall k :: k != FaultKey(id, code) ==> (k in r.active <==> k in l.active))
      && (forall k :: k in r.active ==> r.active[k] == l.active[k])
      && (FaultKey(id, code) !in l.active ==> r == l)
  {
  }

  /** clearAllFaults(id) removes exactly that unit's faults. */
  lemma ClearUnitExact(l: Ledger, id: string)
    requires Consistent(l)
    ensures var r := ClearUnit(l, id);
      && Consistent(r)
      && (forall k :: k in r.active <==> k in l.active && l.active[k].subsystemId != id)
      && (forall k :: k in r.active ==> r.active[k] == l.active[k])
      && r.history == l.history && r.counts == l.counts
  {
  }

  /** The range of timestamps among one unit's history entries. */
  datatype Span = NoSpan | Span(first: int, last: int)

  function Widen(s: Span, t: int): Span {
    match s
    case NoSpan => Span(t, t)
    case Span(a, b) => Span(if t < a then t else a, if t > b then t else b)
  }

  function StampSpan(h: seq<FaultCode>, id: string): (s: Span)
    ensures s.Span? <==> exists i :: 0 <= i < |h| && h[i].subsystemId == id
    ensures s.Span? ==> forall i :: 0 <= i < |h| && h[i].subsystemId == id ==> s.first <= h[i].timestamp <= s.last
    ensures s.Span? ==> exists i :: 0 <= i < |h| && h[i].subsystemId == id && h[i].timestamp == s.first
    ensures s.Span? ==> exists i :: 0 <= i < |h| && h[i].subsystemId == id && h[i].timestamp == s.last
    decreases |h|
  {
    if |h| == 0 then NoSpan
    else
      var n := |h| - 1;
      var s0 := StampSpan(h[..n], id);
      assert forall i :: 0 <= i < n ==> h[..n][i] == h[i];
      if h[n].subsystemId == id then Widen(s0, h[n].timestamp) else s0
  }

  /** estimateMTBF: hours between the first and the last logged fault over the number of gaps, or -1. */
  function MTBF(count: nat, s: Span): real {
    if count < 2 then -1.0
    else match s
      case NoSpan => -1.0
      case Span(a, b) => if b - a <= 0 then -1.0 else ((b - a) as real / MS_PER_HOUR) / (count - 1) as real
  }

  /** The estimate is -1 or positive; positive exactly with two counted faults and a logged span of positive length. */
  lemma MTBFSign(count: nat, s: Span)
    ensures MTBF(count, s) == -1.0 || MTBF(count, s) > 0.0
    ensures MTBF(count, s) > 0.0 <==> count >= 2 && s.Span? && s.last > s.first
  {
    if count >= 2 && s.Span? && s.last > s.first {
      var d := (s.last - s.first) as real / MS_PER_HOUR;
      assert d > 0.0;
      assert (count - 1) as real > 0.0;
    }
  }

  /** The per-unit history newest first, stopping once maxCount entries are found. */
  function NewestFirstOf(h: seq<FaultCode>, id: string, maxCount: int): (r: seq<FaultCode>)
    ensures |r| <= Max(0, maxCount)
    ensures forall i :: 0 <= i < |r| ==> r[i].subsystemId == id && r[i] in h
    decreases |h|
  {
    if |h| == 0 || maxCount <= 0 then []
    else
      var n := |h| - 1;
      var rest := h[..n];
      if h[n].subsystemId == id then [h[n]] + NewestFirstOf(rest, id, maxCount - 1)
      else NewestFirstOf(rest, id, maxCount)
  }

  lemma NewestFirstOfStep(h: seq<FaultCode>, id: string, maxCount: int, i: nat)
    requires i < |h| && maxCount > 0
    ensures NewestFirstOf(h[..i + 1], id, maxCount)
      == if h[i].subsystemId == id then [h[i]] + NewestFirstOf(h[..i], id, maxCount - 1)
         else NewestFirstOf(h[..i], id, maxCount)
  {
    assert h[..i + 1][..i] == h[..i];
  }

  /** When fewer than maxCount entries come back, every entry of the unit was returned. */
  lemma {:induction false} NewestFirstOfComplete(h: seq<FaultCode>, id: string, maxCount: int, j: nat)
    requires j < |h| && h[j].subsystemId == id
    requires |NewestFirstOf(h, id, maxCount)| < maxCount
    ensures h[j] in NewestFirstOf(h, id, maxCount)
    decreases |h|
  {
    var n := |h| - 1;
    if j < n {
      assert h[..n][j] == h[j];
      if h[n].subsystemId == id {
        NewestFirstOfComplete(h[..n], id, maxCount - 1, j);
      } else {
        NewestFirstOfComplete(h[..n], id, maxCount, j);
      }
    }
  }

  /** The queries that count active faults. */
  datatype Filter = Severe | OfSeverity(severity: FaultSeverity) | OfUnit(subsystemId: string)

  predicate Matches(f: FaultCode, filter: Filter) {
    match filter
    case Severe => FaultLog.IsSevere(f.severity)
    case OfSeverity(s) => f.severity == s
    case OfUnit(id) => f.subsystemId == id
  }

  function Matching(active: map<FaultKey, FaultCode>, filter: Filter): set<FaultKey> {
    set k | k in active && Matches(active[k], filter)
  }

  /** The critical, warning and info counts add up to the number of active faults. */
  lemma SeverityCountsPartition(active: map<FaultKey, FaultCode>)
    ensures |Matching(active, Severe)| + |Matching(active, OfSeverity(WARNING))| + |Matching(active, OfSeverity(INFO))|
      == |active|
  {
    var c, w, i := Matching(active, Severe), Matching(active, OfSeverity(WARNING)), Matching(active, OfSeverity(INFO));
    assert c !! w && c !! i && w !! i;
    assert c + w + i == active.Keys;
    assert |c + w| == |c| + |w|;
    assert |c + w + i| == |c + w| + |i|;
  }

  /** The history loop of getFaultHistory(id): from the newest entry back, until maxCount are taken. */
  method NewestAlong(h: seq<FaultCode>, id: string, maxCount: int) returns (r: seq<FaultCode>)
    ensures r == NewestFirstOf(h, id, maxCount)
  {
    ghost var want := NewestFirstOf(h, id, maxCount);
    r := [];
    var i := |h| - 1;
    assert h[..|h|] == h;
    ghost var tail := want;
    while i >= 0 && |r| < maxCount
      invariant -1 <= i <= |h| - 1
      invariant tail == NewestFirstOf(h[..i + 1], id, maxCount - |r|)
      invariant r + tail == want
    {
      NewestFirstOfStep(h, id, maxCount - |r|, i);
      if h[i].subsystemId == id {
        var rest := NewestFirstOf(h[..i], id, maxCount - |r| - 1);
        assert tail == [h[i]] + rest;
        Regrouped(r, [h[i]], rest);
        r, tail := r + [h[i]], rest;
      } else {
        tail := NewestFirstOf(h[..i], id, maxCount - |r|);
      }
      i := i - 1;
    }
  }

  /** The history loop of estimateMTBF: the earliest and the latest stamp of the unit. */
  method SpanAlong(h: seq<FaultCode>, id: string) returns (span: Span)
    ensures span == StampSpan(h, id)
  {
    span := NoSpan;
    var i := 0;
    while i < |h|
      invariant 0 <= i <= |h|
      invariant span == StampSpan(h[..i], id)
    {
      assert h[..i + 1][..i] == h[..i];
      if h[i].subsystemId == id {
        span := Widen(span, h[i].timestamp);
      }
      i := i + 1;
    }
    assert h[..|h|] == h;
  }

  class FaultLedger {
    var active: map<FaultKey, FaultCode>
    var history: seq<FaultCode>
    var lastFault: map<string, int>
    var counts: map<string, nat>
    var events: seq<LedgerSignal>

    constructor ()
      ensures active == map[] && history == [] && lastFault == map[] && counts == map[] && events == []
    {
      active := map[];
      history := [];
      lastFault := map[];
      counts := map[];
      events := [];
    }

    function Contents(): Ledger
      reads this`active, this`history, this`lastFault, this`counts
    {
      Ledger(active, history, lastFault, counts)
    }

    predicate Valid()
      reads this`active, this`history
    {
      && |history| <= MAX_LEDGER_HISTORY
      && forall k :: k in active ==> KeyOf(active[k]) == k
    }

    method TrimHistory()
      modifies this`history
      ensures history == KeepLast(old(history), MAX_LEDGER_HISTORY)
    {
      ghost var h0 := history;
      while |history| > MAX_LEDGER_HISTORY
        invariant |history| <= |h0| && history == h0[|h0| - |history|..]
        invariant |history| >= Min(|h0|, MAX_LEDGER_HISTORY)
        decreases |history|
      {
        history := history[1..];
      }
    }

    method RegisterFault(f: FaultCode)
      requires Valid()
      modifies this`active, this`history, this`lastFault, this`counts, this`events
      ensures Valid()
      ensures Contents() == Register(old(Contents()), f)
      ensures events == old(events) + RegisterSignals(old(Contents()), f)
    {
      var key := KeyOf(f);
      if key in active {
        return;
      }
      active := active[key := f];
      history := history + [f];
      lastFault := lastFault[f.subsystemId := f.timestamp];
      counts := counts[f.subsystemId := CountOf(counts, f.subsystemId) + 1];
      TrimHistory();
      events := events + [FaultRegistered(f.subsystemId, f.code), FaultsChanged];
      if FaultLog.IsSevere(f.severity) {
        events := events + [CriticalFaultOccurred(f.subsystemId, f.code)];
      }
    }

    method ClearFault(code: string, subsystemId: string)
      requires Valid()
      modifies this`active, this`events
      ensures Valid()
      ensures Contents() == Clear(old(Contents()), subsystemId, code)
      ensures events == old(events) +
        if FaultKey(subsystemId, code) in old(active) then [FaultCleared(subsystemId, code), FaultsChanged] else []
    {
      var key := FaultKey(subsystemId, code);
      if key in active {
        active := active - {key};
        events := events + [FaultCleared(subsystemId, code), FaultsChanged];
      }
    }

    method AnnounceCleared(f: FaultCode)
      modifies this`events
      ensures events == old(events) + [FaultCleared(f.subsystemId, f.code)]
    {
      events := events + [FaultCleared(f.subsystemId, f.code)];
    }

    /** The keys of a set in an order the model leaves open (the map's own iteration order). */
    method ListKeys(s: set<FaultKey>) returns (r: seq<FaultKey>)
      ensures Lists(r, s)
    {
      r := [];
      var todo := s;
      while todo != {}
        invariant todo <= s
        invariant forall k :: k in r <==> k in s && k !in todo
        invariant forall i, j :: 0 <= i < j < |r| ==> r[i] != r[j]
        decreases |todo|
      {
        var k :| k in todo;
        r := r + [k];
        todo := todo - {k};
      }
    }

    /** Takes every listed record out of the map, announcing each. */
    method TakeAll(keys: seq<FaultKey>)
      requires Valid() && (forall k :: k in keys ==> k in active)
      requires forall i, j :: 0 <= i < j < |keys| ==> keys[i] != keys[j]
      modifies this`active, this`events
      ensures Valid() && Without(active, old(active), keys)
      ensures events == old(events) + ClearedSignals(keys)
    {
      var remaining, emitted := active, [];
      ghost var a0 := active;
      assert forall k :: k in a0 ==> KeyOf(a0[k]) == k;
      var i := 0;
      while i < |keys|
        invariant 0 <= i <= |keys|
        invariant Without(remaining, a0, keys[..i])
        invariant emitted == ClearedSignals(keys[..i]) && events == old(events)
      {
        var k := keys[i];
        WithoutStep(remaining, a0, keys, i);
        assert keys[..i + 1] == keys[..i] + [k];
        ClearedSignalsSnoc(keys[..i], k);
        var fault := remaining[k];
        assert KeyOf(fault) == k;
        remaining := remaining - {k};
        emitted := emitted + [FaultCleared(fault.subsystemId, fault.code)];
        i := i + 1;
      }
      assert keys[..i] == keys;
      active := remaining;
      events := events + emitted;
    }

    /** clearAllFaults(id): collects the unit's keys, then takes each out and announces it. */
    method ClearAllFaultsOf(subsystemId: string) returns (ghost order: seq<FaultKey>)
      requires Valid()
      modifies this`active, this`events
      ensures Valid()
      ensures Contents() == ClearUnit(old(Contents()), subsystemId)
      ensures Lists(order, KeysOf(old(active), subsystemId))
      ensures events == old(events) + ClearedSignals(order) + (if |order| > 0 then [FaultsChanged] else [])
    {
      var keysToRemove := ListKeys(KeysOf(active, subsystemId));
      TakeAll(keysToRemove);
      order := keysToRemove;
      if |keysToRemove| > 0 {
        events := events + [FaultsChanged];
      }
    }

    /** One faultCleared per listed key. */
    method AnnounceAll(keys: seq<FaultKey>)
      requires Valid() && forall k :: k in keys ==> k in active
      modifies this`events
      ensures events == old(events) + ClearedSignals(keys)
    {
      var i := 0;
      while i < |keys|
        invariant 0 <= i <= |keys|
        invariant events == old(events) + ClearedSignals(keys[..i])
      {
        assert keys[..i + 1] == keys[..i] + [keys[i]];
        ClearedSignalsSnoc(keys[..i], keys[i]);
        AnnounceCleared(active[keys[i]]);
        i := i + 1;
      }
      assert keys[..i] == keys;
    }

    /** clearAllFaults(): every active fault is announced, then the map is emptied. */
    method ClearAllFaults() returns (ghost order: seq<FaultKey>)
      requires Valid()
      modifies this`active, this`events
      ensures Valid()
      ensures Contents() == ClearEverything(old(Contents()))
      ensures Lists(order, old(active).Keys)
      ensures events == old(events) + ClearedSignals(order) + (if |order| > 0 then [FaultsChanged] else [])
    {
      order := [];
      if |active| == 0 {
        return;
      }
      var keys := ListKeys(active.Keys);
      AnnounceAll(keys);
      order := keys;
      active := map[];
      events := events + [FaultsChanged];
    }

    /** getActiveFaults(), as the set of active records. */
    function ActiveFaults(): (r: set<FaultCode>)
      reads this`active
      ensures forall f :: f in r <==> exists k :: k in active && active[k] == f
    {
      set k | k in active :: active[k]
    }

    /** getActiveFaults(id): the active records of one unit. */
    method ActiveFaultsOf(subsystemId: string) returns (r: seq<FaultCode>)
      ensures forall f :: f in r <==> f in active.Values && f.subsystemId == subsystemId
    {
      r := [];
      var todo := active.Keys;
      while todo != {}
        invariant todo <= active.Keys
        invariant forall f :: f in r ==> f in active.Values && f.subsystemId == subsystemId
        invariant forall k :: k in active && k !in todo && active[k].subsystemId == subsystemId ==> active[k] in r
        decreases |todo|
      {
        var k :| k in todo;
        if active[k].subsystemId == subsystemId {
          r := r + [active[k]];
        }
        todo := todo - {k};
      }
    }

    method GetFaultHistory(maxCount: int) returns (r: seq<FaultCode>)
      ensures r == NewestFirst(history, maxCount)
    {
      r := [];
      var start := Max(0, |history| - maxCount);
      var i := |history| - 1;
      while i >= start
        invariant -1 <= i <= |history| - 1
        invariant i == |history| - 1 || i >= start - 1
        invariant |r| == |history| - 1 - i
        invariant forall j :: 0 <= j < |r| ==> r[j] == history[|history| - 1 - j]
      {
        r := r + [history[i]];
        i := i - 1;
      }
      assert |r| == |NewestFirst(history, maxCount)|;
    }

    method GetFaultHistoryOf(subsystemId: string, maxCount: int) returns (r: seq<FaultCode>)
      ensures r == NewestFirstOf(history, subsystemId, maxCount)
    {
      r := NewestAlong(history, subsystemId, maxCount);
    }

    method HasFault(code: string) returns (found: bool)
      ensures found <==> exists k :: k in active && active[k].code == code
    {
      var todo := active.Keys;
      while todo != {}
        invariant todo <= active.Keys
        invariant forall k :: k in active && k !in todo ==> active[k].code != code
        decreases |todo|
      {
        var k :| k in todo;
        if active[k].code == code {
          return true;
        }
        todo := todo - {k};
      }
      return false;
    }

    /**
     * getFault: the first active record with the code in the map's visiting
     * order, which is the order of the joined keys; the default record when
     * no active record has the code.
     */
    method GetFault(code: string) returns (f: FaultCode)
      requires Valid()
      ensures (exists k :: k in active && active[k].code == code) ==>
        exists k :: FirstWithCode(active, code, k) && f == active[k]
      ensures (forall k :: k in active ==> active[k].code != code) ==> f == DefaultFaultCode()
    {
      var found := false;
      var best := FaultKey("", "");
      var todo := active.Keys;
      while todo != {}
        invariant todo <= active.Keys
        invariant found ==> best in active && active[best].code == code && best !in todo
        invariant found ==> forall k :: k in active && k !in todo && active[k].code == code && k != best ==>
          KeyOrder.Less(Joined(best), Joined(k))
        invariant !found ==> forall k :: k in active && k !in todo ==> active[k].code != code
        decreases |todo|
      {
        var k :| k in todo;
        if active[k].code == code {
          if !found {
            best, found := k, true;
          } else {
            assert KeyOf(active[k]) == k && KeyOf(active[best]) == best;
            JoinedSameCode(k, best);
            KeyOrder.LessTotal(Joined(k), Joined(best));
            if KeyOrder.Less(Joined(k), Joined(best)) {
              forall k2 | k2 in active && k2 !in todo && active[k2].code == code && k2 != best
                ensures KeyOrder.Less(Joined(k), Joined(k2))
              {
                KeyOrder.LessTransitive(Joined(k), Joined(best), Joined(k2));
              }
              best := k;
            }
          }
        }
        todo := todo - {k};
      }
      if found {
        return active[best];
      }
      return DefaultFaultCode();
    }

    function TotalActiveFaults(): (n: nat)
      reads this`active
      ensures n == |active.Keys|
    {
      |active|
    }

    /** getCriticalFaultCount, getFaultCount(severity) and getFaultCount(id): one counting loop, three filters. */
    method CountMatching(filter: Filter) returns (n: nat)
      ensures n == |Matching(active, filter)|
    {
      n := 0;
      var todo := active.Keys;
      ghost var counted: set<FaultKey> := {};
      while todo != {}
        invariant todo <= active.Keys && counted == Matching(active, filter) - todo
        invariant n == |counted|
        decreases |todo|
      {
        var k :| k in todo;
        if Matches(active[k], filter) {
          n := n + 1;
          counted := counted + {k};
        }
        todo := todo - {k};
      }
    }

    /** The estimate for one unit, from its cumulative count and the logged timestamps. */
    function Estimate(subsystemId: string): real
      reads this`history, this`counts
    {
      MTBF(CountOf(counts, subsystemId), StampSpan(history, subsystemId))
    }

    method EstimateMTBF(subsystemId: string) returns (mtbf: real)
      ensures mtbf == Estimate(subsystemId)
      ensures mtbf == -1.0 || mtbf > 0.0
    {
      MTBFSign(CountOf(counts, subsystemId), StampSpan(history, subsystemId));
      var faultCount := CountOf(counts, subsystemId);
      if faultCount < 2 {
        return -1.0;
      }
      var span := SpanOf(subsystemId);
      if span.NoSpan? {
        return -1.0;
      }
      var total := span.last - span.first;
      if total <= 0 {
        return -1.0;
      }
      return (total as real / MS_PER_HOUR) / (faultCount - 1) as real;
    }

    /** The first and the last timestamp among the unit's history entries. */
    method SpanOf(subsystemId: string) returns (span: Span)
      ensures span == StampSpan(history, subsystemId)
    {
      span := SpanAlong(history, subsystemId);
    }

    /** getMTBFReport: the units with a positive estimate. */
    method GetMTBFReport() returns (report: map<string, real>)
      ensures forall id :: id in report <==> id in counts && Estimate(id) > 0.0
      ensures forall id :: id in report ==> report[id] == Estimate(id)
    {
      report := map[];
      var todo := counts.Keys;
      while todo != {}
        invariant todo <= counts.Keys
        invariant forall id :: id in report <==> id in counts && id !in todo && Estimate(id) > 0.0
        invariant forall id :: id in report ==> report[id] == Estimate(id)
        decreases |todo|
      {
        var id :| id in todo;
        var mtbf := EstimateMTBF(id);
        if mtbf > 0.0 {
          report := report[id := mtbf];
        }
        todo := todo - {id};
      }
    }

    /** onSubsystemFault: the fault is registered under the reporting unit's id. */
    method OnSubsystemFault(subsystemId: string, fault: FaultCode)
      requires Valid()
      modifies this`active, this`history, this`lastFault, this`counts, this`events
      ensures Valid()
      ensures Contents() == Register(old(Contents()), fault.(subsystemId := subsystemId))
      ensures events == old(events) + RegisterSignals(old(Contents()), fault.(subsystemId := subsystemId))
    {
      RegisterFault(fault.(subsystemId := subsystemId));
    }

    method OnSubsystemFaultCleared(subsystemId: string, code: string)
      requires Valid()
      modifies this`active, this`events
      ensures Valid()
      ensures Contents() == Clear(old(Contents()), subsystemId, code)
      ensures events == old(events) +
        if FaultKey(subsystemId, code) in old(active) then [FaultCleared(subsystemId, code), FaultsChanged] else []
    {
      ClearFault(code, subsystemId);
    }
  }
}
