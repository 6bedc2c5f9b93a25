/**
 * Health analytics: a per-unit ledger of fault records (opened when a fault
 * occurs, resolved when it clears), per-unit health snapshots with up and
 * down time, and the figures derived from them: MTBF, MTTR, availability,
 * fault statistics and the most frequent fault codes.  Times are
 * milliseconds; the current time is the parameter `now`.
 */
module Analytics {
  import opened Wrappers
  import opened Values
  import opened HealthStatus
  import opened Bounded
  import opened KeyOrder
  import Uptime

  const MS_PER_HOUR: int := 3600000
  const MS_PER_MINUTE: real := 60000.0
  const DEFAULT_RETENTION_HOURS: int := 24
  const DEFAULT_SNAPSHOT_INTERVAL_MS: int := 60000
  /** The number of entries generateReport asks getTopFaults for. */
  const REPORT_TOP_FAULTS: int := 10

  const TWO_31: int := 0x8000_0000

  /** The conversion of a qint64 to a 32-bit int: two's-complement wrap-around. */
  function Int32(x: int): (r: int)
    ensures -TWO_31 <= r < TWO_31
    ensures -TWO_31 <= x < TWO_31 ==> r == x
  {
    (x + TWO_31) % (2 * TWO_31) - TWO_31
  }

  /** One fault occurrence; `durationMs` is a 32-bit int. */
  datatype FaultRecord = FaultRecord(faultCode: string, startTime: int, endTime: int, durationMs: int, resolved: bool)

  datatype HealthRecord = HealthRecord(timestamp: int, state: HealthState, healthScore: real, telemetry: ValueMap)

  /** What a snapshot reads from one unit of the manager. */
  datatype UnitReading = UnitReading(id: string, state: HealthState, healthScore: real, telemetry: ValueMap)

  type FaultLedger = map<string, seq<FaultRecord>>

  datatype AnalyticsSignal = AnalyticsUpdated

  datatype SubsystemAnalytics = SubsystemAnalytics(uptime: real, mtbf: real, mttr: real, faultCount: nat, availability: real)

  datatype FaultStatistics = FaultStatistics(totalFaults: int, resolvedFaults: int, activeFaults: int, averageDowntimeMs: int)

  datatype FaultTally = FaultTally(code: string, count: nat)

  function RecordsOf(ledger: FaultLedger, id: string): seq<FaultRecord> {
    if id in ledger then ledger[id] else []
  }

  function ValueOr(m: map<string, int>, id: string): int {
    if id in m then m[id] else 0
  }

  /** onFaultOccurred: a fresh unresolved record; end time and duration are not set yet. */
  function OpenRecord(code: string, now: int): (r: FaultRecord)
    ensures r.faultCode == code && r.startTime == now && !r.resolved
  {
    FaultRecord(code, now, NO_TIME, 0, false)
  }

  /** The ledger after onFaultOccurred. */
  function Opened(ledger: FaultLedger, id: string, code: string, now: int): (r: FaultLedger)
    ensures r.Keys == ledger.Keys + {id}
    ensures r[id] == RecordsOf(ledger, id) + [OpenRecord(code, now)]
    ensures forall k :: k in ledger && k != id ==> r[k] == ledger[k]
  {
    ledger[id := RecordsOf(ledger, id) + [OpenRecord(code, now)]]
  }

  predicate Open(r: FaultRecord, code: string) {
    r.faultCode == code && !r.resolved
  }

  /** The index of the most recent unresolved record with the code. */
  function LastOpen(records: seq<FaultRecord>, code: string): (r: Option<nat>)
    ensures r.Some? ==> r.value < |records|
  {
    if records == [] then None
    else if Open(records[|records| - 1], code) then Some(|records| - 1)
    else LastOpen(records[..|records| - 1], code)
  }

  lemma {:induction false} LastOpenSpec(records: seq<FaultRecord>, code: string)
    ensures LastOpen(records, code).None? ==> forall j :: 0 <= j < |records| ==> !Open(records[j], code)
    ensures LastOpen(records, code).Some? ==>
      var i := LastOpen(records, code).value;
      i < |records| && Open(records[i], code) && forall j :: i < j < |records| ==> !Open(records[j], code)
  {
    if records != [] && !Open(records[|records| - 1], code) {
      var front := records[..|records| - 1];
      LastOpenSpec(front, code);
      forall j | 0 <= j < |front|
        ensures records[j] == front[j]
      {
      }
    }
  }

  /** A record resolved now: its duration is end less start, stored in 32 bits. */
  function Resolve(r: FaultRecord, now: int): (t: FaultRecord)
    ensures t.faultCode == r.faultCode && t.startTime == r.startTime && t.resolved
    ensures t.endTime == now && t.durationMs == Int32(now - r.startTime)
  {
    r.(endTime := now, durationMs := Int32(now - r.startTime), resolved := true)
  }

  /** onFaultCleared on one unit's records: resolve the most recent open record with the code, if any. */
  function ResolvedLatest(records: seq<FaultRecord>, code: string, now: int): seq<FaultRecord> {
    match LastOpen(records, code)
    case None => records
    case Some(i) => records[i := Resolve(records[i], now)]
  }

  /**
   * Clearing changes at most one record: none when no record with the code
   * is open; otherwise exactly the most recent open one, which becomes
   * resolved with its duration set.  The number of records is unchanged.
   */
  lemma ResolvedLatestSpec(records: seq<FaultRecord>, code: string, now: int)
    ensures var r := ResolvedLatest(records, code, now);
      && |r| == |records|
      && ((forall j :: 0 <= j < |records| ==> !Open(records[j], code)) ==> r == records)
      && (forall j :: 0 <= j < |records| && Open(records[j], code) ==>
            exists i :: (j <= i < |records| && Open(records[i], code) && r[i] == Resolve(records[i], now)
              && (forall k :: 0 <= k < |records| && k != i ==> r[k] == records[k])))
  {
    LastOpenSpec(records, code);
    var r := ResolvedLatest(records, code, now);
    if LastOpen(records, code).None? {
      assert r == records;
    } else {
      var i := LastOpen(records, code).value;
      forall j | 0 <= j < |records| && Open(records[j], code)
        ensures exists i :: (j <= i < |records| && Open(records[i], code) && r[i] == Resolve(records[i], now)
          && (forall k :: 0 <= k < |records| && k != i ==> r[k] == records[k]))
      {
        assert j <= i;
      }
    }
  }

  /** The ledger after onFaultCleared: indexing inserts an empty list for an unknown unit. */
  function ClearedIn(ledger: FaultLedger, id: string, code: string, now: int): (r: FaultLedger)
    ensures r.Keys == ledger.Keys + {id}
    ensures id !in ledger ==> r[id] == []
    ensures forall k :: k in ledger && k != id ==> r[k] == ledger[k]
  {
    ledger[id := ResolvedLatest(RecordsOf(ledger, id), code, now)]
  }

  // The figures of one unit.

  function UptimeHoursOf(uptimeMs: map<string, int>, id: string): real {
    ValueOr(uptimeMs, id) as real / MS_PER_HOUR as real
  }

  /** getSubsystemMTBF: uptime hours per gap between faults, -1 with fewer than two faults. */
  function Mtbf(ledger: FaultLedger, uptimeMs: map<string, int>, id: string): (h: real)
    ensures |RecordsOf(ledger, id)| < 2 ==> h == -1.0
    ensures |RecordsOf(ledger, id)| >= 2 && ValueOr(uptimeMs, id) >= 0 ==> 0.0 <= h <= UptimeHoursOf(uptimeMs, id)
  {
    var n := |RecordsOf(ledger, id)|;
    if n < 2 then -1.0
    else
      var u := UptimeHoursOf(uptimeMs, id);
      assert u >= 0.0 ==> u / (n - 1) as real <= u by {
        if u >= 0.0 {
          assert u / (n - 1) as real * (n - 1) as real == u;
        }
      }
      u / (n - 1) as real
  }

  /** getSubsystemMTTR: downtime minutes per fault, 0 without faults. */
  function Mttr(ledger: FaultLedger, downtimeMs: map<string, int>, id: string): (m: real)
    ensures |RecordsOf(ledger, id)| == 0 ==> m == 0.0
    ensures ValueOr(downtimeMs, id) >= 0 ==> m >= 0.0
    ensures |RecordsOf(ledger, id)| == 1 ==> m == ValueOr(downtimeMs, id) as real / MS_PER_MINUTE
  {
    var n := |RecordsOf(ledger, id)|;
    if n == 0 then 0.0 else (ValueOr(downtimeMs, id) as real / MS_PER_MINUTE) / n as real
  }

  // Fault statistics: a pass over every record of every unit, in key order.

  /** All records, unit after unit in the listed order. */
  function AllAlong(keys: seq<string>, ledger: FaultLedger): seq<FaultRecord>
    requires forall k :: k in keys ==> k in ledger
  {
    if keys == [] then [] else ledger[keys[0]] + AllAlong(keys[1..], ledger)
  }

  /** Every record of the ledger, in visiting order. */
  ghost function AllFaults(ledger: FaultLedger): seq<FaultRecord> {
    AllAlong(Ordered(ledger.Keys), ledger)
  }

  /** The running counters of getFaultStatistics. */
  datatype Tally = Tally(total: nat, resolved: nat, downtime: int)

  function Count(t: Tally, r: FaultRecord): Tally {
    Tally(t.total + 1, t.resolved + (if r.resolved then 1 else 0), t.downtime + (if r.resolved then r.durationMs else 0))
  }

  function TallyFrom(t: Tally, s: seq<FaultRecord>): Tally
    decreases |s|
  {
    if s == [] then t else TallyFrom(Count(t, s[0]), s[1..])
  }

  lemma {:induction false} TallyAppend(t: Tally, a: seq<FaultRecord>, b: seq<FaultRecord>)
    ensures TallyFrom(t, a + b) == TallyFrom(TallyFrom(t, a), b)
    decreases |a|
  {
    if a == [] {
      assert a + b == b;
    } else {
      assert (a + b)[0] == a[0] && (a + b)[1..] == a[1..] + b;
      TallyAppend(Count(t, a[0]), a[1..], b);
    }
  }

  /** The resolved records, an independent statement of what is counted. */
  function ResolvedOnly(s: seq<FaultRecord>): (r: seq<FaultRecord>)
    ensures |r| <= |s|
  {
    if s == [] then []
    else (if s[0].resolved then [s[0]] else []) + ResolvedOnly(s[1..])
  }

  lemma {:induction false} ResolvedOnlyMembers(s: seq<FaultRecord>)
    ensures forall x :: x in ResolvedOnly(s) <==> x in s && x.resolved
  {
    if s != [] {
      ResolvedOnlyMembers(s[1..]);
      assert forall x :: x in s <==> x == s[0] || x in s[1..];
    }
  }

  function Durations(s: seq<FaultRecord>): int {
    if s == [] then 0 else s[0].durationMs + Durations(s[1..])
  }

  /** The counters count every record, the resolved ones, and the resolved records' durations. */
  lemma {:induction false} TallyFromSpec(t: Tally, s: seq<FaultRecord>)
    ensures TallyFrom(t, s) == Tally(t.total + |s|, t.resolved + |ResolvedOnly(s)|, t.downtime + Durations(ResolvedOnly(s)))
    decreases |s|
  {
    if s != [] {
      TallyFromSpec(Count(t, s[0]), s[1..]);
      var rest := ResolvedOnly(s[1..]);
      if s[0].resolved {
        assert ResolvedOnly(s) == [s[0]] + rest;
        assert ([s[0]] + rest)[1..] == rest;
      } else {
        assert ResolvedOnly(s) == ResolvedOnly(s[1..]);
      }
    }
  }

  function StatisticsFrom(t: Tally): FaultStatistics {
    FaultStatistics(t.total, t.resolved, t.total - t.resolved,
                    if t.resolved > 0 then Uptime.TruncDiv(t.downtime, t.resolved) else 0)
  }

  /** getFaultStatistics. */
  ghost function StatisticsOf(ledger: FaultLedger): FaultStatistics {
    StatisticsFrom(TallyFrom(Tally(0, 0, 0), AllFaults(ledger)))
  }

  lemma QuotientWithin(s: int, n: int, bound: int)
    requires 0 <= s <= n * bound && n > 0
    ensures 0 <= s / n <= bound
  {
  }

  lemma MulStep(n: int, b: int)
    ensures n * b == (n - 1) * b + b
  {
  }

  lemma {:induction false} DurationsWithin(s: seq<FaultRecord>, bound: int)
    requires forall x :: x in s ==> 0 <= x.durationMs <= bound
    ensures 0 <= Durations(s) <= |s| * bound
    decreases |s|
  {
    if s != [] {
      assert forall x :: x in s[1..] ==> x in s;
      DurationsWithin(s[1..], bound);
      assert s[0] in s;
      MulStep(|s|, bound);
    }
  }

  /**
   * The statistics count every record once: total is the number of records,
   * resolved the number of resolved ones, active the rest; the average
   * downtime is 0 when nothing is resolved and, when every resolved duration
   * lies in [0, bound], lies in [0, bound] too.
   */
  lemma StatisticsSpec(ledger: FaultLedger, bound: int)
    ensures var st := StatisticsOf(ledger);
      && st.totalFaults == |AllFaults(ledger)|
      && st.resolvedFaults == |ResolvedOnly(AllFaults(ledger))|
      && st.totalFaults == st.resolvedFaults + st.activeFaults
      && 0 <= st.resolvedFaults <= st.totalFaults
      && (st.resolvedFaults == 0 ==> st.averageDowntimeMs == 0)
      && ((forall x :: x in AllFaults(ledger) && x.resolved ==> 0 <= x.durationMs <= bound) ==>
            0 <= st.averageDowntimeMs <= bound || st.resolvedFaults == 0)
  {
    var all := AllFaults(ledger);
    var res := ResolvedOnly(all);
    TallyFromSpec(Tally(0, 0, 0), all);
    if forall x :: x in all && x.resolved ==> 0 <= x.durationMs <= bound {
      ResolvedOnlyMembers(all);
      DurationsWithin(res, bound);
      if |res| > 0 {
        QuotientWithin(Durations(res), |res|, bound);
      }
    }
  }

  // Top faults: occurrences per code, ordered by count.

  function Bump(m: map<string, nat>, c: string): map<string, nat> {
    m[c := (if c in m then m[c] else 0) + 1]
  }

  function CountsFrom(m: map<string, nat>, s: seq<FaultRecord>): map<string, nat>
    decreases |s|
  {
    if s == [] then m else CountsFrom(Bump(m, s[0].faultCode), s[1..])
  }

  lemma {:induction false} CountsAppend(m: map<string, nat>, a: seq<FaultRecord>, b: seq<FaultRecord>)
    ensures CountsFrom(m, a + b) == CountsFrom(CountsFrom(m, a), b)
    decreases |a|
  {
    if a == [] {
      assert a + b == b;
    } else {
      assert (a + b)[0] == a[0] && (a + b)[1..] == a[1..] + b;
      CountsAppend(Bump(m, a[0].faultCode), a[1..], b);
    }
  }

  /** How many records carry the code. */
  function Occurrences(s: seq<FaultRecord>, c: string): nat {
    if s == [] then 0 else (if s[0].faultCode == c then 1 else 0) + Occurrences(s[1..], c)
  }

  /** The counting pass adds each code's occurrences to what it starts from, and lists exactly the codes seen. */
  lemma {:induction false} CountsFromSpec(m: map<string, nat>, s: seq<FaultRecord>, c: string)
    ensures c in CountsFrom(m, s) <==> c in m || Occurrences(s, c) > 0
    ensures c in CountsFrom(m, s) ==> CountsFrom(m, s)[c] == (if c in m then m[c] else 0) + Occurrences(s, c)
    decreases |s|
  {
    if s != [] {
      CountsFromSpec(Bump(m, s[0].faultCode), s[1..], c);
    }
  }

  /** The (code, count) pairs in the listed key order. */
  function PairsAlong(keys: seq<string>, counts: map<string, nat>): (r: seq<FaultTally>)
    requires forall k :: k in keys ==> k in counts
    ensures |r| == |keys|
    ensures forall i :: 0 <= i < |r| ==> r[i] == FaultTally(keys[i], counts[keys[i]])
  {
    if keys == [] then [] else [FaultTally(keys[0], counts[keys[0]])] + PairsAlong(keys[1..], counts)
  }

  ghost predicate Descending(s: seq<FaultTally>) {
    forall i, j :: 0 <= i < j < |s| ==> s[i].count >= s[j].count
  }

  ghost predicate DistinctCodes(s: seq<FaultTally>) {
    forall i, j :: 0 <= i < j < |s| ==> s[i].code != s[j].code
  }

  /** One insertion of the sort by descending count (std::sort leaves the order of ties open). */
  function InsertDesc(s: seq<FaultTally>, p: FaultTally): seq<FaultTally>
    decreases |s|
  {
    if s == [] || s[0].count < p.count then [p] + s else [s[0]] + InsertDesc(s[1..], p)
  }

  lemma {:induction false} InsertDescMembers(s: seq<FaultTally>, p: FaultTally)
    ensures |InsertDesc(s, p)| == |s| + 1
    ensures forall q :: q in InsertDesc(s, p) <==> q in s || q == p
    decreases |s|
  {
    if s != [] && s[0].count >= p.count {
      InsertDescMembers(s[1..], p);
      assert forall q :: q in s <==> q == s[0] || q in s[1..];
    }
  }

  /** An element of s after the first has a count no greater, and a different code when codes are distinct. */
  lemma Behind(s: seq<FaultTally>, q: FaultTally)
    requires |s| > 0 && q in s[1..]
    ensures Descending(s) ==> q.count <= s[0].count
    ensures DistinctCodes(s) ==> q.code != s[0].code
  {
    var k :| 0 <= k < |s[1..]| && s[1..][k] == q;
    assert s[k + 1] == q;
  }

  lemma {:induction false} InsertDescOrder(s: seq<FaultTally>, p: FaultTally)
    requires Descending(s)
    ensures Descending(InsertDesc(s, p))
    decreases |s|
  {
    if s != [] && s[0].count >= p.count {
      var rest := InsertDesc(s[1..], p);
      InsertDescOrder(s[1..], p);
      InsertDescMembers(s[1..], p);
      forall j | 0 < j < |rest| + 1
        ensures ([s[0]] + rest)[0].count >= ([s[0]] + rest)[j].count
      {
        assert rest[j - 1] in rest;
        if rest[j - 1] != p {
          Behind(s, rest[j - 1]);
        }
      }
    }
  }

  lemma {:induction false} InsertDescDistinct(s: seq<FaultTally>, p: FaultTally)
    requires DistinctCodes(s) && forall q :: q in s ==> q.code != p.code
    ensures DistinctCodes(InsertDesc(s, p))
    decreases |s|
  {
    if s != [] && s[0].count >= p.count {
      var rest := InsertDesc(s[1..], p);
      assert forall q :: q in s[1..] ==> q in s;
      InsertDescDistinct(s[1..], p);
      InsertDescMembers(s[1..], p);
      forall j | 0 < j < |rest| + 1
        ensures ([s[0]] + rest)[0].code != ([s[0]] + rest)[j].code
      {
        assert rest[j - 1] in rest;
        if rest[j - 1] != p {
          Behind(s, rest[j - 1]);
        } else {
          assert s[0] in s;
        }
      }
    }
  }

  /** Insert every pair in turn. */
  function InsertAll(sorted: seq<FaultTally>, pairs: seq<FaultTally>): seq<FaultTally>
    decreases |pairs|
  {
    if pairs == [] then sorted else InsertAll(InsertDesc(sorted, pairs[0]), pairs[1..])
  }

  /** Sorting keeps every pair, adds none, and orders them by non-increasing count. */
  lemma {:induction false} InsertAllSpec(sorted: seq<FaultTally>, pairs: seq<FaultTally>)
    requires Descending(sorted) && DistinctCodes(sorted) && DistinctCodes(pairs)
    requires forall p, q :: p in sorted && q in pairs ==> p.code != q.code
    ensures var r := InsertAll(sorted, pairs);
      && |r| == |sorted| + |pairs| && Descending(r) && DistinctCodes(r)
      && forall q :: q in r <==> q in sorted || q in pairs
    decreases |pairs|
  {
    if pairs != [] {
      var p := pairs[0];
      InsertDescMembers(sorted, p);
      InsertDescOrder(sorted, p);
      InsertDescDistinct(sorted, p);
      var next := InsertDesc(sorted, p);
      forall q, o | q in next && o in pairs[1..]
        ensures q.code != o.code
      {
        var k :| 0 <= k < |pairs[1..]| && pairs[1..][k] == o;
        assert pairs[k + 1] == o;
      }
      assert forall q :: q in pairs <==> q == p || q in pairs[1..];
      InsertAllSpec(next, pairs[1..]);
    }
  }

  /** How many entries getTopFaults lists: qMin(count, size), none for a count below 1. */
  function Listed(count: int, size: nat): (n: nat)
    ensures n <= size && n == Min(Max(count, 0), size)
  {
    if count <= 0 then 0 else Min(count, size)
  }

  /** Every code of the records with its count, sorted by descending count. */
  ghost function Ranked(all: seq<FaultRecord>): seq<FaultTally> {
    var counts := CountsFrom(map[], all);
    InsertAll([], PairsAlong(Ordered(counts.Keys), counts))
  }

  /** The first `count` entries of the ranking. */
  ghost function Top(all: seq<FaultRecord>, count: int): seq<FaultTally> {
    Ranked(all)[..Listed(count, |Ranked(all)|)]
  }

  /** getTopFaults. */
  ghost function TopFaultsOf(ledger: FaultLedger, count: int): seq<FaultTally> {
    Top(AllFaults(ledger), count)
  }

  /** The ranking lists every code with records exactly once, with its number of records, by non-increasing count. */
  lemma RankedSpec(all: seq<FaultRecord>)
    ensures Descending(Ranked(all)) && DistinctCodes(Ranked(all))
    ensures forall p :: p in Ranked(all) ==> p.count == Occurrences(all, p.code) > 0
    ensures forall c :: Occurrences(all, c) > 0 ==> FaultTally(c, Occurrences(all, c)) in Ranked(all)
  {
    var counts := CountsFrom(map[], all);
    var pairs := PairsAlong(Ordered(counts.Keys), counts);
    PairsSpec(counts);
    InsertAllSpec([], pairs);
    forall p | p in Ranked(all)
      ensures p.count == Occurrences(all, p.code) > 0
    {
      CountsFromSpec(map[], all, p.code);
    }
    forall c | Occurrences(all, c) > 0
      ensures FaultTally(c, Occurrences(all, c)) in Ranked(all)
    {
      CountsFromSpec(map[], all, c);
    }
  }

  /** The listing of the counts in key order holds each code once, with its count. */
  lemma PairsSpec(counts: map<string, nat>)
    ensures DistinctCodes(PairsAlong(Ordered(counts.Keys), counts))
    ensures forall p :: p in PairsAlong(Ordered(counts.Keys), counts) <==> p.code in counts && p.count == counts[p.code]
  {
    var keys := Ordered(counts.Keys);
    var pairs := PairsAlong(keys, counts);
    DistinctKeys(counts.Keys);
    forall p
      ensures p in pairs <==> p.code in counts && p.count == counts[p.code]
    {
      if p.code in counts && p.count == counts[p.code] {
        var k :| 0 <= k < |keys| && keys[k] == p.code;
        assert pairs[k] == p;
      }
    }
  }

  /**
   * The top-fault listing holds at most `count` entries with non-increasing
   * counts, each a code with its exact number of records, no code twice;
   * a code with records is left out only when the listing is full, and then
   * has no more records than the last entry listed.
   */
  lemma TopSpec(all: seq<FaultRecord>, count: int)
    ensures var r := Top(all, count);
      && |r| <= Max(count, 0)
      && Descending(r) && DistinctCodes(r)
      && (forall p :: p in r ==> p.count == Occurrences(all, p.code) > 0)
      && (forall c :: Occurrences(all, c) > 0 && (forall p :: p in r ==> p.code != c) ==>
            |r| == Max(count, 0) && (|r| > 0 ==> Occurrences(all, c) <= r[|r| - 1].count))
  {
    RankedSpec(all);
    PrefixSpec(Ranked(all), all, Listed(count, |Ranked(all)|), count);
  }

  lemma PrefixSpec(sorted: seq<FaultTally>, all: seq<FaultRecord>, n: nat, count: int)
    requires Descending(sorted) && DistinctCodes(sorted)
    requires forall p :: p in sorted ==> p.count == Occurrences(all, p.code) > 0
    requires forall c :: Occurrences(all, c) > 0 ==> FaultTally(c, Occurrences(all, c)) in sorted
    requires n == Listed(count, |sorted|)
    ensures var r := sorted[..n];
      && |r| <= Max(count, 0)
      && Descending(r) && DistinctCodes(r)
      && (forall p :: p in r ==> p.count == Occurrences(all, p.code) > 0)
      && (forall c :: Occurrences(all, c) > 0 && (forall p :: p in r ==> p.code != c) ==>
            |r| == Max(count, 0) && (|r| > 0 ==> Occurrences(all, c) <= r[|r| - 1].count))
  {
    var r := sorted[..n];
    PrefixOrdered(sorted, n);
    forall c | Occurrences(all, c) > 0 && (forall p :: p in r ==> p.code != c)
      ensures |r| == Max(count, 0) && (|r| > 0 ==> Occurrences(all, c) <= r[|r| - 1].count)
    {
      LeftOut(sorted, n, FaultTally(c, Occurrences(all, c)));
    }
  }

  /** The first n entries of a descending list without repeated codes are one too, drawn from it. */
  lemma PrefixOrdered(sorted: seq<FaultTally>, n: nat)
    requires Descending(sorted) && DistinctCodes(sorted) && n <= |sorted|
    ensures Descending(sorted[..n]) && DistinctCodes(sorted[..n])
    ensures forall p :: p in sorted[..n] ==> p in sorted
  {
    assert forall i :: 0 <= i < n ==> sorted[..n][i] == sorted[i];
  }

  /** An entry of a descending list that its first n entries do not list lies behind them. */
  lemma LeftOut(sorted: seq<FaultTally>, n: nat, p: FaultTally)
    requires Descending(sorted) && n <= |sorted| && p in sorted
    requires forall q :: q in sorted[..n] ==> q.code != p.code
    ensures n < |sorted|
    ensures n > 0 ==> p.count <= sorted[n - 1].count
  {
    var m :| 0 <= m < |sorted| && sorted[m] == p;
    assert forall i :: 0 <= i < n ==> sorted[..n][i] in sorted[..n] && sorted[..n][i] == sorted[i];
    assert m >= n;
  }

  // Health snapshots.

  /** The three per-unit tables recordHealthSnapshot updates. */
  datatype Tracking = Tracking(health: map<string, seq<HealthRecord>>, uptimeMs: map<string, int>, downtimeMs: map<string, int>)

  function HistoryOf(health: map<string, seq<HealthRecord>>, id: string): seq<HealthRecord> {
    if id in health then health[id] else []
  }

  /** One unit of a snapshot: a health record appended, the interval added to uptime if up, else to downtime. */
  function RecordUnit(t: Tracking, u: UnitReading, interval: int, now: int): Tracking {
    var history := t.health[u.id := HistoryOf(t.health, u.id) + [HealthRecord(now, u.state, u.healthScore, u.telemetry)]];
    if Uptime.IsUp(u.state) then Tracking(history, t.uptimeMs[u.id := ValueOr(t.uptimeMs, u.id) + interval], t.downtimeMs)
    else Tracking(history, t.uptimeMs, t.downtimeMs[u.id := ValueOr(t.downtimeMs, u.id) + interval])
  }

  /**
   * Unlike the uptime tracker, a snapshot counts every state that is not up,
   * UNKNOWN included, as down time; nothing of another unit changes.
   */
  lemma RecordUnitSpec(t: Tracking, u: UnitReading, interval: int, now: int)
    ensures var r := RecordUnit(t, u, interval, now);
      && HistoryOf(r.health, u.id) == HistoryOf(t.health, u.id) + [HealthRecord(now, u.state, u.healthScore, u.telemetry)]
      && ValueOr(r.uptimeMs, u.id) == ValueOr(t.uptimeMs, u.id) + (if u.state in {OK, DEGRADED} then interval else 0)
      && ValueOr(r.downtimeMs, u.id) == ValueOr(t.downtimeMs, u.id) + (if u.state in {FAIL, UNKNOWN} then interval else 0)
      && (forall k :: k != u.id ==>
            HistoryOf(r.health, k) == HistoryOf(t.health, k)
            && ValueOr(r.uptimeMs, k) == ValueOr(t.uptimeMs, k) && ValueOr(r.downtimeMs, k) == ValueOr(t.downtimeMs, k))
  {
  }

  function RecordFrom(t: Tracking, units: seq<UnitReading>, interval: int, now: int): Tracking
    decreases |units|
  {
    if units == [] then t else RecordFrom(RecordUnit(t, units[0], interval, now), units[1..], interval, now)
  }

  /** The records of one unit no older than the cutoff (the remove_if / erase pass). */
  function Recent(s: seq<HealthRecord>, cutoff: int): seq<HealthRecord> {
    if s == [] then []
    else Recent(s[..|s| - 1], cutoff) + (if s[|s| - 1].timestamp >= cutoff then [s[|s| - 1]] else [])
  }

  /** Pruning keeps exactly the records no older than the cutoff, and all of them when none is older. */
  lemma {:induction false} RecentSpec(s: seq<HealthRecord>, cutoff: int)
    ensures forall x :: x in Recent(s, cutoff) <==> x in s && x.timestamp >= cutoff
    ensures |Recent(s, cutoff)| <= |s|
    ensures (forall x :: x in s ==> x.timestamp >= cutoff) ==> Recent(s, cutoff) == s
  {
    if s != [] {
      var front, last := s[..|s| - 1], s[|s| - 1];
      RecentSpec(front, cutoff);
      assert s == front + [last];
      forall x
        ensures x in Recent(s, cutoff) <==> x in s && x.timestamp >= cutoff
      {
        assert x in s <==> x in front || x == last;
      }
      if forall x :: x in s ==> x.timestamp >= cutoff {
        assert forall x :: x in front ==> x in s;
        assert last in s;
      }
    }
  }

  ghost function Pruned(health: map<string, seq<HealthRecord>>, cutoff: int): map<string, seq<HealthRecord>> {
    map k | k in health :: Recent(health[k], cutoff)
  }

  // The loops.

  /** The inner loop of getFaultStatistics over one unit's records. */
  method TallyRecords(records: seq<FaultRecord>, t: Tally) returns (r: Tally)
    ensures r == TallyFrom(t, records)
  {
    r := t;
    var j := 0;
    while j < |records|
      invariant 0 <= j <= |records|
      invariant TallyFrom(r, records[j..]) == TallyFrom(t, records)
    {
      assert records[j..][1..] == records[j + 1..];
      r := Count(r, records[j]);
      j := j + 1;
    }
  }

  /** The outer loop of getFaultStatistics over the listed units. */
  method TallyUnits(keys: seq<string>, ledger: FaultLedger) returns (r: Tally)
    requires forall k :: k in keys ==> k in ledger
    ensures r == TallyFrom(Tally(0, 0, 0), AllAlong(keys, ledger))
  {
    r := Tally(0, 0, 0);
    var i := 0;
    while i < |keys|
      invariant 0 <= i <= |keys|
      invariant TallyFrom(r, AllAlong(keys[i..], ledger)) == TallyFrom(Tally(0, 0, 0), AllAlong(keys, ledger))
    {
      assert keys[i..][1..] == keys[i + 1..];
      TallyAppend(r, ledger[keys[i]], AllAlong(keys[i + 1..], ledger));
      r := TallyRecords(ledger[keys[i]], r);
      i := i + 1;
    }
  }

  method ComputeStatistics(ledger: FaultLedger) returns (st: FaultStatistics)
    ensures st == StatisticsOf(ledger)
  {
    var keys := SortedKeys(ledger.Keys);
    var t := TallyUnits(keys, ledger);
    st := StatisticsFrom(t);
  }

  /** The inner counting loop of getTopFaults over one unit's records. */
  method CountRecords(records: seq<FaultRecord>, m: map<string, nat>) returns (r: map<string, nat>)
    ensures r == CountsFrom(m, records)
  {
    r := m;
    var j := 0;
    while j < |records|
      invariant 0 <= j <= |records|
      invariant CountsFrom(r, records[j..]) == CountsFrom(m, records)
    {
      assert records[j..][1..] == records[j + 1..];
      r := Bump(r, records[j].faultCode);
      j := j + 1;
    }
  }

  method CountUnits(keys: seq<string>, ledger: FaultLedger) returns (r: map<string, nat>)
    requires forall k :: k in keys ==> k in ledger
    ensures r == CountsFrom(map[], AllAlong(keys, ledger))
  {
    r := map[];
    var i := 0;
    while i < |keys|
      invariant 0 <= i <= |keys|
      invariant CountsFrom(r, AllAlong(keys[i..], ledger)) == CountsFrom(map[], AllAlong(keys, ledger))
    {
      assert keys[i..][1..] == keys[i + 1..];
      CountsAppend(r, ledger[keys[i]], AllAlong(keys[i + 1..], ledger));
      r := CountRecords(ledger[keys[i]], r);
      i := i + 1;
    }
  }

  /** The loop that lists the counted codes with their counts. */
  method ListPairs(keys: seq<string>, counts: map<string, nat>) returns (pairs: seq<FaultTally>)
    requires forall k :: k in keys ==> k in counts
    ensures pairs == PairsAlong(keys, counts)
  {
    pairs := [];
    var i := 0;
    while i < |keys|
      invariant 0 <= i <= |keys|
      invariant |pairs| == i
      invariant forall j :: 0 <= j < i ==> pairs[j] == FaultTally(keys[j], counts[keys[j]])
    {
      pairs := pairs + [FaultTally(keys[i], counts[keys[i]])];
      i := i + 1;
    }
  }

  /** The sort by descending count. */
  method SortTallies(pairs: seq<FaultTally>) returns (sorted: seq<FaultTally>)
    ensures sorted == InsertAll([], pairs)
  {
    sorted := [];
    var i := 0;
    while i < |pairs|
      invariant 0 <= i <= |pairs|
      invariant InsertAll(sorted, pairs[i..]) == InsertAll([], pairs)
    {
      assert pairs[i..][1..] == pairs[i + 1..];
      sorted := InsertDesc(sorted, pairs[i]);
      i := i + 1;
    }
  }

  method Rank(ledger: FaultLedger) returns (sorted: seq<FaultTally>)
    ensures sorted == Ranked(AllFaults(ledger))
  {
    var keys := SortedKeys(ledger.Keys);
    var counts := CountUnits(keys, ledger);
    var codes := SortedKeys(counts.Keys);
    var pairs := ListPairs(codes, counts);
    sorted := SortTallies(pairs);
  }

  method ComputeTopFaults(ledger: FaultLedger, count: int) returns (top: seq<FaultTally>)
    ensures top == TopFaultsOf(ledger, count)
  {
    var sorted := Rank(ledger);
    top := TakeFirst(sorted, Listed(count, |sorted|));
  }

  /** The loop that copies the first n ranked entries. */
  method TakeFirst(sorted: seq<FaultTally>, n: nat) returns (top: seq<FaultTally>)
    requires n <= |sorted|
    ensures top == sorted[..n]
  {
    top := [];
    var i := 0;
    while i < n
      invariant 0 <= i <= n
      invariant top == sorted[..i]
    {
      top := top + [sorted[i]];
      i := i + 1;
    }
  }

  /** getFaultHistory's loop: newest first, at most maxCount entries. */
  method NewestRecords(records: seq<FaultRecord>, maxCount: int) returns (r: seq<FaultRecord>)
    ensures r == NewestFirst(records, maxCount)
  {
    r := [];
    var count := 0;
    while count < |records| && count < maxCount
      invariant 0 <= count <= |records| && count <= Max(0, maxCount) && |r| == count
      invariant forall j :: 0 <= j < count ==> r[j] == records[|records| - 1 - j]
    {
      r := r + [records[|records| - 1 - count]];
      count := count + 1;
    }
    assert count == Min(|records|, Max(0, maxCount));
  }

  /** The onFaultCleared loop: from the newest record back, resolve the first open one with the code. */
  method ResolveLatest(records: seq<FaultRecord>, code: string, now: int) returns (r: seq<FaultRecord>)
    ensures r == ResolvedLatest(records, code, now)
  {
    var i := |records| - 1;
    assert records[..i + 1] == records;
    while i >= 0
      invariant -1 <= i < |records|
      invariant LastOpen(records[..i + 1], code) == LastOpen(records, code)
    {
      assert records[..i + 1][..i] == records[..i];
      if records[i].faultCode == code && !records[i].resolved {
        return records[i := Resolve(records[i], now)];
      }
      i := i - 1;
    }
    return records;
  }

  /** The per-unit loop of recordHealthSnapshot. */
  method RecordUnits(t: Tracking, units: seq<UnitReading>, interval: int, now: int) returns (r: Tracking)
    ensures r == RecordFrom(t, units, interval, now)
  {
    r := t;
    var i := 0;
    while i < |units|
      invariant 0 <= i <= |units|
      invariant RecordFrom(r, units[i..], interval, now) == RecordFrom(t, units, interval, now)
    {
      assert units[i..][1..] == units[i + 1..];
      r := RecordUnit(r, units[i], interval, now);
      i := i + 1;
    }
  }

  /** remove_if over one unit's records. */
  method KeepRecent(s: seq<HealthRecord>, cutoff: int) returns (r: seq<HealthRecord>)
    ensures r == Recent(s, cutoff)
  {
    r := [];
    var i := 0;
    while i < |s|
      invariant 0 <= i <= |s|
      invariant r == Recent(s[..i], cutoff)
    {
      assert s[..i + 1][..i] == s[..i];
      if s[i].timestamp >= cutoff {
        r := r + [s[i]];
      }
      i := i + 1;
    }
    assert s[..i] == s;
  }

  /** The pruning loop over the listed units. */
  method PruneEach(keys: seq<string>, health: map<string, seq<HealthRecord>>, cutoff: int) returns (r: map<string, seq<HealthRecord>>)
    requires forall k :: k in keys ==> k in health
    ensures forall k :: k in keys ==> k in r
    ensures forall k :: k in r ==> k in health && r[k] == Recent(health[k], cutoff)
  {
    r := map[];
    var i := 0;
    while i < |keys|
      invariant 0 <= i <= |keys|
      invariant forall j :: 0 <= j < i ==> keys[j] in r
      invariant forall k :: k in r ==> k in health && r[k] == Recent(health[k], cutoff)
    {
      var kept := KeepRecent(health[keys[i]], cutoff);
      r := r[keys[i] := kept];
      i := i + 1;
    }
  }

  method PruneHistories(health: map<string, seq<HealthRecord>>, cutoff: int) returns (r: map<string, seq<HealthRecord>>)
    ensures r == Pruned(health, cutoff)
  {
    var keys := SortedKeys(health.Keys);
    r := PruneEach(keys, health, cutoff);
    assert forall k :: k in health ==> k in keys;
  }

  class HealthAnalytics {
    var healthHistory: map<string, seq<HealthRecord>>
    var faultHistory: FaultLedger
    var uptimeMs: map<string, int>
    var downtimeMs: map<string, int>
    var systemAvailability: real
    var averageHealthScore: real
    var totalFaults: int
    var historyRetentionHours: int
    var snapshotIntervalMs: int
    var events: seq<AnalyticsSignal>

    /** The snapshot timer is created but never started. */
    constructor ()
      ensures healthHistory == map[] && faultHistory == map[] && uptimeMs == map[] && downtimeMs == map[]
      ensures systemAvailability == 100.0 && averageHealthScore == 100.0 && totalFaults == 0
      ensures historyRetentionHours == DEFAULT_RETENTION_HOURS && snapshotIntervalMs == DEFAULT_SNAPSHOT_INTERVAL_MS
      ensures events == []
    {
      healthHistory, faultHistory, uptimeMs, downtimeMs := map[], map[], map[], map[];
      systemAvailability, averageHealthScore, totalFaults := 100.0, 100.0, 0;
      historyRetentionHours, snapshotIntervalMs := DEFAULT_RETENTION_HOURS, DEFAULT_SNAPSHOT_INTERVAL_MS;
      events := [];
    }

    /** getSubsystemFaultCount. */
    function FaultCount(id: string): nat
      reads this`faultHistory
    {
      |RecordsOf(faultHistory, id)|
    }

    /** getSubsystemAnalytics: uptime, MTBF, MTTR, fault count and availability (100 with no time recorded). */
    function AnalyticsOf(id: string): (a: SubsystemAnalytics)
      reads this`faultHistory, this`uptimeMs, this`downtimeMs
      ensures ValueOr(uptimeMs, id) + ValueOr(downtimeMs, id) <= 0 ==> a.availability == 100.0
      ensures ValueOr(uptimeMs, id) >= 0 && ValueOr(downtimeMs, id) >= 0 ==> 0.0 <= a.availability <= 100.0
      ensures a.faultCount < 2 ==> a.mtbf == -1.0
      ensures a.faultCount == 0 ==> a.mttr == 0.0
      ensures a.faultCount == |RecordsOf(faultHistory, id)|
    {
      SubsystemAnalytics(UptimeHoursOf(uptimeMs, id), Mtbf(faultHistory, uptimeMs, id), Mttr(faultHistory, downtimeMs, id),
                         FaultCount(id), Uptime.Percent(ValueOr(uptimeMs, id), ValueOr(downtimeMs, id)))
    }

    /** getFaultHistory. */
    method GetFaultHistory(id: string, maxCount: int) returns (r: seq<FaultRecord>)
      ensures r == NewestFirst(RecordsOf(faultHistory, id), maxCount)
    {
      r := NewestRecords(RecordsOf(faultHistory, id), maxCount);
    }

    method GetFaultStatistics() returns (st: FaultStatistics)
      ensures st == StatisticsOf(faultHistory)
    {
      st := ComputeStatistics(faultHistory);
    }

    method GetTopFaults(count: int) returns (top: seq<FaultTally>)
      ensures top == TopFaultsOf(faultHistory, count)
    {
      top := ComputeTopFaults(faultHistory, count);
    }

    /** computeMetrics: both figures are pinned to 100. */
    method ComputeMetrics()
      modifies this`systemAvailability, this`averageHealthScore
      ensures systemAvailability == 100.0 && averageHealthScore == 100.0
    {
      systemAvailability := 100.0;
      averageHealthScore := 100.0;
    }

    method UpdateAnalytics()
      modifies this`systemAvailability, this`averageHealthScore, this`events
      ensures systemAvailability == 100.0 && averageHealthScore == 100.0
      ensures events == old(events) + [AnalyticsUpdated]
    {
      ComputeMetrics();
      events := events + [AnalyticsUpdated];
    }

    method OnSubsystemHealthChanged(id: string)
      modifies this`systemAvailability, this`averageHealthScore
      ensures systemAvailability == 100.0 && averageHealthScore == 100.0
    {
      ComputeMetrics();
    }

    /** recordHealthSnapshot over the manager's units, then pruning beyond the retention period. */
    method RecordHealthSnapshot(units: seq<UnitReading>, now: int)
      modifies this`healthHistory, this`uptimeMs, this`downtimeMs, this`systemAvailability, this`averageHealthScore, this`events
      ensures var t := RecordFrom(Tracking(old(healthHistory), old(uptimeMs), old(downtimeMs)), units, snapshotIntervalMs, now);
        && healthHistory == Pruned(t.health, now - historyRetentionHours * MS_PER_HOUR)
        && uptimeMs == t.uptimeMs && downtimeMs == t.downtimeMs
      ensures systemAvailability == 100.0 && averageHealthScore == 100.0
      ensures events == old(events) + [AnalyticsUpdated]
    {
      var t := RecordUnits(Tracking(healthHistory, uptimeMs, downtimeMs), units, snapshotIntervalMs, now);
      var pruned := PruneHistories(t.health, now - historyRetentionHours * MS_PER_HOUR);
      healthHistory, uptimeMs, downtimeMs := pruned, t.uptimeMs, t.downtimeMs;
      ComputeMetrics();
      events := events + [AnalyticsUpdated];
    }

    /** onFaultOccurred: one more open record and one more fault in total. */
    method OnFaultOccurred(id: string, code: string, now: int)
      modifies this`faultHistory, this`totalFaults, this`events
      ensures faultHistory == Opened(old(faultHistory), id, code, now)
      ensures totalFaults == old(totalFaults) + 1
      ensures events == old(events) + [AnalyticsUpdated]
    {
      faultHistory := faultHistory[id := RecordsOf(faultHistory, id) + [OpenRecord(code, now)]];
      totalFaults := totalFaults + 1;
      events := events + [AnalyticsUpdated];
    }

    /** onFaultCleared. */
    method OnFaultCleared(id: string, code: string, now: int)
      modifies this`faultHistory, this`events
      ensures faultHistory == ClearedIn(old(faultHistory), id, code, now)
      ensures events == old(events) + [AnalyticsUpdated]
    {
      var records := ResolveLatest(RecordsOf(faultHistory, id), code, now);
      faultHistory := faultHistory[id := records];
      events := events + [AnalyticsUpdated];
    }
  }
}
