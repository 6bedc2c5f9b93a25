/**
 * The ingestion pipeline: a FIFO queue of (unit, payload) items, drained a
 * bounded number of valid items per tick.  Each item is validated (schema
 * required fields, rejected IEEE spellings), sanitized (numeric strings
 * become numbers) and then classified against a per-unit threshold table,
 * giving a state, a score and a list of CRITICAL faults.
 *
 * Payloads are visited in ascending key order, as a QVariantMap is
 * (KeyOrder.Ordered).
 */
module Pipeline {
  import opened Wrappers
  import opened Values
  import opened HealthStatus
  import opened KeyOrder
  import Bounded

  /** One parameter's entry in a threshold table; each bound present or not, already converted with toDouble. */
  datatype Limits = Limits(warningHigh: Option<real>, criticalHigh: Option<real>,
                           warningLow: Option<real>, criticalLow: Option<real>)

  /** A threshold table: parameter name to its bounds. */
  type Thresholds = map<string, Limits>

  /** The default table: temperature warns above 60 and is critical above 80. */
  const DEFAULT_THRESHOLDS: Thresholds := map["temperature" := Limits(Some(60.0), Some(80.0), None, None)]

  /** processQueue handles at most this many valid items per tick. */
  const MAX_ITEMS_PER_TICK: nat := 10

  /** A validation schema: the field names listed under "required", when that entry exists. */
  datatype Schema = Schema(required: Option<seq<string>>)

  datatype QueueItem = QueueItem(subsystemId: string, data: ValueMap, timestamp: int)

  datatype ValidationResult = ValidationResult(
    valid: bool, errorMessage: string, warnings: seq<string>, sanitizedData: ValueMap)

  datatype ProcessingResult = ProcessingResult(
    computedState: HealthState, healthScore: real, processedTelemetry: ValueMap,
    detectedFaults: seq<FaultCode>, statusMessage: string)

  datatype PipelineSignal =
    | RunningChanged
    | QueueChanged
    | StatsChanged
    | ValidationError(subsystemId: string, message: string)
    | DataProcessed(subsystemId: string, state: HealthState, healthScore: real, telemetry: ValueMap, statusMessage: string)
    | HealthStateComputed(subsystemId: string, state: HealthState, healthScore: real)
    | FaultDetected(subsystemId: string, code: string)

  // ---------------------------------------------------------------- validation

  /** validateRequired: every listed field is present; a schema without "required" passes. */
  ghost predicate RequiredPresent(data: ValueMap, schema: Schema) {
    schema.required.None? || forall f :: f in schema.required.value ==> f in data
  }

  /** The spellings validateDataTypes rejects. */
  predicate Rejected(v: Value) {
    v.Text? && (v.s == "NaN" || v.s == "Infinity" || v.s == "-Infinity")
  }

  /** validateDataTypes: no string value is one of the rejected spellings. */
  ghost predicate TypesOk(data: ValueMap) {
    forall k :: k in data ==> !Rejected(data[k])
  }

  /** A string that parses as a number becomes that number; anything else is kept. */
  function SanitizeValue(v: Value): Value {
    if v.Text? && ParseNumber(v.s).Some? then Num(ParseNumber(v.s).value) else v
  }

  /** sanitizeData. */
  function Sanitized(data: ValueMap): ValueMap {
    map k | k in data :: SanitizeValue(data[k])
  }

  /** validateData as a value: the first failing check names the error; a valid payload comes back sanitized. */
  ghost function Validated(data: ValueMap, schema: Schema): ValidationResult {
    if !RequiredPresent(data, schema) then ValidationResult(false, "Missing required fields", [], data)
    else if !TypesOk(data) then ValidationResult(false, "Invalid data types", [], data)
    else ValidationResult(true, "", [], Sanitized(data))
  }

  /** Sanitizing keeps the keys, turns only numeric strings into numbers, and is idempotent. */
  lemma SanitizeSpec(data: ValueMap)
    ensures Sanitized(data).Keys == data.Keys
    ensures forall k :: k in data && !data[k].Text? ==> Sanitized(data)[k] == data[k]
    ensures forall k :: k in data && data[k].Text? ==>
      Sanitized(data)[k] == (if ParseNumber(data[k].s).Some? then Num(ParseNumber(data[k].s).value) else data[k])
    ensures Sanitized(Sanitized(data)) == Sanitized(data)
    ensures TypesOk(data) ==> TypesOk(Sanitized(data))
  {
    var s := Sanitized(data);
    assert forall k :: k in s ==> SanitizeValue(s[k]) == s[k];
  }

  /** Only the required fields and the rejected spellings decide validity; a valid payload comes back sanitized. */
  lemma ValidatedSpec(data: ValueMap, schema: Schema)
    ensures Validated(data, schema).valid <==> RequiredPresent(data, schema) && TypesOk(data)
    ensures Validated(data, schema).valid ==> Validated(data, schema).sanitizedData == Sanitized(data)
    ensures !Validated(data, schema).valid ==> Validated(data, schema).sanitizedData == data
    ensures Validated(data, schema).warnings == []
    ensures schema.required.None? && data == map[] ==> Validated(data, schema).valid
  {
  }

  // ---------------------------------------------------------------- classification

  predicate Above(v: real, bound: Option<real>) { bound.Some? && v > bound.value }
  predicate Below(v: real, bound: Option<real>) { bound.Some? && v < bound.value }

  datatype Level = Normal | Warning | Critical

  /** The else-if chain of computeHealthState for one parameter. */
  function LevelOf(v: real, l: Limits): Level {
    if Above(v, l.criticalHigh) then Critical
    else if Below(v, l.criticalLow) then Critical
    else if Above(v, l.warningHigh) then Warning
    else if Below(v, l.warningLow) then Warning
    else Normal
  }

  /** A parameter counts when its value converts to double and the table has an entry for it. */
  predicate Classified(data: ValueMap, th: Thresholds, k: string) {
    k in data && CanConvertToDouble(data[k]) && k in th
  }

  function ParamLevel(data: ValueMap, th: Thresholds, k: string): Level {
    if Classified(data, th, k) then LevelOf(ToDouble(data[k]), th[k]) else Normal
  }

  ghost predicate SomeAtLevel(data: ValueMap, th: Thresholds, lvl: Level) {
    exists k :: k in data && ParamLevel(data, th, k) == lvl
  }

  /** Whether some parameter along keys is at the level, as the loop's flags track it. */
  function AnyAlong(keys: seq<string>, data: ValueMap, th: Thresholds, lvl: Level): bool
    decreases |keys|
  {
    |keys| > 0 && (AnyAlong(keys[..|keys| - 1], data, th, lvl) || ParamLevel(data, th, keys[|keys| - 1]) == lvl)
  }

  lemma {:induction false} AnyAlongIff(keys: seq<string>, data: ValueMap, th: Thresholds, lvl: Level)
    ensures AnyAlong(keys, data, th, lvl) <==> exists k :: k in keys && ParamLevel(data, th, k) == lvl
    decreases |keys|
  {
    if |keys| > 0 {
      var front := keys[..|keys| - 1];
      AnyAlongIff(front, data, th, lvl);
      assert keys == front + [keys[|keys| - 1]];
    }
  }

  /** computeHealthState: FAIL on any critical breach, else DEGRADED on any warning breach, else OK. */
  ghost function HealthStateOf(data: ValueMap, th: Thresholds): HealthState {
    if SomeAtLevel(data, th, Critical) then FAIL
    else if SomeAtLevel(data, th, Warning) then DEGRADED
    else OK
  }

  /** The high side's deduction: only with both high thresholds; 30 beyond critical, 10 + 20 * ratio in the band. */
  function HighSide(v: real, l: Limits): real {
    if l.criticalHigh.Some? && l.warningHigh.Some? then
      var critical, warning := l.criticalHigh.value, l.warningHigh.value;
      if v > critical then 30.0
      else if v > warning then 10.0 + 20.0 * ((v - warning) / (critical - warning))
      else 0.0
    else 0.0
  }

  /** The low side's deduction, mirrored. */
  function LowSide(v: real, l: Limits): real {
    if l.criticalLow.Some? && l.warningLow.Some? then
      var critical, warning := l.criticalLow.value, l.warningLow.value;
      if v < critical then 30.0
      else if v < warning then 10.0 + 20.0 * ((warning - v) / (warning - critical))
      else 0.0
    else 0.0
  }

  function ParamDeduction(data: ValueMap, th: Thresholds, k: string): real {
    if Classified(data, th, k) then HighSide(ToDouble(data[k]), th[k]) + LowSide(ToDouble(data[k]), th[k]) else 0.0
  }

  /** The deductions of the parameters, summed in visiting order. */
  function DeductionsAlong(keys: seq<string>, data: ValueMap, th: Thresholds): real
    decreases |keys|
  {
    if |keys| == 0 then 0.0
    else DeductionsAlong(keys[..|keys| - 1], data, th) + ParamDeduction(data, th, keys[|keys| - 1])
  }

  /** qMax(0.0, qMin(100.0, x)). */
  function Clamp(x: real): (r: real)
    ensures 0.0 <= r <= 100.0
    ensures 0.0 <= x <= 100.0 ==> r == x
  {
    if x > 100.0 then 100.0 else if x < 0.0 then 0.0 else x
  }

  /** computeHealthScore. */
  ghost function HealthScoreOf(data: ValueMap, th: Thresholds): real {
    Clamp(100.0 - DeductionsAlong(Ordered(data.Keys), data, th))
  }

  /** Each side takes nothing, or more than 10 and at most 30; a critical breach takes exactly 30. */
  lemma SideBounds(v: real, l: Limits)
    ensures 0.0 <= HighSide(v, l) <= 30.0 && (HighSide(v, l) > 0.0 ==> HighSide(v, l) > 10.0)
    ensures 0.0 <= LowSide(v, l) <= 30.0 && (LowSide(v, l) > 0.0 ==> LowSide(v, l) > 10.0)
    ensures l.criticalHigh.Some? && l.warningHigh.Some? && v > l.criticalHigh.value ==> HighSide(v, l) == 30.0
    ensures l.criticalLow.Some? && l.warningLow.Some? && v < l.criticalLow.value ==> LowSide(v, l) == 30.0
    ensures LevelOf(v, l) == Normal ==> HighSide(v, l) == 0.0 && LowSide(v, l) == 0.0
  {
    if l.criticalHigh.Some? && l.warningHigh.Some? {
      var c, w := l.criticalHigh.value, l.warningHigh.value;
      if w < v <= c {
        RatioBound(v - w, c - w);
      }
    }
    if l.criticalLow.Some? && l.warningLow.Some? {
      var c, w := l.criticalLow.value, l.warningLow.value;
      if c <= v < w {
        RatioBound(w - v, w - c);
      }
    }
  }

  lemma RatioBound(a: real, b: real)
    requires 0.0 < a <= b
    ensures 0.0 < a / b <= 1.0
  {
    assert a / b * b == a;
  }

  lemma {:induction false} DeductionsNonNegative(keys: seq<string>, data: ValueMap, th: Thresholds)
    ensures DeductionsAlong(keys, data, th) >= 0.0
    decreases |keys|
  {
    if |keys| > 0 {
      var k := keys[|keys| - 1];
      DeductionsNonNegative(keys[..|keys| - 1], data, th);
      if Classified(data, th, k) {
        SideBounds(ToDouble(data[k]), th[k]);
      }
    }
  }

  /** Every listed parameter's deduction is part of the total. */
  lemma {:induction false} DeductionsCover(keys: seq<string>, data: ValueMap, th: Thresholds, k: string)
    requires k in keys
    ensures DeductionsAlong(keys, data, th) >= ParamDeduction(data, th, k)
    decreases |keys|
  {
    var n := |keys| - 1;
    DeductionsNonNegative(keys[..n], data, th);
    if keys[n] != k {
      assert k in keys[..n];
      DeductionsCover(keys[..n], data, th, k);
      var last := keys[n];
      if Classified(data, th, last) {
        SideBounds(ToDouble(data[last]), th[last]);
      }
    }
  }

  /** With every parameter normal nothing is deducted. */
  lemma {:induction false} NormalDeductsNothing(keys: seq<string>, data: ValueMap, th: Thresholds)
    requires forall k :: k in keys ==> ParamLevel(data, th, k) == Normal
    ensures DeductionsAlong(keys, data, th) == 0.0
    decreases |keys|
  {
    if |keys| > 0 {
      var k := keys[|keys| - 1];
      assert k in keys;
      NormalDeductsNothing(keys[..|keys| - 1], data, th);
      if Classified(data, th, k) {
        SideBounds(ToDouble(data[k]), th[k]);
      }
    }
  }

  /** An OK payload scores 100, and a critical breach on a side with both thresholds costs at least 30. */
  lemma ScoreMeaning(data: ValueMap, th: Thresholds)
    ensures 0.0 <= HealthScoreOf(data, th) <= 100.0
    ensures HealthStateOf(data, th) == OK ==> HealthScoreOf(data, th) == 100.0
    ensures (exists k :: Classified(data, th, k) && th[k].warningHigh.Some? && Above(ToDouble(data[k]), th[k].criticalHigh))
      ==> HealthScoreOf(data, th) <= 70.0
  {
    var keys := Ordered(data.Keys);
    if HealthStateOf(data, th) == OK {
      NormalDeductsNothing(keys, data, th);
    }
    if exists k :: Classified(data, th, k) && th[k].warningHigh.Some? && Above(ToDouble(data[k]), th[k].criticalHigh) {
      var k :| Classified(data, th, k) && th[k].warningHigh.Some? && Above(ToDouble(data[k]), th[k].criticalHigh);
      SideBounds(ToDouble(data[k]), th[k]);
      DeductionsCover(keys, data, th, k);
    }
  }

  /** ASCII QString::toUpper. */
  function UpperChar(c: char): char {
    if 'a' <= c <= 'z' then (c as int - 32) as char else c
  }

  function Upper(s: string): (r: string)
    ensures |r| == |s|
  {
    seq(|s|, i requires 0 <= i < |s| => UpperChar(s[i]))
  }

  function HighFault(id: string, param: string, now: int): FaultCode {
    NewFaultCode(Upper(param) + "-HIGH", param + " exceeded critical threshold", CRITICAL, id, now)
  }

  function LowFault(id: string, param: string, now: int): FaultCode {
    NewFaultCode(Upper(param) + "-LOW", param + " below critical threshold", CRITICAL, id, now)
  }

  /** detectFaults for one parameter: a high fault, then a low fault, each on its own critical breach. */
  function ParamFaults(id: string, data: ValueMap, th: Thresholds, k: string, now: int): seq<FaultCode> {
    if Classified(data, th, k) then
      var v := ToDouble(data[k]);
      (if Above(v, th[k].criticalHigh) then [HighFault(id, k, now)] else [])
      + (if Below(v, th[k].criticalLow) then [LowFault(id, k, now)] else [])
    else []
  }

  function FaultsAlong(keys: seq<string>, id: string, data: ValueMap, th: Thresholds, now: int): seq<FaultCode>
    decreases |keys|
  {
    if |keys| == 0 then []
    else FaultsAlong(keys[..|keys| - 1], id, data, th, now) + ParamFaults(id, data, th, keys[|keys| - 1], now)
  }

  /** detectFaults: the parameters' faults in visiting order. */
  ghost function DetectedFaults(id: string, data: ValueMap, th: Thresholds, now: int): seq<FaultCode> {
    FaultsAlong(Ordered(data.Keys), id, data, th, now)
  }

  /** A fault is detected exactly for a critical breach of a listed parameter. */
  ghost predicate Breach(id: string, data: ValueMap, th: Thresholds, now: int, f: FaultCode, k: string) {
    && Classified(data, th, k)
    && ((Above(ToDouble(data[k]), th[k].criticalHigh) && f == HighFault(id, k, now))
        || (Below(ToDouble(data[k]), th[k].criticalLow) && f == LowFault(id, k, now)))
  }

  /** One parameter yields at most two faults, each for one of its own critical breaches. */
  lemma ParamFaultsSpec(id: string, data: ValueMap, th: Thresholds, k: string, now: int)
    ensures forall f :: f in ParamFaults(id, data, th, k, now) <==> Breach(id, data, th, now, f, k)
    ensures |ParamFaults(id, data, th, k, now)| <= 2
  {
  }

  ghost predicate Explained(keys: seq<string>, id: string, data: ValueMap, th: Thresholds, now: int, f: FaultCode) {
    exists k :: k in keys && Breach(id, data, th, now, f, k)
  }

  lemma {:induction false} FaultsAlongSpec(keys: seq<string>, id: string, data: ValueMap, th: Thresholds, now: int)
    ensures forall f :: f in FaultsAlong(keys, id, data, th, now) <==> Explained(keys, id, data, th, now, f)
    ensures |FaultsAlong(keys, id, data, th, now)| <= 2 * |keys|
    decreases |keys|
  {
    if |keys| > 0 {
      var n := |keys| - 1;
      var front, last := keys[..n], keys[n];
      FaultsAlongSpec(front, id, data, th, now);
      ParamFaultsSpec(id, data, th, last, now);
      var before, here := FaultsAlong(front, id, data, th, now), ParamFaults(id, data, th, last, now);
      assert FaultsAlong(keys, id, data, th, now) == before + here;
      forall f
        ensures f in before + here <==> Explained(keys, id, data, th, now, f)
      {
        if f in here {
          assert last in keys;
        } else if f in before {
          var k :| k in front && Breach(id, data, th, now, f, k);
          assert k in keys;
        } else if Explained(keys, id, data, th, now, f) {
          assert false;
        }
      }
    }
  }

  /** Every detected fault is an active CRITICAL fault of the unit, stamped now, for a critical breach. */
  lemma DetectedFaultsSpec(id: string, data: ValueMap, th: Thresholds, now: int)
    ensures forall f :: f in DetectedFaults(id, data, th, now) <==> exists k :: k in data && Breach(id, data, th, now, f, k)
    ensures forall f :: f in DetectedFaults(id, data, th, now) ==>
      f.severity == CRITICAL && f.active && f.subsystemId == id && f.timestamp == now
    ensures |DetectedFaults(id, data, th, now)| <= 2 * |data|
    ensures forall k :: k in data && ParamLevel(data, th, k) != Critical ==>
      forall f :: !Breach(id, data, th, now, f, k)
  {
    FaultsAlongSpec(Ordered(data.Keys), id, data, th, now);
  }

  /** processData's status message, a function of the state. */
  function StatusMessage(s: HealthState): string {
    match s
    case OK => "Operating normally"
    case DEGRADED => "Degraded performance"
    case FAIL => "System failure"
    case UNKNOWN => "Status unknown"
  }

  /** m_thresholds.value(subsystemId, m_defaultThresholds). */
  function TableFor(byUnit: map<string, Thresholds>, defaults: Thresholds, id: string): Thresholds {
    if id in byUnit then byUnit[id] else defaults
  }

  /** processData as a value. */
  ghost function Processed(id: string, data: ValueMap, th: Thresholds, now: int): ProcessingResult {
    var state := HealthStateOf(data, th);
    ProcessingResult(state, HealthScoreOf(data, th), data, DetectedFaults(id, data, th, now), StatusMessage(state))
  }

  /** The state never comes out UNKNOWN, and the status message names the state. */
  lemma ProcessedSpec(id: string, data: ValueMap, th: Thresholds, now: int)
    ensures Processed(id, data, th, now).computedState != UNKNOWN
    ensures 0.0 <= Processed(id, data, th, now).healthScore <= 100.0
    ensures Processed(id, data, th, now).processedTelemetry == data
    ensures Processed(id, data, th, now).computedState == FAIL <==> SomeAtLevel(data, th, Critical)
    ensures Processed(id, data, th, now).computedState == OK ==> Processed(id, data, th, now).healthScore == 100.0
  {
    ScoreMeaning(data, th);
  }

  /** What processQueue announces for one valid item. */
  function ItemSignals(id: string, r: ProcessingResult): seq<PipelineSignal> {
    [DataProcessed(id, r.computedState, r.healthScore, r.processedTelemetry, r.statusMessage),
     HealthStateComputed(id, r.computedState, r.healthScore)]
    + FaultSignals(id, r.detectedFaults)
  }

  function FaultSignals(id: string, faults: seq<FaultCode>): (r: seq<PipelineSignal>)
    ensures |r| == |faults|
    decreases |faults|
  {
    if |faults| == 0 then [] else FaultSignals(id, faults[..|faults| - 1]) + [FaultDetected(id, faults[|faults| - 1].code)]
  }

  /** What one dequeued item comes to: whether it was valid, and what was announced for it. */
  datatype Outcome = Outcome(valid: bool, signals: seq<PipelineSignal>)

  /** The schema of a unit; an unknown unit has none, so nothing is required. */
  function SchemaFor(schemas: map<string, Schema>, id: string): Schema {
    if id in schemas then schemas[id] else Schema(None)
  }

  ghost function OutcomeOf(item: QueueItem, schemas: map<string, Schema>,
                           byUnit: map<string, Thresholds>, defaults: Thresholds, now: int): Outcome {
    var v := Validated(item.data, SchemaFor(schemas, item.subsystemId));
    if !v.valid then Outcome(false, [ValidationError(item.subsystemId, v.errorMessage)])
    else Outcome(true, ItemSignals(item.subsystemId,
                   Processed(item.subsystemId, v.sanitizedData, TableFor(byUnit, defaults, item.subsystemId), now)))
  }

  datatype Drained = Drained(rest: seq<QueueItem>, valid: nat, invalid: nat, signals: seq<PipelineSignal>)

  /** processQueue over a queue: invalid items are counted and skipped without using the budget. */
  ghost function Drain(q: seq<QueueItem>, budget: nat, schemas: map<string, Schema>,
                       byUnit: map<string, Thresholds>, defaults: Thresholds, now: int): Drained
    decreases |q|
  {
    if budget == 0 || |q| == 0 then Drained(q, 0, 0, [])
    else
      var o := OutcomeOf(q[0], schemas, byUnit, defaults, now);
      var d := Drain(q[1..], if o.valid then budget - 1 else budget, schemas, byUnit, defaults, now);
      if o.valid then d.(valid := d.valid + 1, signals := o.signals + d.signals)
      else d.(invalid := d.invalid + 1, signals := o.signals + d.signals)
  }

  /** Draining resumes: what is left to drain, added to what the loop has done, is the whole tick. */
  ghost predicate Resumes(whole: Drained, left: Drained, processed: nat, errors: nat, emitted: seq<PipelineSignal>) {
    whole == Drained(left.rest, processed + left.valid, errors + left.invalid, emitted + left.signals)
  }

  /** One item of a nonempty queue with budget left, as the loop sees it. */
  lemma DrainStep(q: seq<QueueItem>, budget: nat, schemas: map<string, Schema>,
                  byUnit: map<string, Thresholds>, defaults: Thresholds, now: int, o: Outcome)
    requires budget > 0 && |q| > 0 && o == OutcomeOf(q[0], schemas, byUnit, defaults, now)
    ensures var d := Drain(q[1..], if o.valid then budget - 1 else budget, schemas, byUnit, defaults, now);
      Drain(q, budget, schemas, byUnit, defaults, now)
        == Drained(d.rest, d.valid + (if o.valid then 1 else 0), d.invalid + (if o.valid then 0 else 1), o.signals + d.signals)
  {
  }

  /** A tick handles at most its budget of valid items, stops early only on an empty queue, and counts each item it takes once. */
  lemma {:induction false} DrainSpec(q: seq<QueueItem>, budget: nat, schemas: map<string, Schema>,
                                     byUnit: map<string, Thresholds>, defaults: Thresholds, now: int)
    ensures var d := Drain(q, budget, schemas, byUnit, defaults, now);
      && d.valid <= budget
      && (|d.rest| > 0 ==> d.valid == budget)
      && d.valid + d.invalid + |d.rest| == |q|
    decreases |q|
  {
    if budget > 0 && |q| > 0 {
      var o := OutcomeOf(q[0], schemas, byUnit, defaults, now);
      var b := if o.valid then budget - 1 else budget;
      DrainStep(q, budget, schemas, byUnit, defaults, now, o);
      DrainSpec(q[1..], b, schemas, byUnit, defaults, now);
    }
  }

  /** A tick takes items from the front only: what is left is a suffix of the queue. */
  lemma {:induction false} DrainTakesFront(q: seq<QueueItem>, budget: nat, schemas: map<string, Schema>,
                                           byUnit: map<string, Thresholds>, defaults: Thresholds, now: int)
    ensures var d := Drain(q, budget, schemas, byUnit, defaults, now);
      && |d.rest| <= |q| && d.rest == q[|q| - |d.rest|..]
    decreases |q|
  {
    if budget > 0 && |q| > 0 {
      var o := OutcomeOf(q[0], schemas, byUnit, defaults, now);
      var b := if o.valid then budget - 1 else budget;
      DrainStep(q, budget, schemas, byUnit, defaults, now, o);
      DrainTakesFront(q[1..], b, schemas, byUnit, defaults, now);
      var d := Drain(q[1..], b, schemas, byUnit, defaults, now);
      var whole := Drain(q, budget, schemas, byUnit, defaults, now);
      assert whole.rest == d.rest;
      assert d.rest == q[1..][|q| - 1 - |d.rest|..];
      TailSuffix(q, |d.rest|);
    } else {
      assert q[0..] == q;
    }
  }

  lemma TailSuffix<T>(q: seq<T>, n: nat)
    requires 0 < |q| && n < |q|
    ensures q[1..][|q| - 1 - n..] == q[|q| - n..]
  {
  }

  // ---------------------------------------------------------------- the stages as loops

  /** validateRequired. */
  method ValidateRequired(data: ValueMap, schema: Schema) returns (ok: bool)
    ensures ok <==> RequiredPresent(data, schema)
  {
    if schema.required.None? {
      return true;
    }
    var required := schema.required.value;
    var i := 0;
    while i < |required|
      invariant 0 <= i <= |required|
      invariant forall j :: 0 <= j < i ==> required[j] in data
    {
      if required[i] !in data {
        return false;
      }
      i := i + 1;
    }
    return true;
  }

  /** validateDataTypes' loop: stops at the first rejected spelling. */
  method CheckTypes(keys: seq<string>, data: ValueMap) returns (ok: bool)
    requires forall k :: k in keys ==> k in data
    ensures ok <==> forall k :: k in keys ==> !Rejected(data[k])
  {
    var i := 0;
    while i < |keys|
      invariant 0 <= i <= |keys|
      invariant forall j :: 0 <= j < i ==> !Rejected(data[keys[j]])
    {
      var value := data[keys[i]];
      if !value.Null? && Rejected(value) {
        return false;
      }
      i := i + 1;
    }
    return true;
  }

  /** validateDataTypes. */
  method ValidateDataTypes(data: ValueMap) returns (ok: bool)
    ensures ok <==> TypesOk(data)
  {
    var keys := SortedKeys(data.Keys);
    ok := CheckTypes(keys, data);
  }

  /** sanitizeData's loop over the listed keys. */
  method SanitizeEach(keys: seq<string>, data: ValueMap) returns (sanitized: ValueMap)
    requires forall k :: k in keys ==> k in data
    ensures forall k :: k in keys ==> k in sanitized
    ensures forall k :: k in sanitized ==> k in data && sanitized[k] == SanitizeValue(data[k])
  {
    sanitized := map[];
    var i := 0;
    while i < |keys|
      invariant 0 <= i <= |keys|
      invariant forall j :: 0 <= j < i ==> keys[j] in sanitized
      invariant forall k :: k in sanitized ==> k in data && sanitized[k] == SanitizeValue(data[k])
    {
      sanitized := sanitized[keys[i] := SanitizeValue(data[keys[i]])];
      i := i + 1;
    }
  }

  /** sanitizeData. */
  method SanitizeData(data: ValueMap) returns (sanitized: ValueMap)
    ensures sanitized == Sanitized(data)
  {
    var keys := SortedKeys(data.Keys);
    sanitized := SanitizeEach(keys, data);
    assert forall k :: k in data ==> k in keys;
  }

  /** validateData: required fields, then the rejected spellings, then sanitizing. */
  method ValidateData(data: ValueMap, schema: Schema) returns (r: ValidationResult)
    ensures r == Validated(data, schema)
  {
    var required := ValidateRequired(data, schema);
    if !required {
      return ValidationResult(false, "Missing required fields", [], data);
    }
    var typesOk := ValidateDataTypes(data);
    if !typesOk {
      return ValidationResult(false, "Invalid data types", [], data);
    }
    var sanitized := SanitizeData(data);
    return ValidationResult(true, "", [], sanitized);
  }

  /** The else-if chain of computeHealthState for one parameter's value. */
  method Classify(v: real, limits: Limits) returns (level: Level)
    ensures level == LevelOf(v, limits)
  {
    if Above(v, limits.criticalHigh) {
      level := Critical;
    } else if Below(v, limits.criticalLow) {
      level := Critical;
    } else if Above(v, limits.warningHigh) {
      level := Warning;
    } else if Below(v, limits.warningLow) {
      level := Warning;
    } else {
      level := Normal;
    }
  }

  /** computeHealthState's loop: one pass setting the two flags. */
  method ScanLevels(keys: seq<string>, data: ValueMap, th: Thresholds) returns (hasCritical: bool, hasWarning: bool)
    requires forall k :: k in keys ==> k in data
    ensures hasCritical == AnyAlong(keys, data, th, Critical)
    ensures hasWarning == AnyAlong(keys, data, th, Warning)
  {
    hasCritical, hasWarning := false, false;
    var i := 0;
    while i < |keys|
      invariant 0 <= i <= |keys|
      invariant hasCritical == AnyAlong(keys[..i], data, th, Critical)
      invariant hasWarning == AnyAlong(keys[..i], data, th, Warning)
    {
      assert keys[..i + 1][..i] == keys[..i];
      var param := keys[i];
      var level := Normal;
      if CanConvertToDouble(data[param]) && param in th {
        level := Classify(ToDouble(data[param]), th[param]);
      }
      hasCritical := hasCritical || level == Critical;
      hasWarning := hasWarning || level == Warning;
      i := i + 1;
    }
    assert keys[..i] == keys;
  }

  /** computeHealthState. */
  method ComputeHealthState(data: ValueMap, th: Thresholds) returns (state: HealthState)
    ensures state == HealthStateOf(data, th)
  {
    var keys := SortedKeys(data.Keys);
    var hasCritical, hasWarning := ScanLevels(keys, data, th);
    AnyAlongIff(keys, data, th, Critical);
    AnyAlongIff(keys, data, th, Warning);
    if hasCritical {
      return FAIL;
    } else if hasWarning {
      return DEGRADED;
    }
    return OK;
  }

  /** The two deductions computeHealthScore takes for one parameter's value. */
  method Deduct(v: real, limits: Limits) returns (deduction: real)
    ensures deduction == HighSide(v, limits) + LowSide(v, limits)
  {
    deduction := 0.0;
    if limits.criticalHigh.Some? && limits.warningHigh.Some? {
      var critical, warning := limits.criticalHigh.value, limits.warningHigh.value;
      if v > critical {
        deduction := deduction + 30.0;
      } else if v > warning {
        var ratio := (v - warning) / (critical - warning);
        deduction := deduction + (10.0 + 20.0 * ratio);
      }
    }
    if limits.criticalLow.Some? && limits.warningLow.Some? {
      var critical, warning := limits.criticalLow.value, limits.warningLow.value;
      if v < critical {
        deduction := deduction + 30.0;
      } else if v < warning {
        var ratio := (warning - v) / (warning - critical);
        deduction := deduction + (10.0 + 20.0 * ratio);
      }
    }
  }

  /** computeHealthScore's loop: 100 less every listed parameter's deductions. */
  method DeductAll(keys: seq<string>, data: ValueMap, th: Thresholds) returns (score: real)
    requires forall k :: k in keys ==> k in data
    ensures score == 100.0 - DeductionsAlong(keys, data, th)
  {
    score := 100.0;
    var i := 0;
    while i < |keys|
      invariant 0 <= i <= |keys|
      invariant score == 100.0 - DeductionsAlong(keys[..i], data, th)
    {
      assert keys[..i + 1][..i] == keys[..i];
      var param := keys[i];
      if CanConvertToDouble(data[param]) && param in th {
        var deduction := Deduct(ToDouble(data[param]), th[param]);
        score := score - deduction;
      }
      i := i + 1;
    }
    assert keys[..i] == keys;
  }

  /** computeHealthScore. */
  method ComputeHealthScore(data: ValueMap, th: Thresholds) returns (score: real)
    ensures score == HealthScoreOf(data, th)
  {
    var keys := SortedKeys(data.Keys);
    score := DeductAll(keys, data, th);
    score := Clamp(score);
  }

  /** detectFaults for one parameter's value. */
  method FaultsFor(id: string, param: string, v: real, limits: Limits, now: int) returns (faults: seq<FaultCode>)
    ensures faults == (if Above(v, limits.criticalHigh) then [HighFault(id, param, now)] else [])
                      + (if Below(v, limits.criticalLow) then [LowFault(id, param, now)] else [])
  {
    faults := [];
    if Above(v, limits.criticalHigh) {
      faults := faults + [HighFault(id, param, now)];
    }
    if Below(v, limits.criticalLow) {
      faults := faults + [LowFault(id, param, now)];
    }
  }

  /** detectFaults' loop over the listed keys. */
  method FaultsOfAll(keys: seq<string>, id: string, data: ValueMap, th: Thresholds, now: int) returns (faults: seq<FaultCode>)
    requires forall k :: k in keys ==> k in data
    ensures faults == FaultsAlong(keys, id, data, th, now)
  {
    faults := [];
    var i := 0;
    while i < |keys|
      invariant 0 <= i <= |keys|
      invariant faults == FaultsAlong(keys[..i], id, data, th, now)
    {
      assert keys[..i + 1][..i] == keys[..i];
      var param := keys[i];
      if CanConvertToDouble(data[param]) && param in th {
        var here := FaultsFor(id, param, ToDouble(data[param]), th[param], now);
        faults := faults + here;
      }
      i := i + 1;
    }
    assert keys[..i] == keys;
  }

  /** detectFaults. */
  method DetectFaults(id: string, data: ValueMap, th: Thresholds, now: int) returns (faults: seq<FaultCode>)
    ensures faults == DetectedFaults(id, data, th, now)
  {
    var keys := SortedKeys(data.Keys);
    faults := FaultsOfAll(keys, id, data, th, now);
  }

  /** processData: state, score, faults and status message under the given table. */
  method ProcessData(id: string, data: ValueMap, th: Thresholds, now: int) returns (r: ProcessingResult)
    ensures r == Processed(id, data, th, now)
  {
    var state := ComputeHealthState(data, th);
    var score := ComputeHealthScore(data, th);
    var faults := DetectFaults(id, data, th, now);
    r := ProcessingResult(state, score, data, faults, StatusMessage(state));
  }

  /** One iteration of processQueue's loop: validate, then process a valid item. */
  method HandleItem(item: QueueItem, schemas: map<string, Schema>,
                    byUnit: map<string, Thresholds>, defaults: Thresholds, now: int) returns (o: Outcome)
    ensures o == OutcomeOf(item, schemas, byUnit, defaults, now)
  {
    var validation := ValidateData(item.data, SchemaFor(schemas, item.subsystemId));
    if !validation.valid {
      return Outcome(false, [ValidationError(item.subsystemId, validation.errorMessage)]);
    }
    var result := ProcessData(item.subsystemId, validation.sanitizedData,
                              TableFor(byUnit, defaults, item.subsystemId), now);
    return Outcome(true, ItemSignals(item.subsystemId, result));
  }

  /** The items submitBatchData appends: one per unit of the batch, in key order. */
  ghost function BatchItems(batch: map<string, ValueMap>, now: int): seq<QueueItem> {
    var ids := Ordered(batch.Keys);
    seq(|ids|, i requires 0 <= i < |ids| => QueueItem(ids[i], batch[ids[i]], now))
  }

  /** A batch adds one item per unit, each stamped now with that unit's payload, in strictly ascending unit order. */
  lemma BatchItemsSpec(batch: map<string, ValueMap>, now: int)
    ensures |BatchItems(batch, now)| == |batch|
    ensures forall id :: id in batch <==> exists i :: 0 <= i < |batch| && BatchItems(batch, now)[i].subsystemId == id
    ensures forall i :: 0 <= i < |batch| ==>
      var item := BatchItems(batch, now)[i];
      item.subsystemId in batch && item.data == batch[item.subsystemId] && item.timestamp == now
    ensures forall i, j :: 0 <= i < j < |batch| ==>
      Less(BatchItems(batch, now)[i].subsystemId, BatchItems(batch, now)[j].subsystemId)
  {
    var ids := Ordered(batch.Keys);
    OrderedSpec(batch.Keys);
    forall id | id in batch
      ensures exists i :: 0 <= i < |batch| && BatchItems(batch, now)[i].subsystemId == id
    {
      var i :| 0 <= i < |ids| && ids[i] == id;
      assert BatchItems(batch, now)[i].subsystemId == id;
    }
  }

  /** submitBatchData's loop: one item per listed unit. */
  method ItemsFor(keys: seq<string>, batch: map<string, ValueMap>, now: int) returns (items: seq<QueueItem>)
    requires forall k :: k in keys ==> k in batch
    ensures |items| == |keys|
    ensures forall j :: 0 <= j < |keys| ==> items[j] == QueueItem(keys[j], batch[keys[j]], now)
  {
    items := [];
    var i := 0;
    while i < |keys|
      invariant 0 <= i <= |keys| && |items| == i
      invariant forall j :: 0 <= j < i ==> items[j] == QueueItem(keys[j], batch[keys[j]], now)
    {
      items := items + [QueueItem(keys[i], batch[keys[i]], now)];
      i := i + 1;
    }
  }

  /** The items of a batch in key order. */
  method BatchOf(batch: map<string, ValueMap>, now: int) returns (items: seq<QueueItem>)
    ensures items == BatchItems(batch, now)
  {
    var keys := SortedKeys(batch.Keys);
    items := ItemsFor(keys, batch, now);
  }

  /** One iteration of processQueue's loop, keeping the loop's account of the whole tick. */
  method DrainOne(q: seq<QueueItem>, processed: nat, errors: nat, emitted: seq<PipelineSignal>,
                  schemas: map<string, Schema>, byUnit: map<string, Thresholds>, defaults: Thresholds, now: int,
                  ghost whole: Drained)
    returns (q': seq<QueueItem>, processed': nat, errors': nat, emitted': seq<PipelineSignal>)
    requires |q| > 0 && processed < MAX_ITEMS_PER_TICK
    requires Resumes(whole, Drain(q, MAX_ITEMS_PER_TICK - processed, schemas, byUnit, defaults, now), processed, errors, emitted)
    ensures q' == q[1..] && processed' <= MAX_ITEMS_PER_TICK
    ensures Resumes(whole, Drain(q', MAX_ITEMS_PER_TICK - processed', schemas, byUnit, defaults, now), processed', errors', emitted')
  {
    var o := HandleItem(q[0], schemas, byUnit, defaults, now);
    ghost var budget := MAX_ITEMS_PER_TICK - processed;
    DrainStep(q, budget, schemas, byUnit, defaults, now, o);
    ghost var next := Drain(q[1..], if o.valid then budget - 1 else budget, schemas, byUnit, defaults, now);
    Bounded.Regrouped(emitted, o.signals, next.signals);
    q', emitted' := q[1..], emitted + o.signals;
    if o.valid {
      processed', errors' := processed + 1, errors;
    } else {
      processed', errors' := processed, errors + 1;
    }
    assert Drain(q', MAX_ITEMS_PER_TICK - processed', schemas, byUnit, defaults, now) == next;
    assert whole == Drained(next.rest, processed' + next.valid, errors' + next.invalid, emitted' + next.signals);
  }

  /** processQueue's loop over a copy of the queue. */
  method DrainQueue(queue: seq<QueueItem>, schemas: map<string, Schema>,
                    byUnit: map<string, Thresholds>, defaults: Thresholds, now: int) returns (d: Drained)
    ensures d == Drain(queue, MAX_ITEMS_PER_TICK, schemas, byUnit, defaults, now)
  {
    var q, emitted := queue, [];
    var processed: nat, errors: nat := 0, 0;
    ghost var whole := Drain(q, MAX_ITEMS_PER_TICK, schemas, byUnit, defaults, now);
    assert emitted + whole.signals == whole.signals;
    while processed < MAX_ITEMS_PER_TICK && |q| > 0
      invariant processed <= MAX_ITEMS_PER_TICK
      invariant Resumes(whole, Drain(q, MAX_ITEMS_PER_TICK - processed, schemas, byUnit, defaults, now), processed, errors, emitted)
      decreases |q|
    {
      q, processed, errors, emitted := DrainOne(q, processed, errors, emitted, schemas, byUnit, defaults, now, whole);
    }
    assert Drain(q, MAX_ITEMS_PER_TICK - processed, schemas, byUnit, defaults, now) == Drained(q, 0, 0, []);
    assert emitted + [] == emitted;
    d := Drained(q, processed, errors, emitted);
  }

  class HealthDataPipeline {
    var running: bool
    var queue: seq<QueueItem>
    var processedCount: nat
    var errorCount: nat
    var schemas: map<string, Schema>
    var thresholds: map<string, Thresholds>
    var defaultThresholds: Thresholds
    var events: seq<PipelineSignal>

    constructor ()
      ensures !running && queue == [] && processedCount == 0 && errorCount == 0
      ensures schemas == map[] && thresholds == map[] && defaultThresholds == DEFAULT_THRESHOLDS
      ensures events == []
    {
      running := false;
      queue := [];
      processedCount := 0;
      errorCount := 0;
      schemas := map[];
      thresholds := map[];
      defaultThresholds := DEFAULT_THRESHOLDS;
      events := [];
    }

    /** start: only a stopped pipeline starts, and says so. */
    method Start()
      modifies this`running, this`events
      ensures running
      ensures events == old(events) + if old(running) then [] else [RunningChanged]
    {
      if running {
        return;
      }
      running := true;
      events := events + [RunningChanged];
    }

    /** stop: only a running pipeline stops, and says so. */
    method Stop()
      modifies this`running, this`events
      ensures !running
      ensures events == old(events) + if old(running) then [RunningChanged] else []
    {
      if !running {
        return;
      }
      running := false;
      events := events + [RunningChanged];
    }

    /** submitData: one item at the tail, stamped now. */
    method SubmitData(subsystemId: string, data: ValueMap, now: int)
      modifies this`queue, this`events
      ensures queue == old(queue) + [QueueItem(subsystemId, data, now)]
      ensures events == old(events) + [QueueChanged]
    {
      queue := queue + [QueueItem(subsystemId, data, now)];
      events := events + [QueueChanged];
    }

    /** submitBatchData: one item per unit of the batch, in key order, then one queueChanged. */
    method SubmitBatchData(batch: map<string, ValueMap>, now: int)
      modifies this`queue, this`events
      ensures queue == old(queue) + BatchItems(batch, now)
      ensures events == old(events) + [QueueChanged]
    {
      var items := BatchOf(batch, now);
      queue := queue + items;
      events := events + [QueueChanged];
    }

    /** processQueue: drains up to MAX_ITEMS_PER_TICK valid items from the front. */
    method ProcessQueue(now: int)
      modifies this`queue, this`processedCount, this`errorCount, this`events
      ensures var d := Drain(old(queue), MAX_ITEMS_PER_TICK, schemas, thresholds, defaultThresholds, now);
        && queue == d.rest
        && processedCount == old(processedCount) + d.valid
        && errorCount == old(errorCount) + d.invalid
        && events == old(events) + d.signals + (if d.valid > 0 then [StatsChanged, QueueChanged] else [])
    {
      var d := DrainQueue(queue, schemas, thresholds, defaultThresholds, now);
      queue := d.rest;
      processedCount := processedCount + d.valid;
      errorCount := errorCount + d.invalid;
      events := events + d.signals;
      if d.valid > 0 {
        events := events + [StatsChanged, QueueChanged];
      }
    }
  }
}
