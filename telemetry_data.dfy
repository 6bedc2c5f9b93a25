/**
 * The per-unit telemetry registry: named parameters with optional
 * physical limits and optional warning and critical thresholds.
 */
module TelemetryData {
  import opened Wrappers
  import opened Values

  /** One registered parameter.  An absent limit or threshold is an invalid QVariant. */
  datatype Parameter = Parameter(
    name: string,
    displayName: string,
    unit: string,
    value: Value,
    nominal: Option<real>,
    minValue: Option<real>,
    maxValue: Option<real>,
    warningLow: Option<real>,
    warningHigh: Option<real>,
    criticalLow: Option<real>,
    criticalHigh: Option<real>,
    timestamp: int,
    isValid: bool)

  /** The default constructor: not valid. */
  function DefaultParameter(): (p: Parameter)
    ensures !p.isValid && p.value == Null
  {
    Parameter("", "", "", Null, None, None, None, None, None, None, None, 0, false)
  }

  /** The (name, displayName, unit) constructor: valid, stamped now, no value and no thresholds. */
  function NewParameter(name: string, displayName: string, unit: string, now: int): (p: Parameter)
    ensures p.isValid && p.name == name && p.timestamp == now
    ensures p.value == Null && p.criticalLow == None && p.criticalHigh == None
    ensures p.warningLow == None && p.warningHigh == None
  {
    Parameter(name, displayName, unit, Null, None, None, None, None, None, None, None, now, true)
  }

  predicate Below(x: real, t: Option<real>) { t.Some? && x < t.value }
  predicate Above(x: real, t: Option<real>) { t.Some? && x > t.value }

  datatype ThresholdKind = CriticalLow | CriticalHigh | WarningLow | WarningHigh

  /**
   * The one threshold report that setValue emits for a new value: critical
   * low, then critical high, then warning low, then warning high.
   */
  function ThresholdReport(p: Parameter, v: Value): (r: Option<ThresholdKind>)
    ensures !CanConvertToDouble(v) ==> r == None
    ensures r == Some(CriticalLow) <==> CanConvertToDouble(v) && Below(ToDouble(v), p.criticalLow)
    ensures r == Some(CriticalHigh) <==>
      CanConvertToDouble(v) && !Below(ToDouble(v), p.criticalLow) && Above(ToDouble(v), p.criticalHigh)
    ensures r == Some(WarningLow) <==>
      CanConvertToDouble(v) && !Below(ToDouble(v), p.criticalLow) && !Above(ToDouble(v), p.criticalHigh)
      && Below(ToDouble(v), p.warningLow)
    ensures r == Some(WarningHigh) <==>
      CanConvertToDouble(v) && !Below(ToDouble(v), p.criticalLow) && !Above(ToDouble(v), p.criticalHigh)
      && !Below(ToDouble(v), p.warningLow) && Above(ToDouble(v), p.warningHigh)
  {
    if !CanConvertToDouble(v) then None
    else
      var x := ToDouble(v);
      if Below(x, p.criticalLow) then Some(CriticalLow)
      else if Above(x, p.criticalHigh) then Some(CriticalHigh)
      else if Below(x, p.warningLow) then Some(WarningLow)
      else if Above(x, p.warningHigh) then Some(WarningHigh)
      else None
  }

  /** A report is only ever made for a value beyond the threshold it names. */
  lemma ReportedThresholdIsBreached(p: Parameter, v: Value)
    requires ThresholdReport(p, v).Some?
    ensures CanConvertToDouble(v)
    ensures var x := ToDouble(v);
      match ThresholdReport(p, v).value
      case CriticalLow => Below(x, p.criticalLow)
      case CriticalHigh => Above(x, p.criticalHigh)
      case WarningLow => Below(x, p.warningLow)
      case WarningHigh => Above(x, p.warningHigh)
  {
  }

  predicate ParamWithinLimits(p: Parameter) {
    !CanConvertToDouble(p.value)
    || (!Below(ToDouble(p.value), p.minValue) && !Above(ToDouble(p.value), p.maxValue))
  }

  predicate ParamCritical(p: Parameter) {
    CanConvertToDouble(p.value)
    && (Below(ToDouble(p.value), p.criticalLow) || Above(ToDouble(p.value), p.criticalHigh))
  }

  predicate ParamWarning(p: Parameter) {
    CanConvertToDouble(p.value) && !ParamCritical(p)
    && (Below(ToDouble(p.value), p.warningLow) || Above(ToDouble(p.value), p.warningHigh))
  }

  /** validate(): a convertible value decides validity from the limits; otherwise validity is kept. */
  function Revalidated(p: Parameter): Parameter {
    if CanConvertToDouble(p.value) then p.(isValid := ParamWithinLimits(p)) else p
  }

  /** setValues on a registry: registered names take the new value and time, others are ignored. */
  function Assigned(params: map<string, Parameter>, values: ValueMap, now: int, done: set<string>)
    : (r: map<string, Parameter>)
    ensures r.Keys == params.Keys
  {
    map k | k in params :: if k in done && k in values then params[k].(value := values[k], timestamp := now) else params[k]
  }

  function RevalidatedAll(params: map<string, Parameter>, done: set<string>): (r: map<string, Parameter>)
    ensures r.Keys == params.Keys
  {
    map k | k in params :: if k in done then Revalidated(params[k]) else params[k]
  }

  lemma AssignedStep(params: map<string, Parameter>, values: ValueMap, now: int, done: set<string>, k: string)
    requires k in values && k !in done
    ensures var cur := Assigned(params, values, now, done);
      Assigned(params, values, now, done + {k})
      == if k in cur then cur[k := cur[k].(value := values[k], timestamp := now)] else cur
  {
  }

  lemma RevalidatedStep(params: map<string, Parameter>, done: set<string>, k: string)
    requires k in params && k !in done
    ensures var cur := RevalidatedAll(params, done);
      RevalidatedAll(params, done + {k}) == cur[k := Revalidated(cur[k])]
  {
  }

  datatype Event =
    | ThresholdExceeded(name: string, kind: ThresholdKind)
    | ValidityChanged(name: string, valid: bool)

  class Store {
    var parameters: map<string, Parameter>
    var lastUpdate: int
    /** Threshold and validity notifications, oldest first. */
    var events: seq<Event>

    constructor (now: int)
      ensures parameters == map[] && lastUpdate == now && events == []
    {
      parameters := map[];
      lastUpdate := now;
      events := [];
    }

    /** Registers (or replaces) a parameter under its own name. */
    method AddParameter(p: Parameter, now: int)
      modifies this
      ensures parameters == old(parameters)[p.name := p]
      ensures lastUpdate == now && events == old(events)
    {
      parameters := parameters[p.name := p];
      lastUpdate := now;
    }

    method RemoveParameter(name: string)
      modifies this
      ensures parameters == old(parameters) - {name}
      ensures lastUpdate == old(lastUpdate) && events == old(events)
    {
      parameters := parameters - {name};
    }

    /** getValue: an unregistered name reads as an invalid variant. */
    function GetValue(name: string): (v: Value)
      reads this`parameters
      ensures name !in parameters ==> v == Null
    {
      if name in parameters then parameters[name].value else Null
    }

    /** getData: the current value of every registered parameter. */
    function GetData(): (d: ValueMap)
      reads this`parameters
      ensures d.Keys == parameters.Keys
      ensures forall k :: k in parameters ==> d[k] == parameters[k].value
    {
      map k | k in parameters :: parameters[k].value
    }

    /** setValue: ignored for an unregistered name; otherwise only that parameter's value and time change. */
    method SetValue(name: string, v: Value, now: int)
      modifies this
      ensures name !in old(parameters) ==>
        parameters == old(parameters) && lastUpdate == old(lastUpdate) && events == old(events)
      ensures name in old(parameters) ==>
        && parameters == old(parameters)[name := old(parameters)[name].(value := v, timestamp := now)]
        && lastUpdate == now
        && events == old(events) + match ThresholdReport(old(parameters)[name], v)
                                   case None => []
                                   case Some(kind) => [ThresholdExceeded(name, kind)]
    {
      if name !in parameters {
        return;
      }
      var p := parameters[name];
      parameters := parameters[name := p.(value := v, timestamp := now)];
      lastUpdate := now;
      var report := ThresholdReport(p, v);
      if report.Some? {
        events := events + [ThresholdExceeded(name, report.value)];
      }
    }

    /** setValues: every registered key of `values` is updated; unknown keys are ignored. */
    method SetValues(values: ValueMap, now: int)
      modifies this
      ensures parameters == Assigned(old(parameters), values, now, values.Keys)
      ensures lastUpdate == now && events == old(events)
    {
      var todo := values.Keys;
      ghost var done: set<string> := {};
      ghost var start := parameters;
      while todo != {}
        invariant done + todo == values.Keys && done !! todo
        invariant parameters == Assigned(start, values, now, done)
        invariant events == old(events)
        decreases |todo|
      {
        var k :| k in todo;
        AssignedStep(start, values, now, done, k);
        AssignOne(k, values[k], now);
        done := done + {k};
        todo := todo - {k};
      }
      lastUpdate := now;
    }

    /** One key of setValues: a registered name takes the value and the time, without notifications. */
    method AssignOne(k: string, v: Value, now: int)
      modifies this`parameters
      ensures parameters == if k in old(parameters) then old(parameters)[k := old(parameters)[k].(value := v, timestamp := now)] else old(parameters)
    {
      if k in parameters {
        var p := parameters[k];
        parameters := parameters[k := p.(value := v, timestamp := now)];
      }
    }

    predicate IsWithinLimits(name: string)
      reads this`parameters
    {
      name !in parameters || ParamWithinLimits(parameters[name])
    }

    predicate IsWarning(name: string)
      reads this`parameters
    {
      name in parameters && ParamWarning(parameters[name])
    }

    predicate IsCritical(name: string)
      reads this`parameters
    {
      name in parameters && ParamCritical(parameters[name])
    }

    /** validate: every convertible parameter's validity becomes "within limits". */
    method Validate()
      modifies this
      ensures parameters == RevalidatedAll(old(parameters), old(parameters).Keys)
      ensures lastUpdate == old(lastUpdate)
      ensures old(events) <= events
      ensures forall i :: |old(events)| <= i < |events| ==> events[i].ValidityChanged?
    {
      ghost var start := parameters;
      var todo := parameters.Keys;
      ghost var done: set<string> := {};
      assert parameters == RevalidatedAll(start, done);
      while todo != {}
        invariant todo <= start.Keys && done == start.Keys - todo
        invariant parameters == RevalidatedAll(start, done)
        invariant lastUpdate == old(lastUpdate)
        invariant old(events) <= events
        invariant forall i :: |old(events)| <= i < |events| ==> events[i].ValidityChanged?
        decreases |todo|
      {
        var k :| k in todo;
        RevalidatedStep(start, done, k);
        RevalidateOne(k);
        todo := todo - {k};
        done := done + {k};
      }
    }

    /** One step of validate: a convertible parameter's validity is recomputed, and a change is announced. */
    method RevalidateOne(k: string)
      requires k in parameters
      modifies this`parameters, this`events
      ensures parameters == old(parameters)[k := Revalidated(old(parameters)[k])]
      ensures var p, q := old(parameters)[k], Revalidated(old(parameters)[k]);
        events == old(events) + if q.isValid != p.isValid then [ValidityChanged(p.name, q.isValid)] else []
    {
      var p := parameters[k];
      var q := Revalidated(p);
      parameters := parameters[k := q];
      if q.isValid != p.isValid {
        events := events + [ValidityChanged(p.name, q.isValid)];
      }
    }

    predicate IsAllValid()
      reads this`parameters
    {
      forall k :: k in parameters ==> parameters[k].isValid
    }

    /** getInvalidParameters, as a set of names. */
    function InvalidParameters(): (s: set<string>)
      reads this`parameters
      ensures forall k :: k in parameters && !parameters[k].isValid ==> parameters[k].name in s
      ensures forall n :: n in s ==> exists k :: k in parameters && !parameters[k].isValid && parameters[k].name == n
    {
      set k | k in parameters && !parameters[k].isValid :: parameters[k].name
    }
  }

  /** A parameter is never both in the warning band and critical. */
  lemma WarningExcludesCritical(p: Parameter)
    ensures ParamWarning(p) ==> !ParamCritical(p)
  {
  }

  /** Unknown and non-numeric parameters are within limits, and never warning or critical. */
  lemma NonNumericIsQuiet(p: Parameter)
    requires !CanConvertToDouble(p.value)
    ensures ParamWithinLimits(p) && !ParamCritical(p) && !ParamWarning(p)
  {
  }

  /** After validate, each numeric parameter is valid iff it is within limits. */
  lemma ValidatedMeansWithinLimits(params: map<string, Parameter>, k: string)
    requires k in params && CanConvertToDouble(params[k].value)
    ensures RevalidatedAll(params, params.Keys)[k].isValid <==> ParamWithinLimits(params[k])
  {
  }

  /** isAllValid holds exactly when getInvalidParameters is empty. */
  lemma AllValidIffNoInvalid(s: Store)
    ensures s.IsAllValid() <==> s.InvalidParameters() == {}
  {
    if !s.IsAllValid() {
      var k :| k in s.parameters && !s.parameters[k].isValid;
      assert s.parameters[k].name in s.InvalidParameters();
    }
  }

  /** setValues never registers a name: keys outside the registry are ignored. */
  lemma AssignedIgnoresUnknown(params: map<string, Parameter>, values: ValueMap, now: int, k: string)
    requires k in values && k !in params
    ensures k !in Assigned(params, values, now, values.Keys)
  {
  }
}
