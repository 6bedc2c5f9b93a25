/**
 * The telemetry generator of the simulator: per-parameter generation
 * settings, the last generated values, the trend accumulated as simulated
 * time advances, and the anomalies (spike, drift, noise) injected into a
 * parameter until they expire or are cleared.
 *
 * The random terms are inputs: `jitter` is what the Gaussian and periodic
 * noise add to the nominal value, and `draws` holds one standard normal draw
 * per active anomaly, read only by the noise anomalies.
 */
module Generator {
  import opened Bounded
  import opened KeyOrder

  datatype ParameterConfig = ParameterConfig(
    name: string,
    nominal: real,
    variance: real,
    minValue: real,
    maxValue: real,
    trendRate: real,
    noiseFrequency: real,
    bounded: bool)

  datatype AnomalyKind = Spike | Drift | Noise

  datatype Anomaly = Anomaly(kind: AnomalyKind, magnitude: real, startTime: int, durationMs: int)

  datatype GeneratorSignal =
    | ValueGenerated(name: string, value: real)
    | AnomalyTriggered(name: string, kind: string)

  const SPIKE_DURATION_MS: int := 100
  const PERMANENT: int := -1

  /** The default constructor: nominal 0 in a bounded [0, 100] range, no variance or trend. */
  function DefaultConfig(): (c: ParameterConfig)
    ensures c.bounded && c.minValue == 0.0 && c.maxValue == 100.0
    ensures c.nominal == 0.0 && c.variance == 0.0 && c.trendRate == 0.0
  {
    ParameterConfig("", 0.0, 0.0, 0.0, 100.0, 0.0, 1.0, true)
  }

  /** The named constructor: no trend, unit noise frequency, always bounded. */
  function NewConfig(name: string, nominal: real, variance: real, minValue: real, maxValue: real): (c: ParameterConfig)
    ensures c.name == name && c.nominal == nominal && c.variance == variance
    ensures c.bounded && c.trendRate == 0.0
  {
    ParameterConfig(name, nominal, variance, minValue, maxValue, 0.0, 1.0, true)
  }

  function KindName(k: AnomalyKind): string {
    match k
    case Spike => "spike"
    case Drift => "drift"
    case Noise => "noise"
  }

  /** value(name, 0.0) on the accumulated trend. */
  function TrendOf(trend: map<string, real>, name: string): real {
    if name in trend then trend[name] else 0.0
  }

  function AnomaliesOf(anomalies: map<string, seq<Anomaly>>, name: string): seq<Anomaly> {
    if name in anomalies then anomalies[name] else []
  }

  /** applyNoise: the random term counts only for a positive variance. */
  function ApplyNoise(config: ParameterConfig, value: real, jitter: real): (r: real)
    ensures config.variance <= 0.0 ==> r == value
  {
    if config.variance > 0.0 then value + jitter else value
  }

  /** applyTrend: the trend accumulated under the configuration's name is added. */
  function ApplyTrend(trend: map<string, real>, config: ParameterConfig, value: real): (r: real)
    ensures config.name !in trend ==> r == value
  {
    value + TrendOf(trend, config.name)
  }

  /** clampValue: bounded configurations are held to their range. */
  function ClampValue(config: ParameterConfig, value: real): (r: real)
    ensures config.bounded && config.minValue <= config.maxValue ==> config.minValue <= r <= config.maxValue
    ensures config.bounded && config.minValue <= value <= config.maxValue ==> r == value
    ensures !config.bounded ==> r == value
  {
    if config.bounded then QBound(config.minValue, value, config.maxValue) else value
  }

  /** What one anomaly adds at time now; `draw` is the normal draw a noise anomaly scales. */
  function Effect(a: Anomaly, now: int, draw: real): real {
    var elapsed := now - a.startTime;
    match a.kind
    case Spike => if elapsed < a.durationMs then a.magnitude else 0.0
    case Drift => if elapsed < a.durationMs || a.durationMs < 0 then a.magnitude * (elapsed as real / 1000.0) else 0.0
    case Noise => draw * a.magnitude
  }

  /** The total the anomalies add, each with its own draw. */
  function EffectsAlong(list: seq<Anomaly>, now: int, draws: seq<real>): real
    requires |draws| == |list|
    decreases |list|
  {
    if list == [] then 0.0
    else EffectsAlong(list[..|list| - 1], now, draws[..|list| - 1]) + Effect(list[|list| - 1], now, draws[|list| - 1])
  }

  /** An anomaly advanceTime drops: limited in duration, and older than it. */
  predicate Expired(a: Anomaly, now: int) {
    a.durationMs > 0 && now - a.startTime > a.durationMs
  }

  /** The remove_if of advanceTime: the unexpired anomalies, in order. */
  function Live(list: seq<Anomaly>, now: int): (r: seq<Anomaly>)
    ensures |r| <= |list|
    decreases |list|
  {
    if list == [] then []
    else
      var front := Live(list[..|list| - 1], now);
      if Expired(list[|list| - 1], now) then front else front + [list[|list| - 1]]
  }

  /** advanceTime keeps exactly the anomalies that have not expired, and all of them when none has. */
  lemma {:induction false} LiveSpec(list: seq<Anomaly>, now: int)
    ensures forall a :: a in Live(list, now) <==> a in list && !Expired(a, now)
    ensures (forall i :: 0 <= i < |list| ==> !Expired(list[i], now)) ==> Live(list, now) == list
    decreases |list|
  {
    if list != [] {
      var front := list[..|list| - 1];
      LiveSpec(front, now);
      assert list == front + [list[|list| - 1]];
    }
  }

  /** Expiry only grows with time: pruning twice is pruning once at the later time. */
  lemma {:induction false} LiveLater(list: seq<Anomaly>, t1: int, t2: int)
    requires t1 <= t2
    ensures Live(Live(list, t1), t2) == Live(list, t2)
    decreases |list|
  {
    if list != [] {
      var front := list[..|list| - 1];
      var last := list[|list| - 1];
      LiveLater(front, t1, t2);
      var pruned := Live(front, t1);
      if !Expired(last, t1) {
        assert (pruned + [last])[..|pruned + [last]| - 1] == pruned;
      }
    }
  }

  /** A spike injected at time t adds its magnitude while fewer than 100 ms have gone by, and is dropped after 100. */
  lemma SpikeWindow(magnitude: real, t: int, now: int, draw: real)
    ensures var a := Anomaly(Spike, magnitude, t, SPIKE_DURATION_MS);
      && Effect(a, now, draw) == (if now - t < SPIKE_DURATION_MS then magnitude else 0.0)
      && (Expired(a, now) <==> now - t > SPIKE_DURATION_MS)
  {
  }

  /**
   * An anomaly without a positive duration never expires; a drift with a
   * negative one keeps growing with the time since injection.
   */
  lemma PermanentAnomalies(a: Anomaly, now: int)
    requires a.durationMs <= 0
    ensures !Expired(a, now)
    ensures a.kind == Drift && a.durationMs < 0 ==> Effect(a, now, 0.0) == a.magnitude * ((now - a.startTime) as real / 1000.0)
  {
  }

  /** The generator's maps and clock. */
  datatype GeneratorState = GeneratorState(
    parameters: map<string, ParameterConfig>,
    currentValues: map<string, real>,
    accumulatedTrend: map<string, real>,
    anomalies: map<string, seq<Anomaly>>,
    simulationTime: int)

  /** addParameter: stored under its name, at its nominal value, with no accumulated trend. */
  function Added(g: GeneratorState, c: ParameterConfig): GeneratorState {
    g.(parameters := g.parameters[c.name := c],
       currentValues := g.currentValues[c.name := c.nominal],
       accumulatedTrend := g.accumulatedTrend[c.name := 0.0])
  }

  /** removeParameter: the name leaves all four maps. */
  function Removed(g: GeneratorState, name: string): GeneratorState {
    g.(parameters := g.parameters - {name},
       currentValues := g.currentValues - {name},
       accumulatedTrend := g.accumulatedTrend - {name},
       anomalies := g.anomalies - {name})
  }

  /** The four setters of a registered configuration. */
  datatype Adjustment = TrendRate(rate: real) | Variance(variance: real) | Nominal(nominal: real) | Offset(offset: real)

  function Adjust(c: ParameterConfig, adj: Adjustment): ParameterConfig {
    match adj
    case TrendRate(rate) => c.(trendRate := rate)
    case Variance(v) => c.(variance := v)
    case Nominal(n) => c.(nominal := n)
    case Offset(d) => c.(nominal := c.nominal + d)
  }

  /** A change to a registered configuration; an unknown name changes nothing. */
  function Adjusted(g: GeneratorState, name: string, adj: Adjustment): GeneratorState {
    if name in g.parameters then g.(parameters := g.parameters[name := Adjust(g.parameters[name], adj)]) else g
  }

  /** reset(name): a registered parameter is back at nominal, with no trend and no anomalies. */
  function ResetOne(g: GeneratorState, name: string): GeneratorState {
    if name !in g.parameters then g
    else g.(currentValues := g.currentValues[name := g.parameters[name].nominal],
            accumulatedTrend := g.accumulatedTrend[name := 0.0],
            anomalies := g.anomalies - {name})
  }

  /** resetAll: every registered parameter reset, and the clock back at 0. */
  function ResetEvery(g: GeneratorState): GeneratorState {
    GeneratorState(
      g.parameters,
      map k | k in g.currentValues.Keys + g.parameters.Keys ::
        if k in g.parameters then g.parameters[k].nominal else g.currentValues[k],
      map k | k in g.accumulatedTrend.Keys + g.parameters.Keys ::
        if k in g.parameters then 0.0 else g.accumulatedTrend[k],
      g.anomalies - g.parameters.Keys,
      0)
  }

  /** The anomaly appended to the name's list, which is created when missing. */
  function Injected(g: GeneratorState, name: string, a: Anomaly): GeneratorState {
    g.(anomalies := g.anomalies[name := AnomaliesOf(g.anomalies, name) + [a]])
  }

  /** Every registered parameter's trend grows by rate × ms / 1000; a missing entry starts at 0. */
  function AccruedTrends(parameters: map<string, ParameterConfig>, trend: map<string, real>, ms: int): map<string, real> {
    map k | k in trend.Keys + parameters.Keys ::
      if k in parameters then TrendOf(trend, k) + parameters[k].trendRate * (ms as real / 1000.0) else trend[k]
  }

  function Pruned(anomalies: map<string, seq<Anomaly>>, now: int): map<string, seq<Anomaly>> {
    map k | k in anomalies :: Live(anomalies[k], now)
  }

  /** advanceTime(ms): the clock moves on, trends accrue, expired anomalies go. */
  function Advanced(g: GeneratorState, ms: int): GeneratorState {
    var now := g.simulationTime + ms;
    g.(simulationTime := now,
       accumulatedTrend := AccruedTrends(g.parameters, g.accumulatedTrend, ms),
       anomalies := Pruned(g.anomalies, now))
  }

  /** generateValue(config): nominal plus noise, trend and anomalies, then clamped. */
  function Generated(g: GeneratorState, config: ParameterConfig, jitter: real, draws: seq<real>): real
    requires |draws| == |AnomaliesOf(g.anomalies, config.name)|
  {
    var list := AnomaliesOf(g.anomalies, config.name);
    var trended := ApplyTrend(g.accumulatedTrend, config, ApplyNoise(config, config.nominal, jitter));
    ClampValue(config, trended + EffectsAlong(list, g.simulationTime, draws))
  }

  // ---------------------------------------------------------------------
  // Properties of the operations.

  /** addParameter sets nominal and a zero trend, and leaves other names and the anomalies alone. */
  lemma AddedSpec(g: GeneratorState, c: ParameterConfig, other: string)
    requires other != c.name
    ensures var r := Added(g, c);
      && r.parameters[c.name] == c && r.currentValues[c.name] == c.nominal && TrendOf(r.accumulatedTrend, c.name) == 0.0
      && r.anomalies == g.anomalies
      && (other in r.parameters <==> other in g.parameters)
      && TrendOf(r.accumulatedTrend, other) == TrendOf(g.accumulatedTrend, other)
  {
  }

  /** removeParameter deletes the name from all four maps and only that name. */
  lemma RemovedSpec(g: GeneratorState, name: string)
    ensures var r := Removed(g, name);
      && name !in r.parameters && name !in r.currentValues && name !in r.accumulatedTrend && name !in r.anomalies
      && r.parameters.Keys == g.parameters.Keys - {name}
      && r.anomalies.Keys == g.anomalies.Keys - {name}
      && AnomaliesOf(r.anomalies, name) == []
  {
  }

  /** A registered parameter generates nothing from what a removed one left behind. */
  lemma RemovedThenAdded(g: GeneratorState, c: ParameterConfig, jitter: real)
    ensures var r := Added(Removed(g, c.name), c);
      && AnomaliesOf(r.anomalies, c.name) == []
      && Generated(r, c, jitter, []) == ClampValue(c, ApplyNoise(c, c.nominal, jitter))
  {
  }

  /** The setters are no-ops for unknown names and touch only the named configuration otherwise. */
  lemma AdjustedSpec(g: GeneratorState, name: string, adj: Adjustment, other: string)
    requires other != name
    ensures name !in g.parameters ==> Adjusted(g, name, adj) == g
    ensures name in g.parameters ==> Adjusted(g, name, adj).parameters[name].name == g.parameters[name].name
    ensures name in g.parameters && adj.Offset? ==>
      Adjusted(g, name, adj).parameters[name].nominal == g.parameters[name].nominal + adj.offset
    ensures other in Adjusted(g, name, adj).parameters <==> other in g.parameters
    ensures other in g.parameters ==> Adjusted(g, name, adj).parameters[other] == g.parameters[other]
    ensures Adjusted(g, name, adj).currentValues == g.currentValues && Adjusted(g, name, adj).anomalies == g.anomalies
  {
  }

  /**
   * After reset a parameter generates from its nominal value alone: no
   * trend and no anomaly remains, only the noise term and the clamp.
   */
  lemma ResetThenGenerate(g: GeneratorState, name: string, jitter: real)
    requires name in g.parameters && g.parameters[name].name == name
    ensures var r := ResetOne(g, name);
      var c := g.parameters[name];
      && r.currentValues[name] == c.nominal
      && AnomaliesOf(r.anomalies, name) == []
      && Generated(r, c, jitter, []) == ClampValue(c, ApplyNoise(c, c.nominal, jitter))
  {
  }

  /** resetAll is reset on every registered name, with the clock at 0; unregistered entries stay. */
  lemma ResetEverySpec(g: GeneratorState, name: string)
    ensures ResetEvery(g).simulationTime == 0 && ResetEvery(g).parameters == g.parameters
    ensures name in g.parameters ==>
      var r := ResetEvery(g);
      && r.currentValues[name] == g.parameters[name].nominal
      && r.accumulatedTrend[name] == 0.0
      && name !in r.anomalies
    ensures name !in g.parameters ==>
      var r := ResetEvery(g);
      && (name in r.currentValues <==> name in g.currentValues)
      && (name in g.currentValues ==> r.currentValues[name] == g.currentValues[name])
      && AnomaliesOf(r.anomalies, name) == AnomaliesOf(g.anomalies, name)
  {
  }

  /** advanceTime moves the clock by ms, adds rate × ms / 1000 to each registered trend and prunes each list. */
  lemma AdvancedSpec(g: GeneratorState, ms: int, name: string)
    ensures var r := Advanced(g, ms);
      && r.simulationTime == g.simulationTime + ms
      && r.parameters == g.parameters
      && (name in g.parameters ==>
            r.accumulatedTrend[name] == TrendOf(g.accumulatedTrend, name) + g.parameters[name].trendRate * (ms as real / 1000.0))
      && (name !in g.parameters ==> TrendOf(r.accumulatedTrend, name) == TrendOf(g.accumulatedTrend, name))
      && r.anomalies.Keys == g.anomalies.Keys
      && (forall a :: a in AnomaliesOf(r.anomalies, name) <==>
            a in AnomaliesOf(g.anomalies, name) && !Expired(a, g.simulationTime + ms))
  {
    LiveSpec(AnomaliesOf(g.anomalies, name), g.simulationTime + ms);
  }

  /** Advancing twice is advancing once by the sum, as long as the first step does not go back in time. */
  lemma AdvancedTwice(g: GeneratorState, a: int, b: int)
    requires a >= 0 && b >= 0
    ensures Advanced(Advanced(g, a), b) == Advanced(g, a + b)
  {
    var t1, t2 := g.simulationTime + a, g.simulationTime + (a + b);
    var once := Advanced(g, a);
    assert once.parameters == g.parameters && once.simulationTime == t1;
    assert once.accumulatedTrend == AccruedTrends(g.parameters, g.accumulatedTrend, a);
    assert once.anomalies == Pruned(g.anomalies, t1);
    PrunedTwice(g.anomalies, t1, t2);
    AccruedTwice(g.parameters, g.accumulatedTrend, a, b);
  }

  /** Pruning at t1 and then at a later t2 is pruning at t2. */
  lemma PrunedTwice(anomalies: map<string, seq<Anomaly>>, t1: int, t2: int)
    requires t1 <= t2
    ensures Pruned(Pruned(anomalies, t1), t2) == Pruned(anomalies, t2)
  {
    var twice := Pruned(Pruned(anomalies, t1), t2);
    var whole := Pruned(anomalies, t2);
    assert twice.Keys == whole.Keys;
    forall k | k in twice
      ensures twice[k] == whole[k]
    {
      LiveLater(anomalies[k], t1, t2);
    }
  }

  /** Two accruals of a and b milliseconds are one of a + b. */
  lemma AccruedTwice(parameters: map<string, ParameterConfig>, trend: map<string, real>, a: int, b: int)
    ensures AccruedTrends(parameters, AccruedTrends(parameters, trend, a), b) == AccruedTrends(parameters, trend, a + b)
  {
    var once := AccruedTrends(parameters, trend, a);
    var twice := AccruedTrends(parameters, once, b);
    var whole := AccruedTrends(parameters, trend, a + b);
    assert twice.Keys == whole.Keys;
    forall k | k in twice
      ensures twice[k] == whole[k]
    {
      if k in parameters {
        ScaledSum(parameters[k].trendRate, a, b);
      }
    }
  }

  lemma ScaledSum(rate: real, a: int, b: int)
    ensures rate * (a as real / 1000.0) + rate * (b as real / 1000.0) == rate * ((a + b) as real / 1000.0)
  {
  }

  lemma EffectsAlongSnoc(list: seq<Anomaly>, draws: seq<real>, now: int, i: nat)
    requires |draws| == |list| && i < |list|
    ensures EffectsAlong(list[..i + 1], now, draws[..i + 1])
      == EffectsAlong(list[..i], now, draws[..i]) + Effect(list[i], now, draws[i])
  {
    assert list[..i + 1][..i] == list[..i];
    assert draws[..i + 1][..i] == draws[..i];
  }

  /** applyAnomalies: the loop that adds each anomaly's effect to the value. */
  method ApplyAnomalies(list: seq<Anomaly>, now: int, value: real, draws: seq<real>) returns (result: real)
    requires |draws| == |list|
    ensures result == value + EffectsAlong(list, now, draws)
  {
    result := value;
    var i := 0;
    while i < |list|
      invariant 0 <= i <= |list|
      invariant result == value + EffectsAlong(list[..i], now, draws[..i])
    {
      EffectsAlongSnoc(list, draws, now, i);
      var a := list[i];
      var elapsed := now - a.startTime;
      match a.kind {
        case Spike =>
          if elapsed < a.durationMs {
            result := result + a.magnitude;
          }
        case Drift =>
          if elapsed < a.durationMs || a.durationMs < 0 {
            result := result + a.magnitude * (elapsed as real / 1000.0);
          }
        case Noise =>
          result := result + draws[i] * a.magnitude;
      }
      i := i + 1;
    }
    assert list[..i] == list && draws[..i] == draws;
  }

  /** The reset loop of resetAll over the listed names: values back at nominal, trends at 0. */
  method ResetAlong(keys: seq<string>, parameters: map<string, ParameterConfig>,
                    current: map<string, real>, trend: map<string, real>)
    returns (current': map<string, real>, trend': map<string, real>)
    requires forall k :: k in keys <==> k in parameters
    ensures current' == map k | k in current.Keys + parameters.Keys ::
      if k in parameters then parameters[k].nominal else current[k]
    ensures trend' == map k | k in trend.Keys + parameters.Keys :: if k in parameters then 0.0 else trend[k]
  {
    current', trend' := current, trend;
    ghost var done: set<string> := {};
    var i := 0;
    while i < |keys|
      invariant 0 <= i <= |keys|
      invariant forall k :: k in done <==> k in keys[..i]
      invariant forall k :: k in current' <==> k in current || k in done
      invariant forall k :: k in current' ==> current'[k] == if k in done then parameters[k].nominal else current[k]
      invariant forall k :: k in trend' <==> k in trend || k in done
      invariant forall k :: k in trend' ==> trend'[k] == if k in done then 0.0 else trend[k]
    {
      var name := keys[i];
      assert keys[..i + 1] == keys[..i] + [name];
      current' := current'[name := parameters[name].nominal];
      trend' := trend'[name := 0.0];
      done := done + {name};
      i := i + 1;
    }
    assert keys[..i] == keys;
    assert done == parameters.Keys;
  }

  /** The trend loop of advanceTime over the listed names. */
  method AccrueAlong(keys: seq<string>, parameters: map<string, ParameterConfig>, trend: map<string, real>, ms: int)
    returns (trend': map<string, real>)
    requires forall k :: k in keys <==> k in parameters
    requires forall i, j :: 0 <= i < j < |keys| ==> keys[i] != keys[j]
    ensures trend' == AccruedTrends(parameters, trend, ms)
  {
    trend' := trend;
    ghost var done: set<string> := {};
    var i := 0;
    while i < |keys|
      invariant 0 <= i <= |keys|
      invariant forall k :: k in done <==> k in keys[..i]
      invariant forall k :: k in trend' <==> k in trend || k in done
      invariant forall k :: k in trend' ==>
        trend'[k] == if k in done then TrendOf(trend, k) + parameters[k].trendRate * (ms as real / 1000.0) else trend[k]
    {
      var name := keys[i];
      assert keys[..i + 1] == keys[..i] + [name];
      assert name !in done by {
        forall j | 0 <= j < i
          ensures keys[j] != name
        {
        }
      }
      assert TrendOf(trend', name) == TrendOf(trend, name);
      trend' := trend'[name := TrendOf(trend', name) + parameters[name].trendRate * (ms as real / 1000.0)];
      done := done + {name};
      i := i + 1;
    }
    assert keys[..i] == keys;
    assert done == parameters.Keys;
    ghost var want := AccruedTrends(parameters, trend, ms);
    assert trend'.Keys == want.Keys;
    assert forall k :: k in trend' ==> trend'[k] == want[k];
  }

  /** The expiry loop of advanceTime over the listed anomaly lists. */
  method PruneAlong(keys: seq<string>, anomalies: map<string, seq<Anomaly>>, now: int)
    returns (anomalies': map<string, seq<Anomaly>>)
    requires forall k :: k in keys <==> k in anomalies
    requires forall i, j :: 0 <= i < j < |keys| ==> keys[i] != keys[j]
    ensures anomalies' == Pruned(anomalies, now)
  {
    anomalies' := anomalies;
    ghost var done: set<string> := {};
    var i := 0;
    while i < |keys|
      invariant 0 <= i <= |keys|
      invariant forall k :: k in done <==> k in keys[..i]
      invariant anomalies'.Keys == anomalies.Keys
      invariant forall k :: k in anomalies' ==> anomalies'[k] == if k in done then Live(anomalies[k], now) else anomalies[k]
    {
      var name := keys[i];
      assert keys[..i + 1] == keys[..i] + [name];
      assert name !in done by {
        forall j | 0 <= j < i
          ensures keys[j] != name
        {
        }
      }
      assert anomalies'[name] == anomalies[name];
      anomalies' := anomalies'[name := Live(anomalies'[name], now)];
      done := done + {name};
      i := i + 1;
    }
    assert keys[..i] == keys;
    assert done == anomalies.Keys;
    ghost var want := Pruned(anomalies, now);
    assert anomalies'.Keys == want.Keys;
    assert forall k :: k in anomalies' ==> anomalies'[k] == want[k];
  }

  /** The names of a map in order, each once. */
  method Names(s: set<string>) returns (keys: seq<string>)
    ensures forall k :: k in keys <==> k in s
    ensures forall i, j :: 0 <= i < j < |keys| ==> keys[i] != keys[j]
  {
    keys := SortedKeys(s);
    DistinctKeys(s);
  }

  /** advanceTime on the maps: the trend loop over the parameter names, then the expiry loop. */
  method AdvanceMaps(g: GeneratorState, ms: int) returns (r: GeneratorState)
    ensures r == Advanced(g, ms)
  {
    var names := Names(g.parameters.Keys);
    var trend := AccrueAlong(names, g.parameters, g.accumulatedTrend, ms);
    var lists := Names(g.anomalies.Keys);
    var pruned := PruneAlong(lists, g.anomalies, g.simulationTime + ms);
    r := GeneratorState(g.parameters, g.currentValues, trend, pruned, g.simulationTime + ms);
  }

  class TelemetryGenerator {
    var parameters: map<string, ParameterConfig>
    var currentValues: map<string, real>
    var accumulatedTrend: map<string, real>
    var anomalies: map<string, seq<Anomaly>>
    var simulationTime: int
    var events: seq<GeneratorSignal>

    function Contents(): GeneratorState
      reads this`parameters, this`currentValues, this`accumulatedTrend, this`anomalies, this`simulationTime
    {
      GeneratorState(parameters, currentValues, accumulatedTrend, anomalies, simulationTime)
    }

    constructor ()
      ensures Contents() == GeneratorState(map[], map[], map[], map[], 0) && events == []
    {
      parameters := map[];
      currentValues := map[];
      accumulatedTrend := map[];
      anomalies := map[];
      simulationTime := 0;
      events := [];
    }

    method AddParameter(config: ParameterConfig)
      modifies this`parameters, this`currentValues, this`accumulatedTrend
      ensures Contents() == Added(old(Contents()), config)
    {
      parameters := parameters[config.name := config];
      currentValues := currentValues[config.name := config.nominal];
      accumulatedTrend := accumulatedTrend[config.name := 0.0];
    }

    method RemoveParameter(name: string)
      modifies this`parameters, this`currentValues, this`accumulatedTrend, this`anomalies
      ensures Contents() == Removed(old(Contents()), name)
    {
      parameters := parameters - {name};
      currentValues := currentValues - {name};
      accumulatedTrend := accumulatedTrend - {name};
      anomalies := anomalies - {name};
    }

    /** setParameterConfig: stored under the given name, whatever the configuration's own name. */
    method SetParameterConfig(name: string, config: ParameterConfig)
      modifies this`parameters
      ensures parameters == old(parameters)[name := config]
    {
      parameters := parameters[name := config];
    }

    /** getParameterConfig: the stored configuration, or a default one. */
    function GetParameterConfig(name: string): (c: ParameterConfig)
      reads this`parameters
      ensures name in parameters ==> c == parameters[name]
      ensures name !in parameters ==> c == DefaultConfig()
    {
      if name in parameters then parameters[name] else DefaultConfig()
    }

    /**
     * generateValue(name): 0 and no change for an unknown name; otherwise the
     * generated value, stored under the configuration's name and announced.
     */
    method GenerateValue(name: string, jitter: real, draws: seq<real>) returns (value: real)
      requires name in parameters ==> |draws| == |AnomaliesOf(anomalies, parameters[name].name)|
      modifies this`currentValues, this`events
      ensures name !in parameters ==> value == 0.0 && currentValues == old(currentValues) && events == old(events)
      ensures name in parameters ==>
        && value == Generated(old(Contents()), parameters[name], jitter, draws)
        && currentValues == old(currentValues)[parameters[name].name := value]
        && events == old(events) + [ValueGenerated(parameters[name].name, value)]
    {
      if name !in parameters {
        return 0.0;
      }
      var config := parameters[name];
      value := ApplyNoise(config, config.nominal, jitter);
      value := ApplyTrend(accumulatedTrend, config, value);
      value := ApplyAnomalies(AnomaliesOf(anomalies, config.name), simulationTime, value, draws);
      value := ClampValue(config, value);
      currentValues := currentValues[config.name := value];
      events := events + [ValueGenerated(config.name, value)];
    }

    method SetTrend(name: string, trendRate: real)
      modifies this`parameters
      ensures Contents() == Adjusted(old(Contents()), name, TrendRate(trendRate))
    {
      if name in parameters {
        parameters := parameters[name := parameters[name].(trendRate := trendRate)];
      }
    }

    method SetVariance(name: string, variance: real)
      modifies this`parameters
      ensures Contents() == Adjusted(old(Contents()), name, Variance(variance))
    {
      if name in parameters {
        parameters := parameters[name := parameters[name].(variance := variance)];
      }
    }

    method SetNominal(name: string, nominal: real)
      modifies this`parameters
      ensures Contents() == Adjusted(old(Contents()), name, Nominal(nominal))
    {
      if name in parameters {
        parameters := parameters[name := parameters[name].(nominal := nominal)];
      }
    }

    method ApplyOffset(name: string, offset: real)
      modifies this`parameters
      ensures Contents() == Adjusted(old(Contents()), name, Offset(offset))
    {
      if name in parameters {
        parameters := parameters[name := parameters[name].(nominal := parameters[name].nominal + offset)];
      }
    }

    method Reset(name: string)
      modifies this`currentValues, this`accumulatedTrend, this`anomalies
      ensures Contents() == ResetOne(old(Contents()), name)
    {
      if name in parameters {
        currentValues := currentValues[name := parameters[name].nominal];
        accumulatedTrend := accumulatedTrend[name := 0.0];
        anomalies := anomalies - {name};
      }
    }

    method ResetAll()
      modifies this`currentValues, this`accumulatedTrend, this`anomalies, this`simulationTime
      ensures Contents() == ResetEvery(old(Contents()))
    {
      var keys := SortedKeys(parameters.Keys);
      currentValues, accumulatedTrend := ResetAlong(keys, parameters, currentValues, accumulatedTrend);
      anomalies := anomalies - parameters.Keys;
      simulationTime := 0;
    }

    /** The injection shared by the three anomaly kinds. */
    method Inject(name: string, a: Anomaly)
      modifies this`anomalies, this`events
      ensures Contents() == Injected(old(Contents()), name, a)
      ensures events == old(events) + [AnomalyTriggered(name, KindName(a.kind))]
    {
      anomalies := anomalies[name := AnomaliesOf(anomalies, name) + [a]];
      events := events + [AnomalyTriggered(name, KindName(a.kind))];
    }

    /** injectSpike: a 100 ms spike from now, for any name. */
    method InjectSpike(name: string, magnitude: real)
      modifies this`anomalies, this`events
      ensures Contents() == Injected(old(Contents()), name, Anomaly(Spike, magnitude, simulationTime, SPIKE_DURATION_MS))
      ensures events == old(events) + [AnomalyTriggered(name, "spike")]
    {
      Inject(name, Anomaly(Spike, magnitude, simulationTime, SPIKE_DURATION_MS));
    }

    method InjectDrift(name: string, driftRate: real, durationMs: int)
      modifies this`anomalies, this`events
      ensures Contents() == Injected(old(Contents()), name, Anomaly(Drift, driftRate, simulationTime, durationMs))
      ensures events == old(events) + [AnomalyTriggered(name, "drift")]
    {
      Inject(name, Anomaly(Drift, driftRate, simulationTime, durationMs));
    }

    /** injectNoise: permanent until cleared. */
    method InjectNoise(name: string, noiseFactor: real)
      modifies this`anomalies, this`events
      ensures Contents() == Injected(old(Contents()), name, Anomaly(Noise, noiseFactor, simulationTime, PERMANENT))
      ensures events == old(events) + [AnomalyTriggered(name, "noise")]
    {
      Inject(name, Anomaly(Noise, noiseFactor, simulationTime, PERMANENT));
    }

    method ClearAnomalies(name: string)
      modifies this`anomalies
      ensures anomalies == old(anomalies) - {name}
    {
      anomalies := anomalies - {name};
    }

    method ClearAllAnomalies()
      modifies this`anomalies
      ensures anomalies == map[]
    {
      anomalies := map[];
    }

    method AdvanceTime(milliseconds: int)
      modifies this`simulationTime, this`accumulatedTrend, this`anomalies
      ensures Contents() == Advanced(old(Contents()), milliseconds)
    {
      var r := AdvanceMaps(Contents(), milliseconds);
      simulationTime, accumulatedTrend, anomalies := r.simulationTime, r.accumulatedTrend, r.anomalies;
    }

    method SetTime(t: int)
      modifies this`simulationTime
      ensures simulationTime == t
    {
      simulationTime := t;
    }
  }
}
