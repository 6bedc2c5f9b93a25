/**
 * The health simulator's deterministic side: the start / stop / pause /
 * resume state machine with its update timer, the scenario selected by
 * name, the clamped fault probability, the per-unit lists of injected fault
 * codes and the simulated clock the update tick advances.
 *
 * The update timer is two fields: whether it is running and the interval it
 * was started with.  Signals are appended to `events`.
 */
module Simulator {
  import opened Wrappers
  import opened Bounded
  import SubsystemManager

  datatype Scenario =
    | Normal | Degraded | HighStress | ThermalStress | PowerIssues | PartialFailure | Recovery | Random

  datatype SimulatorSignal =
    | RunningChanged
    | IntervalChanged
    | ScenarioChanged
    | SettingsChanged
    | FaultInjected(subsystemId: string, code: string)

  const DEFAULT_FAULT_PROBABILITY: real := 0.01
  const DEFAULT_UPDATE_INTERVAL_MS: int := 1000

  /** getScenario. */
  function ScenarioName(s: Scenario): string {
    match s
    case Normal => "Normal"
    case Degraded => "Degraded"
    case HighStress => "HighStress"
    case ThermalStress => "ThermalStress"
    case PowerIssues => "PowerIssues"
    case PartialFailure => "PartialFailure"
    case Recovery => "Recovery"
    case Random => "Random"
  }

  /** The name test of setScenario(QString): one of the eight names, or nothing. */
  function ScenarioNamed(name: string): Option<Scenario> {
    if name == "Normal" then Some(Normal)
    else if name == "Degraded" then Some(Degraded)
    else if name == "HighStress" then Some(HighStress)
    else if name == "ThermalStress" then Some(ThermalStress)
    else if name == "PowerIssues" then Some(PowerIssues)
    else if name == "PartialFailure" then Some(PartialFailure)
    else if name == "Recovery" then Some(Recovery)
    else if name == "Random" then Some(Random)
    else None
  }

  /** Every scenario is found again under its own name, and only names of scenarios are recognised. */
  lemma ScenarioRoundTrip(s: Scenario, name: string)
    ensures ScenarioNamed(ScenarioName(s)) == Some(s)
    ensures ScenarioNamed(name).Some? <==> exists t :: ScenarioName(t) == name
    ensures ScenarioNamed(name).Some? ==> ScenarioName(ScenarioNamed(name).value) == name
  {
    if ScenarioNamed(name).None? {
      forall t
        ensures ScenarioName(t) != name
      {
      }
    } else {
      assert ScenarioName(ScenarioNamed(name).value) == name;
    }
  }

  /** The run state: the two flags and whether the update timer is running. */
  datatype RunState = RunState(running: bool, paused: bool, timerActive: bool)

  /** A paused simulator is a running one, and the timer runs exactly while the simulation does. */
  predicate Coherent(r: RunState) {
    && (r.paused ==> r.running)
    && (r.timerActive <==> r.running && !r.paused)
  }

  /** isRunning: running and not paused. */
  predicate Active(r: RunState) {
    r.running && !r.paused
  }

  function Started(r: RunState): RunState {
    if r.running then r else RunState(true, false, true)
  }

  function Stopped(r: RunState): RunState {
    if !r.running then r else RunState(false, false, false)
  }

  function Paused(r: RunState): RunState {
    if r.running && !r.paused then r.(paused := true, timerActive := false) else r
  }

  function Resumed(r: RunState): RunState {
    if r.running && r.paused then r.(paused := false, timerActive := true) else r
  }

  /** Every transition keeps the run state coherent. */
  lemma TransitionsCoherent(r: RunState)
    requires Coherent(r)
    ensures Coherent(Started(r)) && Coherent(Stopped(r)) && Coherent(Paused(r)) && Coherent(Resumed(r))
  {
  }

  /**
   * The state machine: starting leaves the simulation active unless it was
   * paused (start is a no-op while running); stopping always ends it;
   * pausing and resuming undo each other.
   */
  lemma TransitionsSpec(r: RunState)
    requires Coherent(r)
    ensures Active(Started(r)) <==> !r.paused
    ensures Started(r).running && (r.running ==> Started(r) == r)
    ensures !Active(Stopped(r)) && !Stopped(r).running && Stopped(Stopped(r)) == Stopped(r)
    ensures Active(r) ==> Resumed(Paused(r)) == r
    ensures r.paused ==> Paused(Resumed(r)) == r
    ensures !Active(Paused(r)) && (r.running ==> Active(Resumed(r)))
  {
  }

  class HealthSimulator {
    var scenario: Scenario
    var faultProbability: real
    var updateInterval: int
    var running: bool
    var paused: bool
    var timerActive: bool
    var timerInterval: int
    var simulationTime: int
    var injectedFaults: map<string, seq<string>>
    var events: seq<SimulatorSignal>

    function Run(): RunState
      reads this`running, this`paused, this`timerActive
    {
      RunState(running, paused, timerActive)
    }

    ghost predicate Valid()
      reads this`running, this`paused, this`timerActive, this`timerInterval, this`updateInterval
    {
      Coherent(Run()) && (timerActive ==> timerInterval == updateInterval)
    }

    constructor ()
      ensures Valid()
      ensures scenario == Normal && faultProbability == DEFAULT_FAULT_PROBABILITY
      ensures updateInterval == DEFAULT_UPDATE_INTERVAL_MS && !running && !paused && !timerActive
      ensures simulationTime == 0 && injectedFaults == map[] && events == []
    {
      scenario := Normal;
      faultProbability := DEFAULT_FAULT_PROBABILITY;
      updateInterval := DEFAULT_UPDATE_INTERVAL_MS;
      running := false;
      paused := false;
      timerActive := false;
      timerInterval := 0;
      simulationTime := 0;
      injectedFaults := map[];
      events := [];
    }

    /** start: a no-op while running; otherwise starts afresh from time 0. */
    method Start()
      requires Valid()
      modifies this`running, this`paused, this`timerActive, this`timerInterval, this`simulationTime, this`events
      ensures Valid() && Run() == Started(old(Run()))
      ensures old(running) ==> simulationTime == old(simulationTime) && events == old(events)
      ensures !old(running) ==> simulationTime == 0 && events == old(events) + [RunningChanged]
    {
      TransitionsCoherent(Run());
      if running {
        return;
      }
      running := true;
      paused := false;
      simulationTime := 0;
      timerActive := true;
      timerInterval := updateInterval;
      events := events + [RunningChanged];
    }

    /** stop: a no-op unless running; otherwise clears both flags and stops the timer. */
    method Stop()
      requires Valid()
      modifies this`running, this`paused, this`timerActive, this`events
      ensures Valid() && Run() == Stopped(old(Run()))
      ensures events == old(events) + (if old(running) then [RunningChanged] else [])
    {
      TransitionsCoherent(Run());
      if !running {
        return;
      }
      running := false;
      paused := false;
      timerActive := false;
      events := events + [RunningChanged];
    }

    method Pause()
      requires Valid()
      modifies this`paused, this`timerActive, this`events
      ensures Valid() && Run() == Paused(old(Run()))
      ensures events == old(events) + (if old(Active(Run())) then [RunningChanged] else [])
    {
      TransitionsCoherent(Run());
      if running && !paused {
        paused := true;
        timerActive := false;
        events := events + [RunningChanged];
      }
    }

    method Resume()
      requires Valid()
      modifies this`paused, this`timerActive, this`timerInterval, this`events
      ensures Valid() && Run() == Resumed(old(Run()))
      ensures events == old(events) + (if old(running && paused) then [RunningChanged] else [])
    {
      TransitionsCoherent(Run());
      if running && paused {
        paused := false;
        timerActive := true;
        timerInterval := updateInterval;
        events := events + [RunningChanged];
      }
    }

    /** isRunning. */
    function IsRunning(): (r: bool)
      reads this`running, this`paused, this`timerActive, this`timerInterval, this`updateInterval
      ensures Valid() ==> (r <==> timerActive)
    {
      running && !paused
    }

    /** setUpdateInterval: a running timer takes the new interval at once. */
    method SetUpdateInterval(msec: int)
      requires Valid()
      modifies this`updateInterval, this`timerInterval, this`events
      ensures Valid() && updateInterval == msec
      ensures timerActive ==> timerInterval == msec
      ensures !timerActive ==> timerInterval == old(timerInterval)
      ensures events == old(events) + [IntervalChanged]
    {
      updateInterval := msec;
      if timerActive {
        timerInterval := msec;
      }
      events := events + [IntervalChanged];
    }

    function GetScenario(): (name: string)
      reads this`scenario
      ensures ScenarioNamed(name) == Some(scenario)
    {
      ScenarioRoundTrip(scenario, "");
      ScenarioName(scenario)
    }

    /** setScenario(Scenario): announces only a change. */
    method SetScenario(s: Scenario)
      modifies this`scenario, this`events
      ensures scenario == s
      ensures events == old(events) + (if old(scenario) != s then [ScenarioChanged] else [])
    {
      if scenario != s {
        scenario := s;
        events := events + [ScenarioChanged];
      }
    }

    /** setScenario(QString): one of the eight names selects its scenario; any other string changes nothing. */
    method SetScenarioNamed(name: string)
      modifies this`scenario, this`events
      ensures ScenarioNamed(name).None? ==> scenario == old(scenario) && events == old(events)
      ensures ScenarioNamed(name).Some? ==> GetScenario() == name
      ensures ScenarioNamed(name).Some? ==>
        events == old(events) + (if old(scenario) != ScenarioNamed(name).value then [ScenarioChanged] else [])
    {
      match ScenarioNamed(name)
      case None =>
      case Some(s) =>
        ScenarioRoundTrip(s, name);
        SetScenario(s);
    }

    /** setFaultProbability: the argument bounded to [0, 1]. */
    method SetFaultProbability(probability: real)
      modifies this`faultProbability, this`events
      ensures faultProbability == QBound(0.0, probability, 1.0)
      ensures 0.0 <= faultProbability <= 1.0
      ensures 0.0 <= probability <= 1.0 ==> faultProbability == probability
      ensures events == old(events) + [SettingsChanged]
    {
      faultProbability := QBound(0.0, probability, 1.0);
      events := events + [SettingsChanged];
    }

    /** injectFault: the code is appended to the unit's list, which is created when missing. */
    method InjectFault(subsystemId: string, faultCode: string)
      modifies this`injectedFaults, this`events
      ensures injectedFaults == old(injectedFaults)[subsystemId :=
        (if subsystemId in old(injectedFaults) then old(injectedFaults)[subsystemId] else []) + [faultCode]]
      ensures events == old(events) + [FaultInjected(subsystemId, faultCode)]
    {
      var list := if subsystemId in injectedFaults then injectedFaults[subsystemId] else [];
      injectedFaults := injectedFaults[subsystemId := list + [faultCode]];
      events := events + [FaultInjected(subsystemId, faultCode)];
    }

    /** clearInjectedFault: every occurrence of the code goes from that unit's list only. */
    method ClearInjectedFault(subsystemId: string, faultCode: string)
      modifies this`injectedFaults
      ensures subsystemId !in old(injectedFaults) ==> injectedFaults == old(injectedFaults)
      ensures subsystemId in old(injectedFaults) ==>
        injectedFaults == old(injectedFaults)[subsystemId := SubsystemManager.RemoveAll(old(injectedFaults)[subsystemId], faultCode)]
      ensures injectedFaults.Keys == old(injectedFaults).Keys
      ensures subsystemId in injectedFaults ==> faultCode !in injectedFaults[subsystemId]
    {
      if subsystemId in injectedFaults {
        SubsystemManager.RemoveAllSpec(injectedFaults[subsystemId], faultCode);
        injectedFaults := injectedFaults[subsystemId := SubsystemManager.RemoveAll(injectedFaults[subsystemId], faultCode)];
      }
    }

    method ClearAllInjectedFaults()
      modifies this`injectedFaults
      ensures injectedFaults == map[]
    {
      injectedFaults := map[];
    }

    /** loadNormalScenario: Normal, probability 0.001, and no injected faults. */
    method LoadNormalScenario()
      modifies this`scenario, this`faultProbability, this`injectedFaults, this`events
      ensures scenario == Normal && faultProbability == 0.001 && injectedFaults == map[]
      ensures events == old(events) + (if old(scenario) != Normal then [ScenarioChanged] else []) + [SettingsChanged]
    {
      SetScenario(Normal);
      SetFaultProbability(0.001);
      ClearAllInjectedFaults();
    }

    method LoadDegradedScenario()
      modifies this`scenario, this`faultProbability, this`events
      ensures scenario == Degraded && faultProbability == 0.05
      ensures events == old(events) + (if old(scenario) != Degraded then [ScenarioChanged] else []) + [SettingsChanged]
    {
      SetScenario(Degraded);
      SetFaultProbability(0.05);
    }

    method LoadFailureScenario()
      modifies this`scenario, this`faultProbability, this`events
      ensures scenario == PartialFailure && faultProbability == 0.1
      ensures events == old(events) + (if old(scenario) != PartialFailure then [ScenarioChanged] else []) + [SettingsChanged]
    {
      SetScenario(PartialFailure);
      SetFaultProbability(0.1);
    }

    method LoadStressTestScenario()
      modifies this`scenario, this`faultProbability, this`events
      ensures scenario == HighStress && faultProbability == 0.02
      ensures events == old(events) + (if old(scenario) != HighStress then [ScenarioChanged] else []) + [SettingsChanged]
    {
      SetScenario(HighStress);
      SetFaultProbability(0.02);
    }

    /** onUpdateTick (and step): the simulated clock advances by one interval and nothing else changes. */
    method OnUpdateTick()
      modifies this`simulationTime
      ensures simulationTime == old(simulationTime) + updateInterval
    {
      simulationTime := simulationTime + updateInterval;
    }
  }
}
