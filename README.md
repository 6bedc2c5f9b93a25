# Radar maintenance monitor: health and fault engine in Dafny

This project models the health and fault engine of a radar maintenance monitor. The engine watches ten units: transmitter, receiver, antenna servo, RF front-end, signal processor, data processor, power supply, cooling, timing/sync and network interface. It also models the deterministic parts of the simulator that feeds it.

Each unit keeps a table of telemetry parameters with warning and critical limits (`TelemetryData`). It decides its own health state, score and status message from that table and its active faults (`Subsystem`, `Policies` and one module per unit). It raises and clears its own fault codes by rules over each update (`FaultLog`, the units' `Rules`). It collapses bursts of updates into one health pass and one debounced notification per window (`Subsystem.RadarSubsystem`).

The system-wide parts are modelled as follows:

- **SubsystemManager** aggregates the enabled units on the canvas.
- **FaultManager** keeps the fault ledger: active faults per (unit, code), a bounded history, counts by severity and MTBF.
- **Pipeline** models the data pipeline: validation, sanitising, state, score and fault detection over raw telemetry maps, and a queue drained in batches.
- **Trends** fits a least-squares line to each parameter's series, classifies the trend, predicts values and threshold crossings, and flags z-score anomalies.
- **Uptime** accounts uptime, downtime and availability per unit and for the whole system.
- **Analytics** keeps fault records, MTBF and MTTR, statistics, the top faults and health history.

On the simulator side:

- **Injector** models the fault injector: immediate, delayed and auto-recovering faults, and predefined scenarios.
- **Simulator** is the run, pause and scenario state machine.
- **Generator** keeps the telemetry generator's parameters, trends and anomalies.

Qt's `QVariant` values are modelled as the `Values.Value` datatype. `QMap`s become Dafny `map`s. Timestamps are explicit `now` parameters in milliseconds. Emitted signals are appended to an `events` sequence or returned as such a sequence. Timers are flags or numbered ids. Objects whose fields the source updates in place are classes with `modifies` frames. Each class is specified by a `Contents()` function into a datatype. Pure functions over that datatype carry the properties as lemmas.

## Model

| member | source | states |
|---|---|---|
| Values.ToDouble | src/core/TelemetryData.cpp:61-62 | numbers convert to themselves, integers to their real value, a string to the decimal it spells, and a null or unparsable string to 0 |
| Values.ToBool | src/subsystems/AntennaServoSubsystem.cpp:112 | a boolean converts to itself and a missing value to false |
| Values.ToInt | src/subsystems/DataProcessorSubsystem.cpp:85 | an integer converts to itself and a missing value to 0 |
| Values.RoundHalfAway | src/subsystems/DataProcessorSubsystem.cpp:230-231 | the integer a real converts to lies within one half of it |
| Values.ToText | src/subsystems/NetworkInterfaceSubsystem.cpp:270 | a string converts to itself |
| Values.Lookup | src/subsystems/DataProcessorSubsystem.cpp:230-231 | reading a map at a missing key gives the invalid variant, otherwise the stored value |
| Values.ParseUnsigned | src/core/HealthDataPipeline.cpp:332-337 | a successful unsigned parse is non-negative and needs a nonempty string |
| Values.NaturalValueOfString | src/core/HealthDataPipeline.cpp:332-337 | the digits rendered for n denote n |
| Values.ParseNaturalString | src/core/HealthDataPipeline.cpp:332-337 | parsing the decimal rendering of a natural number gives that number back |
| Values.ParseNegatedNaturalString | src/core/HealthDataPipeline.cpp:332-337 | parsing "-" followed by the rendering of n gives -n |
| Values.SpecialSpellingsDoNotParse | src/core/HealthDataPipeline.cpp:273-277 | "NaN", "Infinity" and "-Infinity" are not plain decimals, so the string conversion fails on each |
| HealthStatus.HealthStateValue | include/core/HealthStatus.h:19-24 | the four states take the values 0 to 3, OK being 0 and UNKNOWN 3 |
| HealthStatus.SeverityValue | include/core/HealthStatus.h:29-34 | the four severities take the values 0 to 3, INFO being 0 and FATAL 3 |
| HealthStatus.EnumeratorOrder | include/core/HealthStatus.h:19-34 | INFO < WARNING < CRITICAL < FATAL under `>`, the order is asymmetric, and the values of both enumerations are injective |
| HealthStatus.DefaultFaultCode | include/core/HealthStatus.h:64 | a default fault is INFO, inactive, with empty fields and no timestamp |
| HealthStatus.NewFaultCode | include/core/HealthStatus.h:66-70 | the four-argument fault is always active, stamped now, and carries the given code, description, severity and unit |
| HealthStatus.DefaultSnapshot | include/core/HealthStatus.h:84-87 | a default snapshot is UNKNOWN with score 100, no faults, no telemetry and no message |
| HealthStatus.HealthStateNamesDistinct | include/core/HealthStatus.h:91-98 | the state names are "OK", "DEGRADED", "FAIL" and "UNKNOWN", and equal names mean equal states |
| HealthStatus.SeverityNamesDistinct | include/core/HealthStatus.h:100-108 | the severity names are "INFO", "WARNING", "CRITICAL" and "FATAL", and equal names mean equal severities |
| HealthStatus.SubsystemTypeNamesDistinct | include/core/HealthStatus.h:110-124 | the display names of the ten unit types are pairwise distinct |
| Bounded.KeepLast | src/core/RadarSubsystem.cpp:207-210 | trimming keeps exactly the newest min(size, cap) entries, in order, and leaves a list within the cap untouched |
| Bounded.QBound | src/simulator/TelemetryGenerator.cpp:251-257 | the bounded value is at least the lower bound, at most the upper one when they are ordered, and equals the value inside the range and the nearer bound outside it |
| Bounded.NewestFirst | src/core/RadarSubsystem.cpp:164-183 | the reverse walk returns min(size, max(0, maxCount)) entries, the i-th being the i-th newest |
| Bounded.NewestFirstDrawsFromHistory | src/core/RadarSubsystem.cpp:164-183 | every entry returned is in the history |
| FaultLog.IndexOfCode | src/core/RadarSubsystem.cpp:201-202 | the scan stops at the first fault with the code, or past the end when no fault has it |
| FaultLog.AllDeactivated | src/core/RadarSubsystem.cpp:229-232 | each cleared fault keeps its place and all its fields except that it is marked inactive |
| FaultLog.AddFaultEffect | src/core/RadarSubsystem.cpp:468-487 | addFault leaves the list alone when the code is already active and otherwise appends the fault and schedules one deferred health run; the code is active afterwards, codes stay unique, the history is untouched and no other code changes status |
| FaultLog.AddFaultValid | src/core/RadarSubsystem.cpp:468-479 | addFault keeps the active codes unique and the history within its cap |
| FaultLog.ClearFault | src/core/RadarSubsystem.cpp:197-222 | clearFault reports true exactly when the code was active; when it was not, nothing changes; when it was, one deferred health run is scheduled |
| FaultLog.ClearFaultEffect | src/core/RadarSubsystem.cpp:197-222 | after clearFault the code is no longer active, no other code changes status, the list shrinks by one when found, and the newest history entry is that fault marked inactive |
| FaultLog.ClearFaultValid | src/core/RadarSubsystem.cpp:205-210 | clearFault keeps the codes unique and the history within 1000 entries |
| FaultLog.ClearAllFaults | src/core/RadarSubsystem.cpp:224-249 | clearAllFaults returns the number of active faults, empties the active list and leaves min(old history + cleared, 1000) history entries |
| FaultLog.ClearAllFaultsHistory | src/core/RadarSubsystem.cpp:229-238 | the cleared faults are the newest history entries, in their order, each marked inactive |
| FaultLog.LastFor | src/core/RadarSubsystem.cpp:468-487 | the last call about a code is one of the calls made, and it does name that code |
| FaultLog.LastForConcat | src/core/RadarSubsystem.cpp:468-487 | in two runs of calls one after the other, the later run's last call about a code wins |
| FaultLog.ApplyDecides | src/core/RadarSubsystem.cpp:197-222 | after any run of addFault/clearFault calls the log is still valid, and a code is active exactly when the last call about it was an add; codes no call names keep their status |
| FaultLog.RuleAction | src/core/RadarSubsystem.cpp:462-466 | a threshold rule makes at most one call, and it names the rule's own code |
| FaultLog.LastForOtherRules | src/core/RadarSubsystem.cpp:462-466 | rules that do not name a code make no call about it |
| FaultLog.LastForRules | src/core/RadarSubsystem.cpp:462-466 | with one rule per code, the last call about a code is the call its own rule makes |
| FaultLog.LastForRule | src/core/RadarSubsystem.cpp:462-466 | one more rule changes the last call only for its own code, and only when its data key was supplied |
| FaultLog.RulesDecide | src/core/RadarSubsystem.cpp:462-487 | after running a unit's rules the log is valid, a code no rule names keeps its status, and a rule's code is active exactly when the rule raises it, or as before when its key was not supplied |
| FaultLog.RuleDecided | src/core/RadarSubsystem.cpp:462-487 | each rule decides its own code: raised iff its condition holds when its key was supplied, left as it was otherwise |
| FaultLog.RulesUntouched | src/core/RadarSubsystem.cpp:462-487 | running the rules keeps the log valid and leaves every code outside the rules' set unchanged |
| FaultLog.Flags | src/core/RadarSubsystem.cpp:392-402 | the loop's two flags are set exactly when some fault is CRITICAL or FATAL, and when some fault is WARNING |
| FaultLog.BaseHealthState | src/core/RadarSubsystem.cpp:385-411 | UNKNOWN iff disabled; FAIL iff enabled with a CRITICAL or FATAL fault; DEGRADED iff enabled with a WARNING fault and no severe one; OK iff enabled with INFO faults only |
| FaultLog.TotalPenalty | src/core/RadarSubsystem.cpp:418-433 | the summed penalty is between 5 and 50 per fault |
| FaultLog.BaseHealthScore | src/core/RadarSubsystem.cpp:413-436 | the base score is 100 less the penalties, floored at 0, lies in [0, 100], and is 100 exactly when there are no faults |
| FaultLog.PenaltyAppend | src/core/RadarSubsystem.cpp:418-433 | one more fault adds exactly its severity's penalty (5, 15, 30 or 50) |
| FaultLog.AddFaultNeverRaisesScore | src/core/RadarSubsystem.cpp:413-436 | an extra fault never raises the base score |
| FaultLog.WorstFault | src/core/RadarSubsystem.cpp:449-457 | the loop ends at a severity no fault exceeds; at INFO the message is "Active faults present", otherwise it is the description of the first fault of that severity |
| FaultLog.BaseStatusMessage | src/core/RadarSubsystem.cpp:438-460 | "Disabled" when disabled, "Operating normally" without faults, else the worst fault's message |
| FaultLog.InfoOnlyMessage | src/core/RadarSubsystem.cpp:449-459 | with INFO faults only, the message is "Active faults present" |
| Penalties.Interpolate | src/subsystems/TransmitterSubsystem.cpp:195 | the interpolated band penalty lies in [0, band) and is 0 exactly at the start of the band |
| Penalties.BandBound | src/subsystems/TransmitterSubsystem.cpp:195 | band·t/d stays below the band penalty inside the band and is 0 only at its start |
| Penalties.BandMonotone | src/subsystems/TransmitterSubsystem.cpp:195 | the interpolated penalty grows with the distance into the band |
| Penalties.High | src/subsystems/TransmitterSubsystem.cpp:191-196 | a high-is-bad penalty lies in [0, full], is full exactly at or past critical, 0 exactly at or below warning, and below the band penalty before critical |
| Penalties.HighMonotone | src/subsystems/TransmitterSubsystem.cpp:191-196 | a higher reading never gets a smaller high-is-bad penalty |
| Penalties.Low | src/subsystems/TransmitterSubsystem.cpp:207-212 | a low-is-bad penalty lies in [0, full], is full exactly at or below critical, 0 exactly at or above warning, and below the band penalty above critical |
| Penalties.LowAntitone | src/subsystems/TransmitterSubsystem.cpp:207-212 | a lower reading never gets a smaller low-is-bad penalty |
| Penalties.Clamp | src/subsystems/TransmitterSubsystem.cpp:217 | the clamped score lies in [0, 100], equals the score inside that range and the nearer end outside it |
| Penalties.FaultPenalty | src/subsystems/TransmitterSubsystem.cpp:215 | the fault penalty is non-negative and 0 exactly when no fault is active |
| Penalties.NotStartsWith | src/subsystems/NetworkInterfaceSubsystem.cpp:270 | a string whose first character differs from the prefix's does not start with it |
| Penalties.NotStartsWithAt | src/subsystems/NetworkInterfaceSubsystem.cpp:270 | a string that differs from the prefix at some position inside both does not start with it |
| TelemetryData.DefaultParameter | include/core/TelemetryData.h:30 | a default parameter is not valid and has no value |
| TelemetryData.NewParameter | include/core/TelemetryData.h:32-34 | the three-argument parameter is valid, named, stamped now, with no value and no thresholds |
| TelemetryData.ThresholdReport | src/core/TelemetryData.cpp:61-73 | setValue reports at most one threshold, in the order critical-low, critical-high, warning-low, warning-high, each by a strict comparison against a present threshold, and nothing for a value that does not convert |
| TelemetryData.ReportedThresholdIsBreached | src/core/TelemetryData.cpp:61-73 | whatever threshold is reported, the value is beyond it |
| TelemetryData.Assigned | src/core/TelemetryData.cpp:79-90 | setValues never adds or removes a parameter |
| TelemetryData.RevalidatedAll | src/core/TelemetryData.cpp:190-213 | validate never adds or removes a parameter |
| TelemetryData.AssignedStep | src/core/TelemetryData.cpp:81-87 | one more key of setValues updates the value and time of that parameter when registered, and nothing otherwise |
| TelemetryData.RevalidatedStep | src/core/TelemetryData.cpp:192-207 | one more parameter of validate has its validity recomputed and nothing else changes |
| TelemetryData.Store.constructor | src/core/TelemetryData.cpp:5-9 | a new registry is empty and stamped now |
| TelemetryData.Store.AddParameter | src/core/TelemetryData.cpp:11-16 | the parameter is stored under its name, replacing any earlier one, and the registry is stamped now |
| TelemetryData.Store.RemoveParameter | src/core/TelemetryData.cpp:18-23 | exactly that name leaves the registry and nothing else changes |
| TelemetryData.Store.GetValue | src/core/TelemetryData.cpp:40-46 | an unregistered name reads as the invalid variant |
| TelemetryData.Store.GetData | src/core/TelemetryData.cpp:167-174 | the snapshot has exactly the registered names, each with its current value |
| TelemetryData.Store.SetValue | src/core/TelemetryData.cpp:48-77 | an unregistered name changes nothing; a registered one changes only that parameter's value and time, stamps the registry, and appends the single threshold report, if any |
| TelemetryData.Store.SetValues | src/core/TelemetryData.cpp:79-90 | every registered key takes its new value and time, unknown keys are ignored, and the registry is stamped now |
| TelemetryData.Store.AssignOne | src/core/TelemetryData.cpp:82-86 | one key of setValues: a registered parameter takes the value and time; an unknown key changes nothing |
| TelemetryData.Store.Validate | src/core/TelemetryData.cpp:190-213 | every convertible parameter's validity becomes "within its limits", other parameters are untouched, and only validity notifications are appended |
| TelemetryData.Store.RevalidateOne | src/core/TelemetryData.cpp:193-211 | one parameter's validity is recomputed, with a notification exactly when it changed |
| TelemetryData.Store.InvalidParameters | src/core/TelemetryData.cpp:225-234 | the names returned are exactly those of the parameters marked invalid |
| TelemetryData.WarningExcludesCritical | src/core/TelemetryData.cpp:115-142 | a parameter in its warning band is never critical |
| TelemetryData.NonNumericIsQuiet | src/core/TelemetryData.cpp:92-165 | a value that does not convert is within limits and neither warning nor critical |
| TelemetryData.ValidatedMeansWithinLimits | src/core/TelemetryData.cpp:190-213 | after validate, a numeric parameter is valid iff it lies within its present bounds |
| TelemetryData.AllValidIffNoInvalid | src/core/TelemetryData.cpp:215-234 | isAllValid holds exactly when getInvalidParameters is empty |
| TelemetryData.AssignedIgnoresUnknown | src/core/TelemetryData.cpp:79-90 | setValues never registers a key it was not given a parameter for |
| Transmitter.State | src/subsystems/TransmitterSubsystem.cpp:138-184 | UNKNOWN iff disabled; FAIL iff temperature ≥ 80, VSWR ≥ 2.0, RF power ≤ 50 or HV ≤ 20; otherwise DEGRADED iff temperature ≥ 60, VSWR ≥ 1.5, RF power ≤ 80, HV ≤ 22.5 or a fault is active |
| Transmitter.Score | src/subsystems/TransmitterSubsystem.cpp:186-218 | the score lies in [0, 100], is full iff nothing is in a warning band and no fault is active, loses 40 at critical temperature and 30 at critical VSWR or RF power; HV does not enter it |
| Transmitter.ScoreFallsWithTemperature | src/subsystems/TransmitterSubsystem.cpp:190-196 | a hotter transmitter never scores higher |
| Transmitter.Status | src/subsystems/TransmitterSubsystem.cpp:220-260 | "Transmitter disabled" when disabled, and "HV off - Standby mode" when the high voltage is off |
| Transmitter.StatusAgreesWithState | src/subsystems/TransmitterSubsystem.cpp:220-260 | a CRITICAL message only accompanies FAIL and a WARNING message never accompanies OK |
| Transmitter.Rules | src/subsystems/TransmitterSubsystem.cpp:262-298 | three rules with distinct codes, each raising an active CRITICAL fault of the unit |
| Transmitter.OnDataUpdate | src/subsystems/TransmitterSubsystem.cpp:262-298 | after an update TX-003 is active iff the supplied VSWR ≥ 2.0, TX-004 iff the supplied temperature ≥ 80, TX-001 iff the supplied RF power ≤ 50 with HV on; a key not supplied leaves its code as it was, and no other code changes |
| Receiver.State | src/subsystems/ReceiverSubsystem.cpp:114-137 | UNKNOWN iff disabled; FAIL iff noise figure ≥ 6, gain ≤ 20 or temperature ≥ 70; otherwise DEGRADED iff noise figure ≥ 4, gain ≤ 25, temperature ≥ 55 or a fault is active |
| Receiver.Score | src/subsystems/ReceiverSubsystem.cpp:139-167 | the score lies in [0, 100], is full iff nothing is in a warning band and no fault is active, and loses at least 35 at critical noise figure or gain and 30 at critical temperature |
| Receiver.ScoreFallsWithGain | src/subsystems/ReceiverSubsystem.cpp:139-167 | lower gain never scores higher |
| Receiver.Status | src/subsystems/ReceiverSubsystem.cpp:169-196 | "Receiver disabled" when disabled; a critical noise figure is reported before a critical gain |
| Receiver.StatusAgreesWithState | src/subsystems/ReceiverSubsystem.cpp:169-196 | a CRITICAL message only accompanies FAIL and a WARNING message never accompanies OK |
| Receiver.Rules | src/subsystems/ReceiverSubsystem.cpp:198-229 | three rules with distinct codes, each raising an active CRITICAL fault of the unit |
| Receiver.OnDataUpdate | src/subsystems/ReceiverSubsystem.cpp:198-229 | RX-001, RX-002 and RX-006 are active iff the supplied noise figure ≥ 6, gain ≤ 20 and temperature ≥ 70; keys not supplied leave their code alone, and no other code changes |
| AntennaServo.State | src/subsystems/AntennaServoSubsystem.cpp:120-149 | UNKNOWN iff disabled; FAIL iff motor current ≥ 12, motor temperature ≥ 85 or position error ≥ 1.0; otherwise DEGRADED iff a warning threshold (8, 65, 0.5) is reached, a travel limit is reached or a fault is active |
| AntennaServo.Score | src/subsystems/AntennaServoSubsystem.cpp:151-183 | the score lies in [0, 100], is full iff nothing is in a warning band, no limit is reached and no fault is active; critical current costs at least 35 and a reached limit at least 10 |
| AntennaServo.Status | src/subsystems/AntennaServoSubsystem.cpp:185-215 | "Antenna servo disabled" when disabled |
| AntennaServo.StatusAgreesWithState | src/subsystems/AntennaServoSubsystem.cpp:185-215 | a CRITICAL message only accompanies FAIL and a WARNING message never accompanies OK |
| AntennaServo.Rules | src/subsystems/AntennaServoSubsystem.cpp:217-248 | three rules with distinct codes, each raising an active CRITICAL fault of the unit |
| AntennaServo.OnDataUpdate | src/subsystems/AntennaServoSubsystem.cpp:217-248 | ANT-001, ANT-002 and ANT-003 are active iff the supplied current ≥ 12, motor temperature ≥ 85 and position error ≥ 1.0; keys not supplied leave their code alone, and no other code changes |
| RFFrontEnd.State | src/subsystems/RFFrontEndSubsystem.cpp:118-140 | UNKNOWN iff disabled; FAIL iff phase lock ≤ 0.5, temperature ≥ 70 or the T/R switch is bad; otherwise DEGRADED iff phase lock ≤ 0.8, temperature ≥ 55 or a fault is active |
| RFFrontEnd.Score | src/subsystems/RFFrontEndSubsystem.cpp:142-167 | the score lies in [0, 100], is full iff nothing is in a warning band, the switch is good and no fault is active; a lost phase lock costs at least 40 and a bad switch at least 30 |
| RFFrontEnd.Status | src/subsystems/RFFrontEndSubsystem.cpp:169-194 | "RF Front-End disabled" when disabled |
| RFFrontEnd.StatusAgreesWithState | src/subsystems/RFFrontEndSubsystem.cpp:169-194 | a CRITICAL message only accompanies FAIL and a WARNING message never accompanies OK |
| RFFrontEnd.Rules | src/subsystems/RFFrontEndSubsystem.cpp:196-227 | three rules with distinct codes, each raising an active CRITICAL fault of the unit |
| RFFrontEnd.OnDataUpdate | src/subsystems/RFFrontEndSubsystem.cpp:196-227 | RF-001, RF-004 and RF-007 are active iff the supplied phase lock ≤ 0.5, the supplied switch flag is false, and the supplied temperature ≥ 70; keys not supplied leave their code alone, and no other code changes |
| SignalProcessor.State | src/subsystems/SignalProcessorSubsystem.cpp:120-146 | UNKNOWN iff disabled; FAIL iff CPU ≥ 95, memory ≥ 90, temperature ≥ 85, latency ≥ 50 or the FPGA is unhealthy; otherwise DEGRADED iff CPU ≥ 80, memory ≥ 75, temperature ≥ 70, latency ≥ 10 or a fault is active |
| SignalProcessor.Score | src/subsystems/SignalProcessorSubsystem.cpp:148-187 | the score lies in [0, 100], is full iff nothing is in a warning band, the FPGA is healthy and no fault is active; an FPGA error costs at least 30 |
| SignalProcessor.Status | src/subsystems/SignalProcessorSubsystem.cpp:189-218 | "Signal Processor disabled" when disabled, and "CRITICAL: FPGA error" first when the FPGA is unhealthy |
| SignalProcessor.StatusAgreesWithState | src/subsystems/SignalProcessorSubsystem.cpp:189-218 | a CRITICAL message only accompanies FAIL and a WARNING message never accompanies OK |
| SignalProcessor.Rules | src/subsystems/SignalProcessorSubsystem.cpp:220-251 | three rules with distinct codes; CPU and memory raise CRITICAL faults and an unhealthy FPGA a FATAL one |
| SignalProcessor.OnDataUpdate | src/subsystems/SignalProcessorSubsystem.cpp:220-251 | SP-001, SP-002 and SP-003 are active iff the supplied CPU ≥ 95, memory ≥ 90, and the supplied FPGA flag is false; keys not supplied leave their code alone, and no other code changes |
| DataProcessor.Capacity | src/subsystems/DataProcessorSubsystem.cpp:122 | the track load is active/max·100, and with max = 0 it is +∞ for a positive count and NaN for zero |
| DataProcessor.CapacityPenalty | src/subsystems/DataProcessorSubsystem.cpp:166-171 | the load penalty lies in [0, 20], is 20 exactly at load ≥ 95 and 0 exactly below 80 (or at 80, or on NaN) |
| DataProcessor.State | src/subsystems/DataProcessorSubsystem.cpp:113-139 | UNKNOWN iff disabled; FAIL iff CPU ≥ 90, memory ≥ 85, latency ≥ 500 or load ≥ 95; otherwise DEGRADED iff CPU ≥ 75, memory ≥ 70, latency ≥ 100, load ≥ 80 or a fault is active |
| DataProcessor.ZeroMaxTracks | src/subsystems/DataProcessorSubsystem.cpp:122-130 | with no track limit a positive track count fails the unit, and zero tracks never count as loaded |
| DataProcessor.Score | src/subsystems/DataProcessorSubsystem.cpp:141-176 | the score lies in [0, 100], is full iff nothing is in a warning band and no fault is active, and a critical load costs at least 20 |
| DataProcessor.Status | src/subsystems/DataProcessorSubsystem.cpp:178-205 | "Data Processor disabled" when disabled |
| DataProcessor.StatusAgreesWithState | src/subsystems/DataProcessorSubsystem.cpp:178-205 | a CRITICAL message only accompanies FAIL and a WARNING message never accompanies OK |
| DataProcessor.Rules | src/subsystems/DataProcessorSubsystem.cpp:207-239 | three rules with distinct codes, each raising an active CRITICAL fault of the unit |
| DataProcessor.OnDataUpdate | src/subsystems/DataProcessorSubsystem.cpp:207-239 | DP-001 and DP-002 are active iff the supplied CPU ≥ 90 and memory ≥ 85; DP-003 needs both track counts supplied and is active iff the maximum is positive and the load ≥ 95; no other code changes |
| PowerSupply.State | src/subsystems/PowerSupplySubsystem.cpp:145-174 | UNKNOWN iff disabled; FAIL iff input ≤ 180 or ≥ 270, temperature ≥ 65, or on battery at ≤ 10 %; otherwise DEGRADED iff input ≤ 200 or ≥ 250, temperature ≥ 50, on battery at all, or a fault is active |
| PowerSupply.InputPenalty | src/subsystems/PowerSupplySubsystem.cpp:180-187 | the input-voltage penalty lies in [0, 35], is 35 exactly outside (180, 270) and 0 exactly inside [200, 250] |
| PowerSupply.BatteryPenalty | src/subsystems/PowerSupplySubsystem.cpp:196-204 | no battery penalty off battery; on battery between 10 and 35, reaching 35 exactly at ≤ 10 % charge |
| PowerSupply.Score | src/subsystems/PowerSupplySubsystem.cpp:176-209 | the score lies in [0, 100], is full iff the input is in [200, 250], temperature ≤ 50, mains power and no faults; a critical input costs at least 35 and battery operation at least 10 |
| PowerSupply.Status | src/subsystems/PowerSupplySubsystem.cpp:211-243 | "Power Supply disabled" when disabled; on battery with a sane input the message reports the charge, critical at ≤ 10 % |
| PowerSupply.StatusAgreesWithState | src/subsystems/PowerSupplySubsystem.cpp:211-243 | a CRITICAL message only accompanies FAIL and a WARNING message never accompanies OK |
| PowerSupply.Rules | src/subsystems/PowerSupplySubsystem.cpp:245-283 | four rules with distinct codes, each raising an active CRITICAL fault of the unit |
| PowerSupply.OnDataUpdate | src/subsystems/PowerSupplySubsystem.cpp:245-283 | PSU-001 iff the supplied input ≤ 180, PSU-002 iff ≥ 270, PSU-006 iff the supplied temperature ≥ 65, PSU-007 iff both battery keys are supplied and it runs on battery at ≤ 10 %; no other code changes |
| PowerSupply.BrownOutScenario | src/subsystems/PowerSupplySubsystem.cpp:245-283 | a 170 V reading raises PSU-001 alone, and a later 220 V reading clears it |
| Cooling.FlowScalesAgree | src/subsystems/CoolingSubsystem.cpp:125-188 | comparing the flow as a percentage of 20 L/min and comparing it in L/min against 0.2 times the thresholds agree |
| Cooling.State | src/subsystems/CoolingSubsystem.cpp:125-151 | UNKNOWN iff disabled; FAIL iff coolant ≥ 55, flow ≤ 10, ambient ≥ 50 or efficiency ≤ 50; otherwise DEGRADED iff coolant ≥ 45, flow ≤ 14, ambient ≥ 40, efficiency ≤ 70 or a fault is active |
| Cooling.Score | src/subsystems/CoolingSubsystem.cpp:153-188 | the score lies in [0, 100], is full iff nothing is in a warning band and no fault is active; critical coolant temperature costs at least 35 and critical flow at least 30 |
| Cooling.Status | src/subsystems/CoolingSubsystem.cpp:190-218 | "Cooling System disabled" when disabled; low flow is reported when the coolant is not critical |
| Cooling.StatusAgreesWithState | src/subsystems/CoolingSubsystem.cpp:190-218 | a CRITICAL message only accompanies FAIL and a WARNING message never accompanies OK |
| Cooling.Rules | src/subsystems/CoolingSubsystem.cpp:220-252 | three rules with distinct codes; coolant and flow raise CRITICAL faults and low efficiency a WARNING one |
| Cooling.OnDataUpdate | src/subsystems/CoolingSubsystem.cpp:220-252 | COOL-001, COOL-002 and COOL-006 are active iff the supplied coolant ≥ 55, flow ≤ 10 and efficiency ≤ 50; keys not supplied leave their code alone, and no other code changes |
| TimingSync.State | src/subsystems/TimingSyncSubsystem.cpp:136-163 | UNKNOWN iff disabled; FAIL iff GPS unlocked, fewer than 4 satellites, accuracy ≥ 1000, stability ≥ 100, temperature ≥ 60 or PPS invalid; otherwise DEGRADED iff fewer than 6 satellites, accuracy ≥ 100, stability ≥ 10, temperature ≥ 50 or a fault is active |
| TimingSync.SatellitePenalty | src/subsystems/TimingSyncSubsystem.cpp:173-178 | the satellite penalty is 25 below four, 12 at four, 6 at five and 0 from six, in integer arithmetic |
| TimingSync.Score | src/subsystems/TimingSyncSubsystem.cpp:165-201 | the score lies in [0, 100] and is full iff locked, PPS valid, at least six satellites, accuracy ≤ 100, stability ≤ 10 and no fault; temperature does not enter it |
| TimingSync.HotButFullScore | src/subsystems/TimingSyncSubsystem.cpp:136-201 | an over-temperature unit fails while keeping a full score |
| TimingSync.Status | src/subsystems/TimingSyncSubsystem.cpp:203-235 | "Timing System disabled" when disabled and "CRITICAL: GPS unlocked" first when unlocked |
| TimingSync.StatusAgreesWithState | src/subsystems/TimingSyncSubsystem.cpp:203-235 | a CRITICAL message only accompanies FAIL and a WARNING message never accompanies OK |
| TimingSync.Rules | src/subsystems/TimingSyncSubsystem.cpp:237-278 | four rules with distinct codes; GPS and PPS raise CRITICAL faults, satellites and stability WARNING ones |
| TimingSync.OnDataUpdate | src/subsystems/TimingSyncSubsystem.cpp:237-278 | TIME-001 iff the supplied GPS flag is false, TIME-002 iff fewer than 4 satellites are supplied, TIME-003 iff the supplied stability ≥ 100, TIME-004 iff the supplied PPS flag is false; no other code changes |
| NetworkInterface.State | src/subsystems/NetworkInterfaceSubsystem.cpp:135-168 | UNKNOWN iff disabled; FAIL iff the link is down, loss ≥ 1, latency ≥ 200 or utilisation ≥ 95; otherwise DEGRADED iff loss ≥ 0.1, latency ≥ 50, utilisation ≥ 80, status "DEGRADED" or a fault is active |
| NetworkInterface.Score | src/subsystems/NetworkInterfaceSubsystem.cpp:170-202 | the score lies in [0, 100], is 0 outright with the link down, full iff the link is up with nothing in a warning band and no fault, and a critical packet loss costs at least 35 |
| NetworkInterface.Status | src/subsystems/NetworkInterfaceSubsystem.cpp:204-235 | "Network Interface disabled" when disabled and "CRITICAL: Link down" first with the link down |
| NetworkInterface.StatusAgreesWithState | src/subsystems/NetworkInterfaceSubsystem.cpp:204-235 | a CRITICAL message only accompanies FAIL and a WARNING message never accompanies OK |
| NetworkInterface.Rules | src/subsystems/NetworkInterfaceSubsystem.cpp:237-278 | four rules with distinct codes; link, loss and C2 raise CRITICAL faults and latency a WARNING one |
| NetworkInterface.OnDataUpdate | src/subsystems/NetworkInterfaceSubsystem.cpp:237-278 | NET-001 iff the supplied link flag is false, NET-002 iff loss ≥ 1, NET-003 iff latency ≥ 200, NET-005 iff the supplied status is "DISCONNECTED"; no other code changes |
| Policies.PolicyRules | src/core/RadarSubsystem.cpp:462-466 | every unit's rules name distinct codes and raise active faults of that unit only; the base class has none |
| Policies.PolicyBounds | src/core/RadarSubsystem.cpp:385-436 | every policy is UNKNOWN exactly when disabled and scores within [0, 100] |
| Policies.FaultsNeverFailAUnit | src/subsystems/PowerSupplySubsystem.cpp:169-171 | in the ten units active faults decide DEGRADED but never FAIL: FAIL comes from telemetry alone, and faults turn OK into DEGRADED |
| Policies.BaseFailsOnSevereFault | src/core/RadarSubsystem.cpp:395-405 | under the base class one CRITICAL or FATAL fault makes an enabled unit FAIL |
| Policies.DataUpdateDecides | src/core/RadarSubsystem.cpp:296-299 | an update keeps the fault list valid, leaves codes no rule names alone and decides each named code by its rule |
| Subsystem.ApplyPrefix | src/core/RadarSubsystem.cpp:468-487 | each further addFault/clearFault call extends the fault list and the signal trace by exactly its own step |
| Subsystem.LastRegistration | src/core/TelemetryData.cpp:11-16 | the last registration under a name is one of the registered parameters and has that name; none means no parameter has it |
| Subsystem.RegisteredLookup | src/core/TelemetryData.cpp:11-16 | registering a unit's parameters overwrites each name with its last registered parameter and leaves every other name as it was |
| Subsystem.Trimmed | src/core/RadarSubsystem.cpp:236-238 | the removeFirst loop leaves the newest cap entries of the history |
| Subsystem.MoveToHistory | src/core/RadarSubsystem.cpp:229-232 | the loop appends every active fault to the history as inactive, in order |
| Subsystem.RadarSubsystem.TelemetryValue | src/core/RadarSubsystem.cpp:131-134 | a registered name reads its current value and an unregistered one the invalid variant |
| Subsystem.RadarSubsystem.constructor | src/core/RadarSubsystem.cpp:8-52 | a new unit is enabled, UNKNOWN, scores 100, has no faults, no pending work and no timers, and its parameters registered in a fresh store |
| Subsystem.RadarSubsystem.TrimHistory | src/core/RadarSubsystem.cpp:207-210 | the history keeps its newest 1000 entries |
| Subsystem.RadarSubsystem.AddFault | src/core/RadarSubsystem.cpp:468-487 | the fault list becomes the addFault value of the old one, with faultOccurred and faultsChanged emitted only for a new code |
| Subsystem.RadarSubsystem.ClearFault | src/core/RadarSubsystem.cpp:197-222 | returns whether the code was active; the fault list becomes the clearFault value, with faultCleared and faultsChanged emitted only when found |
| Subsystem.RadarSubsystem.ClearAllFaults | src/core/RadarSubsystem.cpp:224-249 | returns the old active count, the fault list becomes the clearAllFaults value, and faultsChanged is emitted only when something was cleared |
| Subsystem.RadarSubsystem.UpdateFault | src/core/RadarSubsystem.cpp:494-507 | activating changes nothing; deactivating is clearFault |
| Subsystem.RadarSubsystem.ApplyAction | src/core/RadarSubsystem.cpp:468-487 | one call moves the fault list and the signal trace by one step |
| Subsystem.RadarSubsystem.ApplyActions | src/core/RadarSubsystem.cpp:462-487 | an update's calls, in order, leave the fault list and the signal trace of the whole run |
| Subsystem.RadarSubsystem.GetFaultHistory | src/core/RadarSubsystem.cpp:164-183 | returns at most maxCount entries of the history, newest first |
| Subsystem.RadarSubsystem.SetEnabled | src/core/RadarSubsystem.cpp:257-269 | the same value changes nothing; a new one is stored, announced with enabledChanged and defers one recomputation |
| Subsystem.RadarSubsystem.Reset | src/core/RadarSubsystem.cpp:271-287 | no active faults, UNKNOWN, score 100, an empty message, the parameters registered again, the history and the deferred runs untouched, and healthChanged, faultsChanged and telemetryChanged emitted in that order |
| Subsystem.RadarSubsystem.Recompute | src/core/RadarSubsystem.cpp:330-336 | returns the old state and score and leaves the cached verdict equal to the policy's state, score and message for the current unit |
| Subsystem.RadarSubsystem.NotifyHealth | src/core/RadarSubsystem.cpp:348-362 | healthChanged is sent and stamped when 50 ms have passed since the last one; otherwise it is left pending on the armed timer |
| Subsystem.RadarSubsystem.NotifyTelemetry | src/core/RadarSubsystem.cpp:301-313 | telemetryChanged is debounced the same way on the same timer |
| Subsystem.RadarSubsystem.ProcessHealthData | src/core/RadarSubsystem.cpp:318-373 | a call during a pass only marks the request pending and changes nothing else; otherwise one full pass runs |
| Subsystem.RadarSubsystem.MarkPending | src/core/RadarSubsystem.cpp:321-324 | the guard branch sets the pending flag |
| Subsystem.RunLocksAppend | src/core/RadarSubsystem.cpp:328-338 | the mutex run over two stretches of operations is the run of the second from where the first left it |
| Subsystem.AccessorCallsLocks | src/core/RadarSubsystem.cpp:251-255 | isEnabled(), hasFaults() and getFaultCount() leave a free m_mutex free and never return when the calling thread already holds it |
| Subsystem.PassAsWrittenBlocks | src/core/RadarSubsystem.cpp:328-338 | the pass as written never finishes for any unit's policy, since the first isEnabled() locks the mutex the pass already holds; only the base implementation gets through and leaves the mutex free |
| Subsystem.PassIntendedReleases | src/core/RadarSubsystem.cpp:328-338 | the pass with the compute calls outside the lock finishes for every policy and leaves the mutex free |
| Subsystem.RadarSubsystem.HealthPass | src/core/RadarSubsystem.cpp:326-372 | after a pass the verdict is current, the guard and pending flag are clear, stateTransition is emitted iff the state changed, healthChanged is sent or left pending iff the state changed or the score moved by more than 0.1, and a request that arrived meanwhile is deferred exactly once |
| Subsystem.RadarSubsystem.Conclude | src/core/RadarSubsystem.cpp:340-372 | the rest of a pass: the announcements, the debounced notification, the guard released and the pending request deferred once |
| Subsystem.RadarSubsystem.Announce | src/core/RadarSubsystem.cpp:343-346 | stateTransition carries the old and new state names and is emitted iff the state changed; a listener calling back only marks the request pending |
| Subsystem.RadarSubsystem.RunQueued | src/core/RadarSubsystem.cpp:367-372 | a deferred run consumes itself, leaves the verdict current and the pass finished, and defers at most one further run |
| Subsystem.RadarSubsystem.DebounceTimeout | src/core/RadarSubsystem.cpp:37-49 | when the timer fires the pending notifications go out, health first, each stamped now, and nothing stays pending |
| Subsystem.RadarSubsystem.StoreAndCheck | src/core/RadarSubsystem.cpp:298-299 | the values are stored, the unit's fault rules run against the updated store, and their faultOccurred, faultCleared and faultsChanged signals are emitted in call order |
| Subsystem.RadarSubsystem.NotifyAndPass | src/core/RadarSubsystem.cpp:301-315 | telemetryChanged goes out at once after 50 ms or is left pending on the armed timer, then one full health pass follows |
| Subsystem.RadarSubsystem.UpdateData | src/core/RadarSubsystem.cpp:296-316 | the registered values are updated; the fault list and its signals are those of the unit's rules on the new data; then the debounced telemetryChanged; then one pass with its stateTransition, debounced healthChanged and deferred rerun, leaving the verdict current and no pass running |
| FaultManager.JoinedKeysCollide | src/core/FaultManager.cpp:305-308 | the colon-joined key maps two different (unit, code) pairs to one string |
| FaultManager.JoinedKeyLayout | src/core/FaultManager.cpp:305-308 | the joined key is the unit id, a colon, then the code |
| FaultManager.JoinedKeyInjective | src/core/FaultManager.cpp:305-308 | the joined key identifies the pair whenever unit ids hold no colon |
| FaultManager.JoinedSameCode | src/core/FaultManager.cpp:305-308 | two different keys with the same code never share a joined key, so the first match in key order is well defined |
| FaultManager.RegisterEffect | src/core/FaultManager.cpp:10-37 | registering keeps every fault under its own key and the history bounded, is idempotent, emits nothing for a known key, and for a new one records it, appends it to the history and adds one to the unit's count |
| FaultManager.RegisterFrame | src/core/FaultManager.cpp:10-37 | registering touches no other key and no other unit's count |
| FaultManager.CriticalSignalOnlyForSevere | src/core/FaultManager.cpp:33-36 | criticalFaultOccurred is emitted iff a new key is registered with severity CRITICAL or FATAL |
| FaultManager.ClearOnlyThatKey | src/core/FaultManager.cpp:39-47 | clearFault removes that key and nothing else, keeps the history and the counts, and changes nothing when the key is absent |
| FaultManager.ClearUnitExact | src/core/FaultManager.cpp:49-67 | clearAllFaults(id) leaves exactly the other units' faults, unchanged |
| FaultManager.ClearedSignalsSnoc | src/core/FaultManager.cpp:59-62 | one more removed key adds exactly its faultCleared |
| FaultManager.WithoutStep | src/core/FaultManager.cpp:59-62 | taking the next listed key out of the map keeps the map equal to the original minus the keys taken so far |
| FaultManager.StampSpan | src/core/FaultManager.cpp:254-265 | a span exists iff the history holds an entry of the unit; its ends are the least and the greatest of that unit's timestamps, each attained |
| FaultManager.MTBFSign | src/core/FaultManager.cpp:242-277 | the estimate is -1 or positive, and positive exactly when the unit has at least two counted faults and a logged span of positive length |
| FaultManager.NewestFirstOf | src/core/FaultManager.cpp:113-124 | at most maxCount entries, each of that unit and drawn from the history |
| FaultManager.NewestFirstOfStep | src/core/FaultManager.cpp:117-121 | one more history entry puts itself in front when it belongs to the unit and there is room, and otherwise changes nothing |
| FaultManager.NewestFirstOfComplete | src/core/FaultManager.cpp:113-124 | when fewer than maxCount come back, every history entry of the unit is among them |
| FaultManager.SeverityCountsPartition | src/core/FaultManager.cpp:151-172 | the critical, warning and info counts add up to the number of active faults |
| FaultManager.NewestAlong | src/core/FaultManager.cpp:113-124 | the backwards loop returns the newest-first entries of the unit up to maxCount |
| FaultManager.SpanAlong | src/core/FaultManager.cpp:254-265 | the forward loop finds the unit's earliest and latest timestamps |
| FaultManager.FaultLedger.constructor | src/core/FaultManager.cpp:5-8 | a new manager has no faults, no history, no counts and has emitted nothing |
| FaultManager.FaultLedger.TrimHistory | src/core/FaultManager.cpp:25-28 | the history keeps its newest 10000 entries |
| FaultManager.FaultLedger.RegisterFault | src/core/FaultManager.cpp:10-37 | the ledger becomes the registration value of the old one and the signals are faultRegistered and faultsChanged, then criticalFaultOccurred for a severe fault, all only for a new key |
| FaultManager.FaultLedger.ClearFault | src/core/FaultManager.cpp:39-47 | the key is removed; faultCleared and faultsChanged are emitted iff it was present |
| FaultManager.FaultLedger.AnnounceCleared | src/core/FaultManager.cpp:61 | one faultCleared for the given record |
| FaultManager.FaultLedger.ListKeys | src/core/FaultManager.cpp:51-57 | the collected keys list the set, each once |
| FaultManager.FaultLedger.TakeAll | src/core/FaultManager.cpp:59-62 | every listed key is taken out, announcing each in list order, and the rest of the map is unchanged |
| FaultManager.FaultLedger.ClearAllFaultsOf | src/core/FaultManager.cpp:49-67 | the unit's faults are gone and no other, one faultCleared per removed key, then faultsChanged iff any was removed |
| FaultManager.FaultLedger.AnnounceAll | src/core/FaultManager.cpp:74-76 | one faultCleared per active fault |
| FaultManager.FaultLedger.ClearAllFaults | src/core/FaultManager.cpp:69-81 | no active fault remains, one faultCleared per old key, then faultsChanged iff there was any |
| FaultManager.FaultLedger.ActiveFaults | src/core/FaultManager.cpp:83-86 | exactly the records stored in the active map |
| FaultManager.FaultLedger.ActiveFaultsOf | src/core/FaultManager.cpp:88-99 | exactly the active records of that unit |
| FaultManager.FaultLedger.GetFaultHistory | src/core/FaultManager.cpp:101-111 | at most maxCount history entries, newest first |
| FaultManager.FaultLedger.GetFaultHistoryOf | src/core/FaultManager.cpp:113-124 | at most maxCount history entries of the unit, newest first |
| FaultManager.FaultLedger.HasFault | src/core/FaultManager.cpp:126-134 | true iff some active fault of any unit has the code |
| FaultManager.FaultLedger.GetFault | src/core/FaultManager.cpp:136-144 | the first active record with the code in the order of the joined keys when there is one, else the default record |
| FaultManager.FaultLedger.TotalActiveFaults | src/core/FaultManager.cpp:146-149 | the number of active keys |
| FaultManager.FaultLedger.CountMatching | src/core/FaultManager.cpp:151-183 | the number of active faults that are severe, of the severity, or of the unit |
| FaultManager.FaultLedger.EstimateMTBF | src/core/FaultManager.cpp:242-277 | the estimate for the unit, which is -1 or positive |
| FaultManager.FaultLedger.SpanOf | src/core/FaultManager.cpp:254-265 | the unit's first and last timestamps in the history |
| FaultManager.FaultLedger.GetMTBFReport | src/core/FaultManager.cpp:279-291 | exactly the counted units with a positive estimate, each with its estimate |
| FaultManager.FaultLedger.OnSubsystemFault | src/core/FaultManager.cpp:293-298 | registers the fault under the reporting unit's id, with the signals registerFault emits for it: none for a key already active, else faultRegistered, faultsChanged and, for a severe fault, criticalFaultOccurred |
| FaultManager.FaultLedger.OnSubsystemFaultCleared | src/core/FaultManager.cpp:300-303 | clears that unit's code; faultCleared and faultsChanged are emitted iff that code was active for the unit |
| SubsystemManager.RemoveAll | src/core/SubsystemManager.cpp:48 | removeAll never lengthens the canvas list |
| SubsystemManager.RemoveAllSpec | src/core/SubsystemManager.cpp:101-107 | removeAll keeps exactly the other ids, is the identity when the id is absent, shortens the list when present, and on a list without duplicates removes exactly one entry |
| SubsystemManager.EnabledOnCanvasMembers | src/core/SubsystemManager.cpp:375-381 | the statuses the loop counts are exactly those of the registered, enabled units on the canvas |
| SubsystemManager.AnyInIff | src/core/SubsystemManager.cpp:386-395 | the FAIL and DEGRADED flags are set iff some counted unit is in that state |
| SubsystemManager.AggregateStateMeaning | src/core/SubsystemManager.cpp:363-415 | the system state is FAIL iff an enabled canvas unit fails, else DEGRADED iff one is degraded, else OK iff some canvas unit is enabled, else UNKNOWN, each in both directions |
| SubsystemManager.SumScoresBounds | src/core/SubsystemManager.cpp:384-385 | the running total stays between 0 and 100 per counted unit |
| SubsystemManager.MeanScoreBounds | src/core/SubsystemManager.cpp:410-412 | the system score lies in [0, 100] whenever each unit's does, 100 when nothing is counted |
| SubsystemManager.CountsWithinCanvas | src/core/SubsystemManager.cpp:239-276 | the healthy, degraded and failed counts add up to at most the canvas length |
| SubsystemManager.Accumulate | src/core/SubsystemManager.cpp:370-397 | the loop's total, flags and enabled count are those of the enabled canvas units |
| SubsystemManager.Manager.constructor | src/core/SubsystemManager.cpp:5-15 | a new manager is UNKNOWN with score 100, a 1000 ms interval, no units, an empty canvas and an empty fault ledger |
| SubsystemManager.Manager.ComputeSystemHealth | src/core/SubsystemManager.cpp:363-415 | the system state and score become the aggregate of the canvas units' last announced statuses (UNKNOWN and 100 for an empty canvas), announced once |
| SubsystemManager.Manager.RegisterSubsystem | src/core/SubsystemManager.cpp:22-39 | a missing unit or a known id changes nothing; a new one is added under its id, announced, and the system health recomputed |
| SubsystemManager.Manager.UnregisterSubsystem | src/core/SubsystemManager.cpp:41-63 | an unknown id changes nothing; a known one leaves the registry and the canvas, its faults leave the ledger, and the three notifications follow |
| SubsystemManager.Manager.AddToCanvas | src/core/SubsystemManager.cpp:88-99 | only a registered id not yet on the canvas is appended and announced |
| SubsystemManager.Manager.RemoveFromCanvas | src/core/SubsystemManager.cpp:101-107 | every occurrence leaves the canvas, announced only when there was one |
| SubsystemManager.Manager.CountInState | src/core/SubsystemManager.cpp:239-276 | the number of registered canvas entries in that state |
| SubsystemManager.Manager.OnSubsystemHealthChanged | src/core/SubsystemManager.cpp:325-332 | the sender's status is taken in, subsystemHealthChanged is emitted for any sender, and the system health is recomputed |
| SubsystemManager.Manager.OnSubsystemFaultOccurred | src/core/SubsystemManager.cpp:334-349 | a sender's fault is registered in the ledger with WARNING severity, the ledger emits registerFault's signals for it, and the manager announces it; without a sender neither the ledger nor its signals change |
| SubsystemManager.Manager.OnSubsystemFaultCleared | src/core/SubsystemManager.cpp:357-360 | the unit's code is cleared from the ledger, which emits faultCleared and faultsChanged iff that code was active for the unit |
| KeyOrder.Ordered | src/simulator/FaultInjector.cpp:162-165 | the keys in visiting order: as many as the set holds and exactly its members |
| KeyOrder.OrderedSpec | src/simulator/FaultInjector.cpp:162-165 | the visiting order is strictly ascending |
| KeyOrder.DistinctKeys | src/simulator/FaultInjector.cpp:162-165 | no key is visited twice |
| KeyOrder.LeastOf | src/simulator/FaultInjector.cpp:162-165 | one pass finds the least key |
| KeyOrder.SortedKeys | src/simulator/FaultInjector.cpp:162-165 | the loop lists the keys in ascending order |
| Pipeline.SanitizeSpec | src/core/HealthDataPipeline.cpp:324-344 | sanitizing keeps the keys and every non-string value, turns exactly the numeric strings into numbers, is idempotent and keeps a payload free of rejected spellings |
| Pipeline.ValidatedSpec | src/core/HealthDataPipeline.cpp:86-119 | a payload is valid iff its required fields are present and no string is "NaN", "Infinity" or "-Infinity"; a valid one comes back sanitized and an invalid one unchanged; no warning is ever kept |
| Pipeline.AnyAlongIff | src/core/HealthDataPipeline.cpp:351-379 | the loop's flag is set iff some visited parameter is at that level |
| Pipeline.Clamp | src/core/HealthDataPipeline.cpp:434 | the result lies in [0, 100] and is the input when that already does |
| Pipeline.SideBounds | src/core/HealthDataPipeline.cpp:405-429 | each side deducts nothing or more than 10 and at most 30, exactly 30 beyond critical when both of its thresholds are set, and nothing for a normal value |
| Pipeline.RatioBound | src/core/HealthDataPipeline.cpp:413 | the band ratio lies in (0, 1] |
| Pipeline.DeductionsNonNegative | src/core/HealthDataPipeline.cpp:393-432 | the summed deductions are never negative |
| Pipeline.DeductionsCover | src/core/HealthDataPipeline.cpp:393-432 | every visited parameter's deduction is part of the total |
| Pipeline.NormalDeductsNothing | src/core/HealthDataPipeline.cpp:393-432 | with every parameter normal nothing is deducted |
| Pipeline.ScoreMeaning | src/core/HealthDataPipeline.cpp:389-435 | the score lies in [0, 100], an OK payload scores 100, and a critical high breach with both high thresholds set scores at most 70 |
| Pipeline.Upper | src/core/HealthDataPipeline.cpp:454 | upper-casing keeps the length |
| Pipeline.ParamFaultsSpec | src/core/HealthDataPipeline.cpp:451-477 | one parameter yields exactly the faults of its own critical breaches, at most two |
| Pipeline.FaultsAlongSpec | src/core/HealthDataPipeline.cpp:443-478 | the faults of the visited parameters are exactly those explained by one of their breaches, at most two each |
| Pipeline.DetectedFaultsSpec | src/core/HealthDataPipeline.cpp:437-481 | a fault is detected iff some parameter breaches a critical threshold; each is an active CRITICAL fault of the unit stamped now; a non-critical parameter yields none |
| Pipeline.ProcessedSpec | src/core/HealthDataPipeline.cpp:121-153 | processing never yields UNKNOWN, the score lies in [0, 100], the telemetry passes through, FAIL iff some parameter is critical, and OK scores 100 |
| Pipeline.FaultSignals | src/core/HealthDataPipeline.cpp:239-241 | one faultDetected per detected fault |
| Pipeline.DrainStep | src/core/HealthDataPipeline.cpp:208-252 | one loop iteration: the front item is taken, an invalid one counts as an error without using the budget, a valid one uses one unit of it |
| Pipeline.DrainSpec | src/core/HealthDataPipeline.cpp:203-256 | a tick handles at most 10 valid items, stops early only on an empty queue, and accounts for every item taken exactly once |
| Pipeline.DrainTakesFront | src/core/HealthDataPipeline.cpp:211-216 | what a tick leaves is a suffix of the queue |
| Pipeline.ValidateRequired | src/core/HealthDataPipeline.cpp:306-322 | true iff the schema has no required list or every listed field is present |
| Pipeline.CheckTypes | src/core/HealthDataPipeline.cpp:264-279 | true iff no visited value is a rejected spelling |
| Pipeline.ValidateDataTypes | src/core/HealthDataPipeline.cpp:258-282 | true iff no value is a rejected spelling |
| Pipeline.SanitizeEach | src/core/HealthDataPipeline.cpp:328-341 | each visited key is sanitized into the result and nothing else is |
| Pipeline.SanitizeData | src/core/HealthDataPipeline.cpp:324-344 | the sanitized payload |
| Pipeline.ValidateData | src/core/HealthDataPipeline.cpp:86-119 | the validation result: the first failing check's error, else the sanitized payload |
| Pipeline.Classify | src/core/HealthDataPipeline.cpp:360-375 | the else-if chain picks critical high, critical low, warning high, warning low, in that order |
| Pipeline.ScanLevels | src/core/HealthDataPipeline.cpp:351-379 | the two flags say whether some visited parameter is critical or warning |
| Pipeline.ComputeHealthState | src/core/HealthDataPipeline.cpp:346-387 | FAIL when some parameter is critical, else DEGRADED when one is warning, else OK |
| Pipeline.Deduct | src/core/HealthDataPipeline.cpp:405-429 | the high side's and the low side's deductions for one value |
| Pipeline.DeductAll | src/core/HealthDataPipeline.cpp:393-432 | 100 less the deductions of the visited parameters |
| Pipeline.ComputeHealthScore | src/core/HealthDataPipeline.cpp:389-435 | the clamped score of the payload |
| Pipeline.FaultsFor | src/core/HealthDataPipeline.cpp:451-477 | a HIGH fault for a critical high breach, then a LOW fault for a critical low one |
| Pipeline.FaultsOfAll | src/core/HealthDataPipeline.cpp:443-478 | the faults of the visited parameters in visiting order |
| Pipeline.DetectFaults | src/core/HealthDataPipeline.cpp:437-481 | the detected faults of the payload |
| Pipeline.ProcessData | src/core/HealthDataPipeline.cpp:121-153 | state, score, faults and the state's status message under the table |
| Pipeline.HandleItem | src/core/HealthDataPipeline.cpp:217-242 | an invalid item yields one validationError; a valid one dataProcessed, healthStateComputed and its faultDetected signals |
| Pipeline.BatchItemsSpec | src/core/HealthDataPipeline.cpp:71-84 | a batch adds one item per unit, each stamped now with its payload, in strictly ascending unit order |
| Pipeline.ItemsFor | src/core/HealthDataPipeline.cpp:75-81 | one item per visited unit |
| Pipeline.BatchOf | src/core/HealthDataPipeline.cpp:71-84 | the batch's items in key order |
| Pipeline.DrainOne | src/core/HealthDataPipeline.cpp:208-252 | one iteration keeps the loop's account of the whole tick |
| Pipeline.DrainQueue | src/core/HealthDataPipeline.cpp:203-256 | the loop's result is the tick's drain of the queue |
| Pipeline.HealthDataPipeline.constructor | src/core/HealthDataPipeline.cpp:5-24 | a new pipeline is stopped with an empty queue, zero counters, no schemas or unit tables and the default table |
| Pipeline.HealthDataPipeline.Start | src/core/HealthDataPipeline.cpp:31-40 | the pipeline runs; runningChanged only when it was stopped |
| Pipeline.HealthDataPipeline.Stop | src/core/HealthDataPipeline.cpp:42-51 | the pipeline stops; runningChanged only when it was running |
| Pipeline.HealthDataPipeline.SubmitData | src/core/HealthDataPipeline.cpp:58-69 | one item at the tail, stamped now, and queueChanged |
| Pipeline.HealthDataPipeline.SubmitBatchData | src/core/HealthDataPipeline.cpp:71-84 | the batch's items at the tail, then one queueChanged |
| Pipeline.HealthDataPipeline.ProcessQueue | src/core/HealthDataPipeline.cpp:203-256 | the queue, the counters and the signals become the tick's drain, with statsChanged and queueChanged iff a valid item was processed |
| Trends.Clamp01 | src/analytics/TrendAnalyzer.cpp:105 | the anomaly score lies in [0, 1] and is unchanged when it already does |
| Trends.LastPointsSpec | src/analytics/TrendAnalyzer.cpp:66-71 | the window is a suffix of the series, of length min(size, count), or the whole series for a negative count |
| Trends.Square | src/analytics/TrendAnalyzer.cpp:442-443 | a square is never negative |
| Trends.SumSquaredDiffsNonNegative | src/analytics/TrendAnalyzer.cpp:440-444 | the sum of squared deviations is never negative |
| Trends.ConstantSums | src/analytics/TrendAnalyzer.cpp:422-448 | a constant series sums to n times its value and has no spread about it |
| Trends.MeanBounds | src/analytics/TrendAnalyzer.cpp:422-433 | the mean lies between any lower and upper bound of the values |
| Trends.SumBounds | src/analytics/TrendAnalyzer.cpp:428-431 | the sum lies between n times any lower and any upper bound |
| Trends.ConstantMean | src/analytics/TrendAnalyzer.cpp:422-448 | a constant series has its value as mean and no spread |
| Trends.SumsOfY | src/analytics/TrendAnalyzer.cpp:385-394 | the regression's sum of values is the series' sum |
| Trends.SquaresNonNegative | src/analytics/TrendAnalyzer.cpp:412-417 | both residual sums are never negative |
| Trends.RegressionSpec | src/analytics/TrendAnalyzer.cpp:372-420 | below two points the fit is all zero, a near-zero denominator gives a flat line at the mean, R squared never exceeds 1, and R squared is 0 when the values do not vary about their mean |
| Trends.SquaresTotal | src/analytics/TrendAnalyzer.cpp:411-417 | the second pass's ssTot is the sum of squared differences from the mean it is given |
| Trends.ConstantRSquared | src/analytics/TrendAnalyzer.cpp:419 | a constant series has R squared 0 |
| Trends.ConstantCrossSum | src/analytics/TrendAnalyzer.cpp:385-394 | for a constant series the cross sum is the value times the time sum |
| Trends.ConstantFit | src/analytics/TrendAnalyzer.cpp:372-420 | a constant series fits a flat line at its value |
| Trends.LinearSums | src/analytics/TrendAnalyzer.cpp:386-395 | the first pass's sums of a series on the line a·t + b satisfy sumY = a·sumX + n·b and sumXY = a·sumX2 + b·sumX |
| Trends.LinearAlgebra | src/analytics/TrendAnalyzer.cpp:406-407 | the slope and intercept formulas give back a and b from such sums |
| Trends.LinearResiduals | src/analytics/TrendAnalyzer.cpp:413-417 | a series on the fitted line leaves no residual |
| Trends.LinearFit | src/analytics/TrendAnalyzer.cpp:372-420 | a series lying exactly on a line, with times spread enough to pass the denominator test, gets that line back, and R squared is 1, or 0 when nothing varies |
| Trends.TrendSpec | src/analytics/TrendAnalyzer.cpp:50-108 | under three points the default result; otherwise the current value is the last point's, the slope the window's, the score in [0, 1], Volatile iff the spread is high, and otherwise Stable, Increasing or Decreasing exactly as the slope lies within, above or below the threshold |
| Trends.ConstantTrend | src/analytics/TrendAnalyzer.cpp:50-108 | a constant series is Stable with zero slope, its value as current value and no anomaly score |
| Trends.CrossingSpec | src/analytics/TrendAnalyzer.cpp:162-200 | a crossing is reported only with three points and a slope of at least 1e-10, no earlier than the last point, at a time where the line meets the threshold |
| Trends.LineMeets | src/analytics/TrendAnalyzer.cpp:190-191 | the line meets the threshold at (threshold - intercept) / slope |
| Trends.TruncateAbove | src/analytics/TrendAnalyzer.cpp:194-196 | truncating a time past the last point stays at or after it |
| Trends.AnomalySpec | src/analytics/TrendAnalyzer.cpp:202-221 | fewer than ten points never flag, nor does a series with no spread under a non-negative threshold |
| Trends.DropOlderSpec | src/analytics/TrendAnalyzer.cpp:365-367 | pruning keeps a suffix whose first point is not before the cutoff and drops only points before it |
| Trends.ComputeMean | src/analytics/TrendAnalyzer.cpp:422-433 | the mean of the series, 0 when empty |
| Trends.ComputeStdDev | src/analytics/TrendAnalyzer.cpp:435-448 | the sample deviation, 0 below two points |
| Trends.Accumulate | src/analytics/TrendAnalyzer.cpp:385-394 | the first pass's five sums |
| Trends.Residuals | src/analytics/TrendAnalyzer.cpp:412-417 | the second pass's residual and total squares |
| Trends.ComputeLinearRegression | src/analytics/TrendAnalyzer.cpp:372-420 | the least-squares fit of the series |
| Trends.PopOlder | src/analytics/TrendAnalyzer.cpp:365-367 | the inner loop pops exactly the points before the cutoff from the front |
| Trends.PruneEach | src/analytics/TrendAnalyzer.cpp:364-368 | every visited parameter's series is pruned and nothing else is added |
| Trends.PruneUnit | src/analytics/TrendAnalyzer.cpp:364-368 | every series of one unit pruned |
| Trends.PruneUnits | src/analytics/TrendAnalyzer.cpp:363-369 | every visited unit pruned and nothing else added |
| Trends.PruneAll | src/analytics/TrendAnalyzer.cpp:359-370 | every series of every unit pruned |
| Trends.Evict | src/analytics/TrendAnalyzer.cpp:26-29 | the eviction loop keeps the newest cap points |
| Trends.CheckAnomaly | src/analytics/TrendAnalyzer.cpp:210-220 | the z-score test over a series with at least ten points |
| Trends.TrendAnalyzer.constructor | src/analytics/TrendAnalyzer.cpp:7-14 | a new analyzer holds no data, with window 100, anomaly threshold 3 and trend threshold 0.001 |
| Trends.TrendAnalyzer.IsAnomaly | src/analytics/TrendAnalyzer.cpp:202-221 | the z-score test on the stored series; an unknown unit or parameter never flags |
| Trends.TrendAnalyzer.AddDataPoint | src/analytics/TrendAnalyzer.cpp:16-37 | the point is appended to its series, only the newest 10000 kept, and anomalyDetected with the updated mean emitted iff the series with it flags the value |
| Trends.TrendAnalyzer.AnalyzeTrend | src/analytics/TrendAnalyzer.cpp:50-108 | the trend of the stored series, the default result for an unknown one |
| Trends.TrendAnalyzer.PredictValue | src/analytics/TrendAnalyzer.cpp:135-160 | the fitted line secondsAhead after the last point, the last value under three points, 0 when empty |
| Trends.TrendAnalyzer.PredictThresholdCrossing | src/analytics/TrendAnalyzer.cpp:162-200 | the crossing of the stored series, none for an unknown one |
| Trends.TrendAnalyzer.GetDataPoints | src/analytics/TrendAnalyzer.cpp:282-304 | the newest maxPoints points of the series, oldest first |
| Trends.TrendAnalyzer.ClearData | src/analytics/TrendAnalyzer.cpp:349-352 | that unit's data goes and nothing else |
| Trends.TrendAnalyzer.ClearAllData | src/analytics/TrendAnalyzer.cpp:354-357 | no data remains |
| Trends.TrendAnalyzer.PruneOldData | src/analytics/TrendAnalyzer.cpp:359-370 | every series loses exactly its front points older than maxAgeHours before now |
| Uptime.Percent | include/analytics/UptimeTracker.h:33-36 | 100 when nothing has accrued, within [0, 100] for non-negative totals, 100 with uptime only and 0 with downtime only |
| Uptime.NewRecord | src/analytics/UptimeTracker.cpp:21-37 | a new record is UNKNOWN with no time accrued, no transitions, availability 100, started now |
| Uptime.DefaultRecord | src/analytics/UptimeTracker.cpp:90-93 | the record returned for an unknown id is empty with the state whose value is 0 (OK) and invalid times |
| Uptime.Registered | src/analytics/UptimeTracker.cpp:21-37 | registering adds a new record for an unknown id only and keeps every existing record |
| Uptime.TransitionSpec | src/analytics/UptimeTracker.cpp:44-78 | an unchanged state changes nothing; a change adds the elapsed time to uptime iff the old state was OK or DEGRADED, to downtime iff it was FAIL, to neither for UNKNOWN, and counts one transition |
| Uptime.TransitionSignalsSpec | src/analytics/UptimeTracker.cpp:51-77 | no signal without a change; outageEnded with the time in FAIL iff FAIL is left, outageStarted iff it is entered, then stateChanged and uptimeUpdated last |
| Uptime.MonotoneFrom | src/analytics/UptimeTracker.cpp:57 | a clock that runs forward from a later time also does from an earlier one |
| Uptime.ReplaySpec | src/analytics/UptimeTracker.cpp:44-78 | over any series of updates the transition count grows by the number of changes, the record ends in the last state, and with a forward clock neither total decreases |
| Uptime.WithOutage | src/analytics/UptimeTracker.cpp:80-88 | an unknown id changes nothing; a known one gains only the downtime; other records are kept |
| Uptime.Accrue | src/analytics/UptimeTracker.cpp:300-315 | one tick adds 1000 ms to uptime when up, to downtime on FAIL, nothing when UNKNOWN, and changes nothing else |
| Uptime.Cleared | src/analytics/UptimeTracker.cpp:284-298 | a cleared record keeps its id and state, has no totals or transitions, restarts now and reads availability 100 |
| Uptime.SumsAlongBounds | src/analytics/UptimeTracker.cpp:131-156 | the summed totals are non-negative and the uptime total at most n times the per-record bound |
| Uptime.SumsAlongZero | src/analytics/UptimeTracker.cpp:144-156 | records with nothing accrued sum to nothing |
| Uptime.QuotientBound | src/analytics/UptimeTracker.cpp:141 | the truncating mean of values at most bound is at most bound |
| Uptime.SystemFiguresBounds | src/analytics/UptimeTracker.cpp:131-156 | with non-negative totals the system availability lies in [0, 100], is 100 when nothing accrued, and the mean uptime lies between 0 and the bound in hours |
| Uptime.UnitHistorySpec | src/analytics/UptimeTracker.cpp:181-198 | a unit's history lists exactly the recent snapshots that know the unit, with its figure |
| Uptime.SystemHistorySpec | src/analytics/UptimeTracker.cpp:200-216 | the system history lists exactly the recent snapshots with the system figure |
| Uptime.DropStaleSpec | src/analytics/UptimeTracker.cpp:259-262 | pruning keeps a suffix starting at a recent snapshot, drops only stale ones, and keeps a recent newest snapshot |
| Uptime.EachRecord | src/analytics/UptimeTracker.cpp:249-251 | the per-record loop maps every visited record and nothing else |
| Uptime.MapRecords | src/analytics/UptimeTracker.cpp:249-251 | the per-record loop over the whole table |
| Uptime.Totals | src/analytics/UptimeTracker.cpp:131-156 | the summing loop's totals and count |
| Uptime.ComputeSystemAvailability | src/analytics/UptimeTracker.cpp:144-156 | the availability over all records' totals |
| Uptime.ComputeSystemUptime | src/analytics/UptimeTracker.cpp:131-142 | the truncated mean uptime in hours, 0 without records |
| Uptime.ListUnitHistory | src/analytics/UptimeTracker.cpp:181-198 | the unit's history entries |
| Uptime.ListSystemHistory | src/analytics/UptimeTracker.cpp:200-216 | the system history entries |
| Uptime.PruneHistory | src/analytics/UptimeTracker.cpp:259-262 | the pruning loop drops stale snapshots from the front |
| Uptime.TakeSnapshot | src/analytics/UptimeTracker.cpp:246-252 | the snapshot holds now, the system availability and every record's availability |
| Uptime.Accrued | src/analytics/UptimeTracker.cpp:300-315 | accruing keeps every record under its own id |
| Uptime.AccrueAll | src/analytics/UptimeTracker.cpp:300-315 | the loop accrues one tick per record |
| Uptime.SnapshotStep | src/analytics/UptimeTracker.cpp:244-263 | once the interval has elapsed a snapshot is appended, stale ones pruned and the time stamped; otherwise nothing changes |
| Uptime.UptimeTracker.constructor | src/analytics/UptimeTracker.cpp:5-19 | a new tracker has no records or history, started now, a 60000 ms snapshot interval and no snapshot taken |
| Uptime.UptimeTracker.RegisterSubsystem | src/analytics/UptimeTracker.cpp:21-37 | the records become the registration value |
| Uptime.UptimeTracker.UnregisterSubsystem | src/analytics/UptimeTracker.cpp:39-42 | that record alone goes |
| Uptime.UptimeTracker.UpdateState | src/analytics/UptimeTracker.cpp:44-78 | the unit is registered if needed, its record transitions, and the transition's signals are emitted |
| Uptime.UptimeTracker.RecordOutage | src/analytics/UptimeTracker.cpp:80-88 | the outage is added to a known unit's downtime, announced; an unknown id changes nothing |
| Uptime.UptimeTracker.RecordOf | src/analytics/UptimeTracker.cpp:90-93 | the default record for an unknown id, else the unit's own |
| Uptime.UptimeTracker.SubsystemUptime | src/analytics/UptimeTracker.cpp:95-102 | 0 for an unknown id, non-negative for a record with non-negative uptime |
| Uptime.UptimeTracker.SubsystemAvailability | src/analytics/UptimeTracker.cpp:104-111 | 100 for an unknown id, within [0, 100] for an accounted record |
| Uptime.UptimeTracker.SubsystemDowntimeMs | src/analytics/UptimeTracker.cpp:113-120 | 0 for an unknown id, else the record's downtime |
| Uptime.UptimeTracker.StateTransitions | src/analytics/UptimeTracker.cpp:122-129 | 0 for an unknown id, else the record's transition count |
| Uptime.UptimeTracker.GetSystemUptime | src/analytics/UptimeTracker.cpp:131-142 | the mean uptime in hours |
| Uptime.UptimeTracker.GetSystemAvailability | src/analytics/UptimeTracker.cpp:144-156 | the system availability |
| Uptime.UptimeTracker.GetSystemUptimeSummary | src/analytics/UptimeTracker.cpp:158-179 | the summary lists every unit with its availability and transition count, and the unit count |
| Uptime.UptimeTracker.GetUptimeHistory | src/analytics/UptimeTracker.cpp:181-198 | the unit's figures from the snapshots of the last hours |
| Uptime.UptimeTracker.GetAvailabilityHistory | src/analytics/UptimeTracker.cpp:200-216 | the system figures from the snapshots of the last hours |
| Uptime.UptimeTracker.Tick | src/analytics/UptimeTracker.cpp:241-265 | every record accrues one tick, then a due snapshot of the updated records is taken and snapshots older than 24 hours pruned |
| Uptime.UptimeTracker.Reset | src/analytics/UptimeTracker.cpp:267-282 | every record cleared with its state kept, the history emptied, tracking restarted now, announced |
| Uptime.UptimeTracker.ResetSubsystem | src/analytics/UptimeTracker.cpp:284-298 | a known unit's record cleared and announced; an unknown id changes nothing |
| Analytics.Int32 | src/analytics/HealthAnalytics.cpp:456 | the 32-bit duration lies in the int range and equals the difference whenever that fits |
| Analytics.OpenRecord | src/analytics/HealthAnalytics.cpp:439-442 | a new record carries the code, starts now and is unresolved |
| Analytics.Opened | src/analytics/HealthAnalytics.cpp:437-448 | onFaultOccurred appends one open record to that unit's list, creating it if needed, and leaves the other units alone |
| Analytics.LastOpen | src/analytics/HealthAnalytics.cpp:454 | the index found is within the list |
| Analytics.LastOpenSpec | src/analytics/HealthAnalytics.cpp:454-461 | the search finds the most recent open record with the code, and none only when no record with it is open |
| Analytics.Resolve | src/analytics/HealthAnalytics.cpp:456-458 | a resolved record keeps its code and start, ends now and stores end less start in 32 bits |
| Analytics.ResolvedLatestSpec | src/analytics/HealthAnalytics.cpp:450-464 | clearing changes nothing without an open record with the code, and otherwise resolves exactly the most recent open one, keeping the length |
| Analytics.ClearedIn | src/analytics/HealthAnalytics.cpp:450-464 | onFaultCleared inserts an empty list for an unknown unit and leaves the other units alone |
| Analytics.Mtbf | src/analytics/HealthAnalytics.cpp:88-97 | -1 with fewer than two faults, else between 0 and the unit's uptime hours |
| Analytics.Mttr | src/analytics/HealthAnalytics.cpp:99-108 | 0 without faults, never negative, the downtime in minutes for one fault |
| Analytics.TallyAppend | src/analytics/HealthAnalytics.cpp:182-190 | counting two lists in turn is counting their concatenation |
| Analytics.ResolvedOnly | src/analytics/HealthAnalytics.cpp:186 | the resolved records are no more than all records |
| Analytics.ResolvedOnlyMembers | src/analytics/HealthAnalytics.cpp:186 | exactly the resolved records |
| Analytics.TallyFromSpec | src/analytics/HealthAnalytics.cpp:182-190 | the counters count every record, the resolved ones, and their durations |
| Analytics.DurationsWithin | src/analytics/HealthAnalytics.cpp:188 | durations in [0, bound] sum to at most n times bound |
| Analytics.StatisticsSpec | src/analytics/HealthAnalytics.cpp:176-200 | total counts every record, resolved the resolved ones, active the rest; the average downtime is 0 with nothing resolved and within [0, bound] when each resolved duration is |
| Analytics.CountsAppend | src/analytics/HealthAnalytics.cpp:206-210 | counting two lists in turn is counting their concatenation |
| Analytics.CountsFromSpec | src/analytics/HealthAnalytics.cpp:206-210 | the counting pass adds each code's number of records and lists exactly the codes seen |
| Analytics.PairsAlong | src/analytics/HealthAnalytics.cpp:213-216 | one (code, count) pair per listed code, in order |
| Analytics.InsertDescMembers | src/analytics/HealthAnalytics.cpp:217-218 | one insertion adds exactly the new pair |
| Analytics.Behind | src/analytics/HealthAnalytics.cpp:217-218 | in a descending list a later entry has no greater count |
| Analytics.InsertDescOrder | src/analytics/HealthAnalytics.cpp:217-218 | insertion keeps the list in non-increasing count order |
| Analytics.InsertDescDistinct | src/analytics/HealthAnalytics.cpp:217-218 | insertion of a new code keeps the codes distinct |
| Analytics.InsertAllSpec | src/analytics/HealthAnalytics.cpp:217-218 | sorting keeps every pair, adds none, and orders them by non-increasing count |
| Analytics.Listed | src/analytics/HealthAnalytics.cpp:221 | the listing holds min(count, size) entries, none for a count below 1 |
| Analytics.RankedSpec | src/analytics/HealthAnalytics.cpp:202-218 | the ranking lists every code with records once, with its number of records, by non-increasing count |
| Analytics.PairsSpec | src/analytics/HealthAnalytics.cpp:213-216 | the listed pairs hold each counted code once with its count |
| Analytics.TopSpec | src/analytics/HealthAnalytics.cpp:202-229 | at most count entries by non-increasing count, each code with its exact number of records, no code twice; a code is left out only when the listing is full and then has no more records than the last listed |
| Analytics.PrefixSpec | src/analytics/HealthAnalytics.cpp:221-226 | taking the first entries of the ranking keeps its properties and leaves out only codes no more frequent than the last taken |
| Analytics.PrefixOrdered | src/analytics/HealthAnalytics.cpp:221-226 | a prefix of a descending list with distinct codes is one too |
| Analytics.LeftOut | src/analytics/HealthAnalytics.cpp:221-226 | an entry the prefix leaves out lies behind it |
| Analytics.RecordUnitSpec | src/analytics/HealthAnalytics.cpp:398-412 | a snapshot appends one health record for the unit and adds the interval to its uptime when OK or DEGRADED, else to its downtime, UNKNOWN included; no other unit changes |
| Analytics.RecentSpec | src/analytics/HealthAnalytics.cpp:418-425 | pruning keeps exactly the records no older than the cutoff, and all of them when none is older |
| Analytics.TallyRecords | src/analytics/HealthAnalytics.cpp:183-189 | the inner loop's counters |
| Analytics.TallyUnits | src/analytics/HealthAnalytics.cpp:182-190 | the outer loop's counters over the listed units |
| Analytics.ComputeStatistics | src/analytics/HealthAnalytics.cpp:176-200 | the fault statistics |
| Analytics.CountRecords | src/analytics/HealthAnalytics.cpp:207-209 | the inner counting loop |
| Analytics.CountUnits | src/analytics/HealthAnalytics.cpp:206-210 | the counts over the listed units |
| Analytics.ListPairs | src/analytics/HealthAnalytics.cpp:213-216 | the pairs in key order |
| Analytics.SortTallies | src/analytics/HealthAnalytics.cpp:217-218 | the sort by descending count |
| Analytics.Rank | src/analytics/HealthAnalytics.cpp:204-218 | the ranking of the ledger |
| Analytics.ComputeTopFaults | src/analytics/HealthAnalytics.cpp:202-229 | the top-fault listing |
| Analytics.TakeFirst | src/analytics/HealthAnalytics.cpp:221-226 | the first n entries |
| Analytics.NewestRecords | src/analytics/HealthAnalytics.cpp:141-150 | at most maxCount records, newest first |
| Analytics.ResolveLatest | src/analytics/HealthAnalytics.cpp:454-461 | the backwards loop resolves the most recent open record with the code |
| Analytics.RecordUnits | src/analytics/HealthAnalytics.cpp:398-412 | the per-unit loop of a snapshot |
| Analytics.KeepRecent | src/analytics/HealthAnalytics.cpp:421-424 | remove_if keeps the recent records in order |
| Analytics.PruneEach | src/analytics/HealthAnalytics.cpp:418-425 | every visited unit's records pruned, nothing else added |
| Analytics.PruneHistories | src/analytics/HealthAnalytics.cpp:418-425 | every unit's records pruned |
| Analytics.HealthAnalytics.constructor | src/analytics/HealthAnalytics.cpp:8-21 | empty histories, availability and mean score 100, no faults, 24 h retention and a 60000 ms interval |
| Analytics.HealthAnalytics.AnalyticsOf | src/analytics/HealthAnalytics.cpp:65-81 | availability 100 with no time recorded and within [0, 100] otherwise, MTBF -1 below two faults, MTTR 0 without faults, and the fault count the unit's number of records |
| Analytics.HealthAnalytics.GetFaultHistory | src/analytics/HealthAnalytics.cpp:135-153 | the unit's records, newest first, at most maxCount |
| Analytics.HealthAnalytics.GetFaultStatistics | src/analytics/HealthAnalytics.cpp:176-200 | the statistics of the ledger |
| Analytics.HealthAnalytics.GetTopFaults | src/analytics/HealthAnalytics.cpp:202-229 | the top-fault listing of the ledger |
| Analytics.HealthAnalytics.ComputeMetrics | src/analytics/HealthAnalytics.cpp:466-478 | both figures pinned to 100 |
| Analytics.HealthAnalytics.UpdateAnalytics | src/analytics/HealthAnalytics.cpp:390-394 | both figures pinned to 100, then analyticsUpdated |
| Analytics.HealthAnalytics.OnSubsystemHealthChanged | src/analytics/HealthAnalytics.cpp:431-435 | both figures pinned to 100 |
| Analytics.HealthAnalytics.RecordHealthSnapshot | src/analytics/HealthAnalytics.cpp:396-429 | every unit is recorded, the time attributed, records older than the retention pruned, then the figures pinned and analyticsUpdated |
| Analytics.HealthAnalytics.OnFaultOccurred | src/analytics/HealthAnalytics.cpp:437-448 | one more open record and one more fault in total, announced |
| Analytics.HealthAnalytics.OnFaultCleared | src/analytics/HealthAnalytics.cpp:450-464 | the most recent open record with the code resolved, announced |
| Injector.ConfigOf | src/simulator/FaultInjector.cpp:32-48 | a missing severity reads as WARNING, a missing delay as 0, and without duration and autoRecover no recovery timer is armed |
| Injector.Empty | src/simulator/FaultInjector.cpp:7-12 | a new injector keeps the invariant with no active or scheduled faults |
| Injector.Owner | src/simulator/FaultInjector.cpp:221-231 | the key found owns that timer, and none means no key does |
| Injector.InjectConsistent | src/simulator/FaultInjector.cpp:235-272 | injecting keeps the invariant |
| Injector.ScheduleConsistent | src/simulator/FaultInjector.cpp:50-66 | scheduling keeps the invariant |
| Injector.ApplyConsistent | src/simulator/FaultInjector.cpp:43-47 | applying a configuration keeps the invariant |
| Injector.ClearConsistent | src/simulator/FaultInjector.cpp:68-88 | clearing keeps the invariant |
| Injector.ClearUnitConsistent | src/simulator/FaultInjector.cpp:90-119 | clearing a unit keeps the invariant |
| Injector.FireScheduledConsistent | src/simulator/FaultInjector.cpp:202-213 | firing a delay timer keeps the invariant |
| Injector.RunAlongConsistent | src/simulator/FaultInjector.cpp:141-160 | running a scenario keeps the invariant |
| Injector.InjectSpec | src/simulator/FaultInjector.cpp:235-272 | an active key makes injection a no-op, and only then; otherwise exactly that key gains the configuration, nothing is scheduled, and a recovery timer appears exactly when the configuration auto-recovers with a positive duration |
| Injector.InjectTwice | src/simulator/FaultInjector.cpp:237-241 | a second injection of the same fault changes nothing and emits nothing |
| Injector.SeverityOfLevel | src/simulator/FaultInjector.cpp:37 | a level from 0 to 3 names the enumerator with that value |
| Injector.NoClearNoChange | src/simulator/FaultInjector.cpp:255-257 | as delivered, requests without a clear leave the unit's fault list unchanged |
| Injector.NoClearKeeps | src/core/RadarSubsystem.cpp:468-477 | as intended, requests without a clear never take an active code away from the unit |
| Injector.InjectMissesUnit | src/simulator/FaultInjector.cpp:255-257 | a new injection is recorded and announced, yet the unit's fault list is left as it was |
| Injector.InjectReachesUnit | src/simulator/FaultInjector.cpp:245-258 | with addFault reaching the unit, the injected code is active in the unit afterwards |
| Injector.ClearReachesUnit | src/simulator/FaultInjector.cpp:68-76 | clearing an injected fault of a known unit leaves the code inactive in that unit |
| Injector.ManualSpec | src/simulator/FaultInjector.cpp:19-30 | injectFault leaves the timers and the schedule alone and stores a new fault as a WARNING |
| Injector.DelayedSpec | src/simulator/FaultInjector.cpp:43-45 | a positive delay leaves the active faults alone and schedules one new WARNING for the same unit and code, whatever severity was configured |
| Injector.FireScheduledOnce | src/simulator/FaultInjector.cpp:202-213 | a fired delay timer leaves the table and a second firing does nothing |
| Injector.ClearSpec | src/simulator/FaultInjector.cpp:68-88 | clearFault removes the key and its recovery timer, keeps the schedule, and announces iff the key was present |
| Injector.ClearUnitExact | src/simulator/FaultInjector.cpp:90-119 | clearAllFaults(id) removes exactly that unit's faults and timers and keeps the schedule |
| Injector.FireRecoverySpec | src/simulator/FaultInjector.cpp:215-233 | a recovery timer clears exactly the fault it was armed for |
| Injector.FireStrayTimer | src/simulator/FaultInjector.cpp:215-233 | a timer that belongs to no fault does nothing |
| Injector.RunAlongKeepsDelayedWarnings | src/simulator/FaultInjector.cpp:141-160 | after a scenario every scheduled fault is a WARNING |
| Injector.CascadeSpec | src/simulator/FaultInjector.cpp:315-346 | the cascading scenario injects TX-003 at once and schedules COOL-001 after 5 s and SP-001 after 10 s |
| Injector.ScenarioNames | src/simulator/FaultInjector.cpp:274-352 | the table holds exactly the five named scenarios |
| Injector.ClearedAlongSnoc | src/simulator/FaultInjector.cpp:99-116 | one more cleared key adds exactly its announcements |
| Injector.ListKeys | src/simulator/FaultInjector.cpp:93-97 | the collected keys list the set, each once |
| Injector.AnnounceCleared | src/simulator/FaultInjector.cpp:99-116 | the announcements for each listed key in turn |
| Injector.FaultInjector.constructor | src/simulator/FaultInjector.cpp:7-12 | a new injector is empty and has emitted nothing |
| Injector.FaultInjector.DoInjectFault | src/simulator/FaultInjector.cpp:235-272 | the tables and the signals follow the injection step |
| Injector.FaultInjector.InjectFault | src/simulator/FaultInjector.cpp:19-30 | the injection of a permanent WARNING |
| Injector.FaultInjector.ScheduleFault | src/simulator/FaultInjector.cpp:50-66 | a new delay timer holding a permanent WARNING |
| Injector.FaultInjector.ApplyConfig | src/simulator/FaultInjector.cpp:43-47 | scheduled with a positive delay, injected otherwise |
| Injector.FaultInjector.InjectFaultWithConfig | src/simulator/FaultInjector.cpp:32-48 | the configuration read from the map, applied |
| Injector.FaultInjector.ClearFault | src/simulator/FaultInjector.cpp:68-88 | the tables and signals follow the clearing step |
| Injector.FaultInjector.ClearAllFaultsOf | src/simulator/FaultInjector.cpp:90-119 | the unit's faults and timers are gone, each announced in turn, then faultsChanged iff any was removed |
| Injector.FaultInjector.ClearAllFaults | src/simulator/FaultInjector.cpp:121-139 | no active fault or recovery timer remains, each old fault announced, then faultsChanged always |
| Injector.FaultInjector.ApplyAll | src/simulator/FaultInjector.cpp:149-157 | the scenario's entries applied in turn |
| Injector.FaultInjector.RunScenario | src/simulator/FaultInjector.cpp:141-160 | an unknown name does nothing; a known one is bracketed by scenarioStarted and scenarioCompleted |
| Injector.FaultInjector.GetAvailableScenarios | src/simulator/FaultInjector.cpp:162-165 | the five scenario names in key order |
| Injector.FaultInjector.InjectedFaults | src/simulator/FaultInjector.cpp:192-195 | exactly the stored configurations |
| Injector.FaultInjector.HasFault | src/simulator/FaultInjector.cpp:197-200 | true iff that unit and code is injected |
| Injector.FaultInjector.InjectedFaultCount | src/simulator/FaultInjector.cpp:172-175 | zero iff nothing is injected |
| Injector.FaultInjector.IsActive | src/simulator/FaultInjector.cpp:167-170 | true iff some fault is injected |
| Injector.FaultInjector.OnScheduledFault | src/simulator/FaultInjector.cpp:202-213 | an unknown timer is ignored; a known one is taken and its fault injected |
| Injector.FaultInjector.OnFaultTimeout | src/simulator/FaultInjector.cpp:215-233 | the fault the timer belongs to is cleared if still active |
| Simulator.ScenarioRoundTrip | src/simulator/HealthSimulator.cpp:103-128 | each scenario is found again under the name getScenario gives it, and exactly the eight names are recognised |
| Simulator.TransitionsCoherent | src/simulator/HealthSimulator.cpp:31-72 | start, stop, pause and resume keep "paused only while running" and "the timer runs iff running and not paused" |
| Simulator.TransitionsSpec | src/simulator/HealthSimulator.cpp:31-82 | start leaves the simulation running and is a no-op while running; stop always ends it and is idempotent; pause and resume undo each other and act only from their own state |
| Simulator.HealthSimulator.constructor | src/simulator/HealthSimulator.cpp:9-24 | Normal scenario, probability 0.01, 1000 ms interval, stopped, time 0, no injected faults |
| Simulator.HealthSimulator.Start | src/simulator/HealthSimulator.cpp:31-42 | a no-op while running; otherwise running, not paused, time 0, timer started, runningChanged emitted |
| Simulator.HealthSimulator.Stop | src/simulator/HealthSimulator.cpp:44-54 | a no-op unless running; otherwise both flags cleared and the timer stopped, runningChanged emitted |
| Simulator.HealthSimulator.Pause | src/simulator/HealthSimulator.cpp:56-63 | acts only from running and not paused |
| Simulator.HealthSimulator.Resume | src/simulator/HealthSimulator.cpp:65-72 | acts only from running and paused |
| Simulator.HealthSimulator.IsRunning | src/simulator/HealthSimulator.cpp:79-82 | running and not paused, which is exactly when the tick timer runs |
| Simulator.HealthSimulator.SetUpdateInterval | src/simulator/HealthSimulator.cpp:94-101 | the new interval is stored, taken by the timer only while it runs, and intervalChanged is emitted |
| Simulator.HealthSimulator.GetScenario | src/simulator/HealthSimulator.cpp:103-116 | the name that selects the current scenario |
| Simulator.HealthSimulator.SetScenario | src/simulator/HealthSimulator.cpp:130-136 | the scenario is set, and scenarioChanged is emitted only on a change |
| Simulator.HealthSimulator.SetScenarioNamed | src/simulator/HealthSimulator.cpp:118-128 | one of the eight names selects its scenario, so getScenario returns that name; any other string changes nothing |
| Simulator.HealthSimulator.SetFaultProbability | src/simulator/HealthSimulator.cpp:143-147 | the stored probability lies in [0, 1] and equals the argument when that already does |
| Simulator.HealthSimulator.InjectFault | src/simulator/HealthSimulator.cpp:149-153 | the code is appended to that unit's list, other units untouched, and faultInjected emitted |
| Simulator.HealthSimulator.ClearInjectedFault | src/simulator/HealthSimulator.cpp:155-160 | every occurrence of the code leaves that unit's list only; no unit gains or loses an entry |
| Simulator.HealthSimulator.ClearAllInjectedFaults | src/simulator/HealthSimulator.cpp:162-165 | no injected faults remain |
| Simulator.HealthSimulator.LoadNormalScenario | src/simulator/HealthSimulator.cpp:167-172 | Normal, probability 0.001 and no injected faults |
| Simulator.HealthSimulator.LoadDegradedScenario | src/simulator/HealthSimulator.cpp:174-178 | Degraded with probability 0.05 |
| Simulator.HealthSimulator.LoadFailureScenario | src/simulator/HealthSimulator.cpp:180-184 | PartialFailure with probability 0.1 |
| Simulator.HealthSimulator.LoadStressTestScenario | src/simulator/HealthSimulator.cpp:186-190 | HighStress with probability 0.02 |
| Simulator.HealthSimulator.OnUpdateTick | src/simulator/HealthSimulator.cpp:192-204 | the simulated time grows by one update interval and nothing else changes |
| Generator.DefaultConfig | include/simulator/TelemetryGenerator.h:37-39 | the default configuration: nominal 0 bounded to [0, 100], no variance and no trend |
| Generator.NewConfig | include/simulator/TelemetryGenerator.h:41-44 | the named configuration keeps its name, nominal and variance, is bounded and has no trend |
| Generator.ApplyNoise | src/simulator/TelemetryGenerator.cpp:207-219 | without a positive variance the value passes unchanged |
| Generator.ApplyTrend | src/simulator/TelemetryGenerator.cpp:202-205 | a name with no accumulated trend passes its value unchanged |
| Generator.ClampValue | src/simulator/TelemetryGenerator.cpp:251-257 | a bounded value lies in [min, max], one already inside is unchanged, and an unbounded value is returned as it is |
| Generator.LiveSpec | src/simulator/TelemetryGenerator.cpp:183-194 | advanceTime keeps exactly the anomalies that have not expired, and the whole list when none has |
| Generator.LiveLater | src/simulator/TelemetryGenerator.cpp:183-194 | pruning at one time and then at a later one is pruning at the later one |
| Generator.SpikeWindow | src/simulator/TelemetryGenerator.cpp:127-137 | a spike adds its magnitude exactly while fewer than 100 ms have passed, and is dropped once more than 100 have |
| Generator.PermanentAnomalies | src/simulator/TelemetryGenerator.cpp:151-161 | an anomaly without a positive duration never expires, and a drift with a negative one adds rate × elapsed seconds |
| Generator.AddedSpec | src/simulator/TelemetryGenerator.cpp:15-20 | addParameter stores the configuration at its nominal value with zero trend, and leaves the anomalies and every other name alone |
| Generator.RemovedSpec | src/simulator/TelemetryGenerator.cpp:22-28 | removeParameter takes the name, and only that name, out of all four maps |
| Generator.RemovedThenAdded | src/simulator/TelemetryGenerator.cpp:15-28 | a parameter removed and added again generates from its nominal value with no anomaly left behind |
| Generator.AdjustedSpec | src/simulator/TelemetryGenerator.cpp:82-108 | the setters are no-ops for unknown names; otherwise only the named configuration changes, and applyOffset adds to its nominal |
| Generator.ResetThenGenerate | src/simulator/TelemetryGenerator.cpp:110-117 | after reset a parameter sits at nominal with no anomalies and generates from its nominal value alone |
| Generator.ResetEverySpec | src/simulator/TelemetryGenerator.cpp:119-125 | resetAll resets every registered name, leaves the rest, and puts the clock back at 0 |
| Generator.AdvancedSpec | src/simulator/TelemetryGenerator.cpp:173-195 | the clock moves by ms, each registered trend grows by rate × ms / 1000, others are unchanged, and each list keeps exactly its unexpired anomalies |
| Generator.AdvancedTwice | src/simulator/TelemetryGenerator.cpp:173-195 | advancing by a and then b non-negative milliseconds is advancing by a + b |
| Generator.PrunedTwice | src/simulator/TelemetryGenerator.cpp:183-194 | expiry at one time and then at a later one is expiry at the later one |
| Generator.AccruedTwice | src/simulator/TelemetryGenerator.cpp:176-180 | two trend accruals add up to one over the summed time |
| Generator.ApplyAnomalies | src/simulator/TelemetryGenerator.cpp:221-249 | the value plus the effect of every anomaly in the list |
| Generator.ResetAlong | src/simulator/TelemetryGenerator.cpp:119-124 | each registered name back at nominal with zero trend, other entries kept |
| Generator.AccrueAlong | src/simulator/TelemetryGenerator.cpp:176-180 | every registered trend accrued by the step |
| Generator.PruneAlong | src/simulator/TelemetryGenerator.cpp:183-194 | every anomaly list pruned at the new time |
| Generator.Names | src/simulator/TelemetryGenerator.cpp:176 | the names of the set, each once |
| Generator.AdvanceMaps | src/simulator/TelemetryGenerator.cpp:173-195 | the generator advanced by ms |
| Generator.TelemetryGenerator.constructor | src/simulator/TelemetryGenerator.cpp:6-13 | no parameters, values, trends or anomalies, and time 0 |
| Generator.TelemetryGenerator.AddParameter | src/simulator/TelemetryGenerator.cpp:15-20 | the generator after addParameter |
| Generator.TelemetryGenerator.RemoveParameter | src/simulator/TelemetryGenerator.cpp:22-28 | the generator after removeParameter |
| Generator.TelemetryGenerator.SetParameterConfig | src/simulator/TelemetryGenerator.cpp:30-33 | the configuration stored under the given name |
| Generator.TelemetryGenerator.GetParameterConfig | src/simulator/TelemetryGenerator.cpp:35-38 | the stored configuration, or the default one for an unknown name |
| Generator.TelemetryGenerator.GenerateValue | src/simulator/TelemetryGenerator.cpp:40-69 | 0 and no change for an unknown name; otherwise the generated value, stored under the configuration's name and announced |
| Generator.TelemetryGenerator.SetTrend | src/simulator/TelemetryGenerator.cpp:82-87 | the trend rate of a registered name set |
| Generator.TelemetryGenerator.SetVariance | src/simulator/TelemetryGenerator.cpp:89-94 | the variance of a registered name set |
| Generator.TelemetryGenerator.SetNominal | src/simulator/TelemetryGenerator.cpp:96-101 | the nominal of a registered name set |
| Generator.TelemetryGenerator.ApplyOffset | src/simulator/TelemetryGenerator.cpp:103-108 | the offset added to a registered nominal |
| Generator.TelemetryGenerator.Reset | src/simulator/TelemetryGenerator.cpp:110-117 | the generator after reset(name) |
| Generator.TelemetryGenerator.ResetAll | src/simulator/TelemetryGenerator.cpp:119-125 | the generator after resetAll |
| Generator.TelemetryGenerator.Inject | src/simulator/TelemetryGenerator.cpp:127-161 | the anomaly appended to the name's list and anomalyTriggered emitted with its kind |
| Generator.TelemetryGenerator.InjectSpike | src/simulator/TelemetryGenerator.cpp:127-137 | a 100 ms spike from the current time |
| Generator.TelemetryGenerator.InjectDrift | src/simulator/TelemetryGenerator.cpp:139-149 | a drift of the given rate and duration from the current time |
| Generator.TelemetryGenerator.InjectNoise | src/simulator/TelemetryGenerator.cpp:151-161 | a permanent noise anomaly from the current time |
| Generator.TelemetryGenerator.ClearAnomalies | src/simulator/TelemetryGenerator.cpp:163-166 | the name's anomalies gone, others kept |
| Generator.TelemetryGenerator.ClearAllAnomalies | src/simulator/TelemetryGenerator.cpp:168-171 | no anomalies remain |
| Generator.TelemetryGenerator.AdvanceTime | src/simulator/TelemetryGenerator.cpp:173-195 | the generator after advanceTime |
| Generator.TelemetryGenerator.SetTime | src/simulator/TelemetryGenerator.cpp:197-200 | the clock set to the given time |

## Left out

- Qt object ownership, parent/child deletion, destructors, threads and mutexes: the model is single-threaded and every object lives for the whole run; the one use of `m_mutex` modelled is the health pass's, in `Subsystem.RunLocks` (see Findings).
- Subsystem.RadarSubsystem.HealthPass: runs the pass as if the verdict could be computed while `m_mutex` is held; as written the source relocks its held non-recursive mutex inside the compute calls and a unit's pass never finishes (`Subsystem.PassAsWrittenBlocks`), so the pass states what the code evidently intends.
- Subsystem.RadarSubsystem.Recompute: computes the verdict without the lock; the source computes it under `m_mutex`, where every unit's override blocks on its first `isEnabled()`.
- Subsystem.RadarSubsystem.ProcessHealthData: a pass that runs is the intended `HealthPass`, not the as-written one that blocks; so too the passes inside `NotifyAndPass`, `UpdateData` and `RunQueued`.
- Timers: a running timer is a flag and a single-shot timer is a numbered id or a counter of queued calls; the event loop itself is not modelled.
- Floating point: `double` is modelled as `real`, so NaN, infinities and rounding do not exist in the model.
- Integer widths: integers are unbounded; the one 32-bit wrap spelled out is the duration in `Analytics.Int32`; `qint64` time arithmetic is assumed not to overflow.
- Strings: `QString` is `seq<char>`; UTF-16 details, case-insensitive comparisons and locale number formats are not modelled; `toUpper` is modelled for ASCII letters only, so `Pipeline.Upper`'s length fact holds for the ASCII case (full Unicode upper-casing can lengthen a string: ß becomes SS); `toDouble` on text reads an optional sign, digits and an optional fraction.
- Status messages built with `QString::arg` are modelled as their `%1` templates; the numbers filled in are not part of the model.
- The unit parameter tables built by each `initializeTelemetryParameters` are an input of the model rather than fixed constants.
- `std::sqrt` is the parameter `root` of the trend members that need it (`Trends.StdDev`, and through it the z-score and the variation test); `root` is unconstrained, so the model's statements about those tests hold for whatever square root function is supplied.
- TelemetryData.Store.Validate: states the new parameter table and that only validity signals are emitted, not their order, which follows the map's iteration order.
- TelemetryData: the `dataChanged` and `parameterChanged` notifications to the UI layer are not modelled.
- SubsystemManager.Manager.ComputeSystemHealth: aggregates the statuses each unit last announced through healthChanged, not the units' live values, which the source reads at every recompute; a score that drifts within 0.1 per pass, a debounced notification still pending, or an enabled flag changed without a health pass (enabledChanged is not connected) is therefore not seen until the unit next announces.
- SubsystemManager.Manager.CountInState: counts the statuses each unit last announced, while `getHealthySubsystemCount`, `getDegradedSubsystemCount` and `getFailedSubsystemCount` read `getHealthState()` live, so it lags the source in the same way as ComputeSystemHealth.
- SubsystemManager: `getSubsystem`, `getAllSubsystems` and `getSubsystemsByType` return object pointers and are not modelled; nor are the `*Variant` functions and `getSystemHealthSummary`, which format data for the UI.
- SubsystemManager: `setUpdateInterval`, `startUpdates`, `stopUpdates`, `updateAll` and `resetAll` iterate over unit objects and their timers and are not modelled; `isOnCanvas` and the total and active counts are plain reads.
- FaultManager: `getActiveFaultsVariant`, `getRecentFaultsVariant` and `getFaultStatistics` build `QVariant` maps for the UI and are not modelled.
- FaultManager.FaultLedger.ActiveFaultsOf: states which faults are listed, not their order or multiplicity, which follow the map's iteration order.
- Pipeline: the setters and getters of the pipeline's options are not modelled, nor is the warning `validateRanges` logs, which concerns NaN and infinity.
- Trends: `addDataPoints`, `analyzeTrends`, `detectAnomalies`, `getTrendLine` and the threshold setters are loops or accessors over the modelled operations and are not modelled separately; the overflow of `secondsAhead * 1000` is not modelled.
- Trends.TrendAnalyzer.PruneOldData: computes `maxAgeHours * 3600000` unbounded, while the source computes it in 32-bit `int`, which wraps for `maxAgeHours` of 597 or more.
- Uptime: `exportUptimeReportCsv` (file output) and `generateUptimeReport` (the same data as the summary) are not modelled; the tick timer, which the source never starts, is modelled only as the `Tick` operation.
- Analytics: `getHealthSummary`, `getHealthHistory`, `getTelemetryHistory`, `getSubsystemRanking`, the trend functions, `generateReport`, `exportReportCsv` and `checkAlertConditions` are formatting, file output or calls into the trend analysis and are not modelled.
- Analytics: the set of registered units is a parameter; an open record's `durationMs` is read as 0; the tie order of `std::sort` among equal counts is left open.
- Injector: `getInjectedFaultsVariant`, `loadFaultScript`, `saveFaultScript` and the destructor are not modelled; `affectedTelemetry` is not modelled; severities are the raw integers of the configuration map, and `Injector.SeverityOfLevel` reads a level outside 0 to 3 as the nearest enumerator.
- Injector: scenario entries that the source leaves uninitialised are read as 0 and false; the units the subsystem manager holds are a parameter; only the unit's fault list is modelled as what an add or clear request reaches; map iteration order is left open.
- Simulator: everything random (`generate*Data`, `applyScenarioModifier`, `shouldInjectFault`, `generateValue`), the destructor and the unused trend map are not modelled.
- Generator: `generateAll` is a loop over `generateValue` and is not modelled; the normal draws and the periodic noise term are inputs (`jitter`, `draws`); `windowSize` is unused; the `qint64` time overflow is not modelled.
- Generator.ClampValue: states the range only when min ≤ max; `qBound` with min > max is not specified.
- Transmitter.Status: states the disabled and standby messages; the remaining messages are tied to the health state by Transmitter.StatusAgreesWithState.
- Receiver.Status: states the disabled message and the order of the two critical tests; the rest is tied to the state by Receiver.StatusAgreesWithState.
- AntennaServo.Status: states the disabled message; the rest is tied to the state by AntennaServo.StatusAgreesWithState.
- RFFrontEnd.Status: states the disabled message; the rest is tied to the state by RFFrontEnd.StatusAgreesWithState.
- SignalProcessor.Status: states the disabled and FPGA messages; the rest is tied to the state by SignalProcessor.StatusAgreesWithState.
- DataProcessor.Status: states the disabled message; the rest is tied to the state by DataProcessor.StatusAgreesWithState.
- PowerSupply.Status: states the disabled and battery messages; the rest is tied to the state by PowerSupply.StatusAgreesWithState.
- Cooling.Status: states the disabled and low-flow messages; the rest is tied to the state by Cooling.StatusAgreesWithState.
- TimingSync.Status: states the disabled and GPS messages; the rest is tied to the state by TimingSync.StatusAgreesWithState.
- NetworkInterface.Status: states the disabled and link-down messages; the rest is tied to the state by NetworkInterface.StatusAgreesWithState.
- Subsystem.RadarSubsystem.RunQueued: states that the queued pass leaves the unit current and settled, not the signals it emits, which ProcessHealthData states.

## Findings

| source | as written | input that shows it | evidently intended | confidence | as-written member | corrected member |
|---|---|---|---|---|---|---|
| src/core/FaultManager.cpp:305-308 | the ledger key is the unit id and the code joined by ":" (src/simulator/FaultInjector.cpp:354-357 joins the same way), so two different (unit, code) pairs can share one key and overwrite or clear each other's entry | unit "a:b" with code "c", and unit "a" with code "b:c": both give "a:b:c" | one ledger entry per (unit, code) pair | not executed | FaultManager.JoinedKeysCollide | FaultManager.RegisterEffect |
| src/simulator/FaultInjector.cpp:256-257 | doInjectFault asks for the unit's addFault by name through QMetaObject::invokeMethod; RadarSubsystem::addFault is a protected member, not a slot, signal or Q_INVOKABLE method (include/core/RadarSubsystem.h:95-106), so the meta-object finds no such method and the call fails and the unit never gets the fault, while clearFault (src/simulator/FaultInjector.cpp:75) is a direct call that works | injecting TX-001 into a registered transmitter: the injector lists it as active, the transmitter's active faults stay empty | the unit records the injected fault | not executed | Injector.InjectMissesUnit | Injector.InjectReachesUnit |
| src/core/RadarSubsystem.cpp:328-338 | processHealthData holds `m_mutex`, a non-recursive QMutex (include/core/RadarSubsystem.h:131), across its calls of computeHealthState, computeHealthScore and computeStatusMessage; every unit's override begins computeHealthState with isEnabled(), which locks `m_mutex` again on the same thread (src/core/RadarSubsystem.cpp:251-255, for example src/subsystems/TransmitterSubsystem.cpp:140), so the pass waits on itself; the base implementation reads the fields directly and is not affected | any health pass of one of the ten units, for example the one updateData runs after storing a transmitter's telemetry: the first isEnabled() never returns | the verdict computed and stored without locking the held mutex again, for example by computing before taking the lock | not executed | Subsystem.PassAsWrittenBlocks | Subsystem.PassIntendedReleases |

The model's ledgers are keyed by the pair `FaultManager.FaultKey`, which the rest of the model uses. `FaultManager.JoinedKeyInjective` shows that the joined key is safe whenever unit ids contain no colon, as the unit ids in the source's tables do not. The injector's requests to a unit are modelled both ways: `Injector.DeliveredAsWritten` drops the add request, `Injector.DeliveredIntended` runs the unit's addFault. The health pass is modelled as intended: `Subsystem.RadarSubsystem.HealthPass` computes the verdict and stores it with no lock held across the compute calls, which is the order `Subsystem.PassLocksIntended` describes; `Subsystem.PassLocksAsWritten` is the source's order.
