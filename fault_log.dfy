/**
 * The per-unit fault list of the health engine as a value: the active
 * faults (at most one per code), the bounded fault history, and the number
 * of health recomputations each change schedules.  Also the base health
 * policy, which is a fold over the active faults.
 */
module FaultLog {
  import opened Wrappers
  import opened HealthStatus
  import opened Bounded

  const MAX_FAULT_HISTORY: nat := 1000

  predicate HasCode(faults: seq<FaultCode>, code: string) {
    exists i :: 0 <= i < |faults| && faults[i].code == code
  }

  predicate UniqueCodes(faults: seq<FaultCode>) {
    forall i, j :: 0 <= i < j < |faults| ==> faults[i].code != faults[j].code
  }

  /** Index of the first fault with the code, or |faults| when there is none. */
  function IndexOfCode(faults: seq<FaultCode>, code: string): (i: nat)
    ensures i <= |faults|
    ensures i < |faults| ==> faults[i].code == code
    ensures forall j :: 0 <= j < i ==> faults[j].code != code
  {
    if |faults| == 0 then 0
    else if faults[0].code == code then 0
    else 1 + IndexOfCode(faults[1..], code)
  }

  function RemoveAt(s: seq<FaultCode>, i: nat): (r: seq<FaultCode>)
    requires i < |s|
    ensures |r| == |s| - 1
  {
    s[..i] + s[i + 1..]
  }

  function AllDeactivated(s: seq<FaultCode>): (r: seq<FaultCode>)
    ensures |r| == |s|
    ensures forall i :: 0 <= i < |s| ==> r[i] == s[i].(active := false)
  {
    seq(|s|, i requires 0 <= i < |s| => s[i].(active := false))
  }

  datatype Log = Log(active: seq<FaultCode>, history: seq<FaultCode>, scheduled: nat)

  predicate Valid(l: Log) {
    UniqueCodes(l.active) && |l.history| <= MAX_FAULT_HISTORY
  }

  /** addFault: a fault whose code is already active is ignored. */
  function AddFault(l: Log, f: FaultCode): Log {
    if HasCode(l.active, f.code) then l else Log(l.active + [f], l.history, l.scheduled + 1)
  }

  lemma AddFaultEffect(l: Log, f: FaultCode)
    requires Valid(l)
    ensures var r := AddFault(l, f);
      && Valid(r)
      && HasCode(r.active, f.code)
      && r.history == l.history
      && (HasCode(l.active, f.code) ==> r == l)
      && (!HasCode(l.active, f.code) ==> r.active == l.active + [f] && r.scheduled == l.scheduled + 1)
      && (forall c :: c != f.code ==> (HasCode(r.active, c) <==> HasCode(l.active, c)))
  {
    var r := AddFault(l, f);
    if !HasCode(l.active, f.code) {
      assert r.active[|l.active|] == f;
      forall c | c != f.code && HasCode(r.active, c) ensures HasCode(l.active, c) {
        var i :| 0 <= i < |r.active| && r.active[i].code == c;
        assert l.active[i] == r.active[i];
      }
      forall c | HasCode(l.active, c) ensures HasCode(r.active, c) {
        var i :| 0 <= i < |l.active| && l.active[i].code == c;
        assert r.active[i] == l.active[i];
      }
    }
  }

  /** addFault keeps the codes unique and leaves the history alone. */
  lemma AddFaultValid(l: Log, f: FaultCode)
    requires Valid(l)
    ensures Valid(AddFault(l, f))
  {
    AddFaultEffect(l, f);
  }

  datatype Cleared = Cleared(log: Log, found: bool)

  /**
   * clearFault: the first active fault with the code leaves the active list
   * and enters the history as inactive; the history keeps its newest 1000
   * entries.
   */
  function ClearFault(l: Log, code: string): (r: Cleared)
    ensures r.found <==> HasCode(l.active, code)
    ensures !r.found ==> r.log == l
    ensures r.found ==> r.log.scheduled == l.scheduled + 1
  {
    var i := IndexOfCode(l.active, code);
    if i == |l.active| then Cleared(l, false)
    else
      Cleared(Log(RemoveAt(l.active, i),
                  KeepLast(l.history + [l.active[i].(active := false)], MAX_FAULT_HISTORY),
                  l.scheduled + 1),
              true)
  }

  lemma ClearFaultEffect(l: Log, code: string)
    requires Valid(l)
    ensures var r := ClearFault(l, code);
      && Valid(r.log)
      && !HasCode(r.log.active, code)
      && (forall c :: c != code ==> (HasCode(r.log.active, c) <==> HasCode(l.active, c)))
      && (r.found ==> |r.log.active| == |l.active| - 1)
      && (r.found ==> var last := r.log.history[|r.log.history| - 1];
                      last.code == code && !last.active
                      && exists k :: 0 <= k < |l.active| && last == l.active[k].(active := false))
  {
    var r := ClearFault(l, code);
    var i := IndexOfCode(l.active, code);
    if i < |l.active| {
      var a := l.active;
      var b := r.log.active;
      assert b == a[..i] + a[i + 1..];
      assert forall k :: 0 <= k < i ==> b[k] == a[k];
      assert forall k :: i <= k < |b| ==> b[k] == a[k + 1];
      forall c | HasCode(b, c) ensures HasCode(a, c) && c != code {
        var k :| 0 <= k < |b| && b[k].code == c;
        if k < i { assert a[k] == b[k]; } else { assert a[k + 1] == b[k]; }
      }
      forall c | c != code && HasCode(a, c) ensures HasCode(b, c) {
        var k :| 0 <= k < |a| && a[k].code == c;
        if k < i { assert b[k] == a[k]; } else { assert k != i; assert b[k - 1] == a[k]; }
      }
      forall j, k | 0 <= j < k < |b| ensures b[j].code != b[k].code {
        var j' := if j < i then j else j + 1;
        var k' := if k < i then k else k + 1;
        assert a[j'] == b[j] && a[k'] == b[k];
      }
      var h := l.history + [a[i].(active := false)];
      assert r.log.history[|r.log.history| - 1] == h[|h| - 1];
    }
  }

  /** clearFault keeps the codes unique and the history bounded. */
  lemma ClearFaultValid(l: Log, code: string)
    requires Valid(l)
    ensures Valid(ClearFault(l, code).log)
  {
    ClearFaultEffect(l, code);
  }

  /** clearAllFaults: every active fault enters the history as inactive; the count is returned. */
  function ClearAllFaults(l: Log): (r: (Log, nat))
    ensures r.1 == |l.active|
    ensures r.0.active == []
    ensures |r.0.history| == Min(|l.history| + |l.active|, MAX_FAULT_HISTORY)
  {
    (Log([],
         KeepLast(l.history + AllDeactivated(l.active), MAX_FAULT_HISTORY),
         l.scheduled + if |l.active| > 0 then 1 else 0),
     |l.active|)
  }

  /** The history grows by the cleared faults, as inactive records, in their order, newest last. */
  lemma ClearAllFaultsHistory(l: Log, k: nat)
    requires k < |l.active| && |l.active| <= MAX_FAULT_HISTORY
    ensures var h := ClearAllFaults(l).0.history;
      h[|h| - |l.active| + k] == l.active[k].(active := false)
  {
    var full := l.history + AllDeactivated(l.active);
    var h := ClearAllFaults(l).0.history;
    assert h == full[|full| - |h|..];
    assert full[|l.history| + k] == l.active[k].(active := false);
  }

  /** One addFault or clearFault call made by a unit's data-update rules. */
  datatype FaultAction = Raise(fault: FaultCode) | Clear(code: string)

  function ActionCode(a: FaultAction): string {
    match a
    case Raise(f) => f.code
    case Clear(c) => c
  }

  function Step(l: Log, a: FaultAction): Log {
    match a
    case Raise(f) => AddFault(l, f)
    case Clear(c) => ClearFault(l, c).log
  }

  /** The calls applied in order. */
  function Apply(l: Log, acts: seq<FaultAction>): Log
    decreases |acts|
  {
    if |acts| == 0 then l else Step(Apply(l, acts[..|acts| - 1]), acts[|acts| - 1])
  }

  /** The last call that concerns the code. */
  function LastFor(acts: seq<FaultAction>, code: string): (r: Option<FaultAction>)
    ensures r.Some? ==> ActionCode(r.value) == code && r.value in acts
    decreases |acts|
  {
    if |acts| == 0 then None
    else if ActionCode(acts[|acts| - 1]) == code then Some(acts[|acts| - 1])
    else LastFor(acts[..|acts| - 1], code)
  }

  lemma {:induction false} LastForConcat(a: seq<FaultAction>, b: seq<FaultAction>, code: string)
    ensures LastFor(a + b, code) == if LastFor(b, code).Some? then LastFor(b, code) else LastFor(a, code)
    decreases |b|
  {
    if |b| == 0 {
      assert a + b == a;
    } else {
      assert (a + b)[..|a + b| - 1] == a + b[..|b| - 1];
      assert (a + b)[|a + b| - 1] == b[|b| - 1];
      LastForConcat(a, b[..|b| - 1], code);
    }
  }

  /**
   * Whether a code is active after a run of addFault/clearFault calls is
   * decided by the last call about that code; codes no call mentions keep
   * their status.
   */
  lemma {:induction false} ApplyDecides(l: Log, acts: seq<FaultAction>, code: string)
    requires Valid(l)
    ensures Valid(Apply(l, acts))
    ensures HasCode(Apply(l, acts).active, code) ==
      match LastFor(acts, code)
      case None => HasCode(l.active, code)
      case Some(a) => a.Raise?
    decreases |acts|
  {
    if |acts| > 0 {
      var prefix := acts[..|acts| - 1];
      var last := acts[|acts| - 1];
      ApplyDecides(l, prefix, code);
      var mid := Apply(l, prefix);
      match last
      case Raise(f) => AddFaultEffect(mid, f);
      case Clear(c) => ClearFaultEffect(mid, c);
    }
  }

  /**
   * One threshold rule of a unit's data-update handler: when its key is in
   * the update (applies), the fault is added if the condition holds (raise)
   * and cleared otherwise.
   */
  datatype FaultRule = FaultRule(applies: bool, raise: bool, fault: FaultCode)

  function RuleAction(r: FaultRule): (acts: seq<FaultAction>)
    ensures |acts| <= 1
    ensures forall a :: a in acts ==> ActionCode(a) == r.fault.code
  {
    if !r.applies then [] else if r.raise then [Raise(r.fault)] else [Clear(r.fault.code)]
  }

  /** The calls the rules make, in rule order. */
  function RuleActions(rules: seq<FaultRule>): seq<FaultAction>
    decreases |rules|
  {
    if |rules| == 0 then [] else RuleActions(rules[..|rules| - 1]) + RuleAction(rules[|rules| - 1])
  }

  predicate DistinctRuleCodes(rules: seq<FaultRule>) {
    forall i, j :: 0 <= i < j < |rules| ==> rules[i].fault.code != rules[j].fault.code
  }

  /** A unit's rules: one per fault code, each raising an active fault of that unit. */
  predicate UnitRules(rules: seq<FaultRule>, id: string) {
    && DistinctRuleCodes(rules)
    && forall i :: 0 <= i < |rules| ==> rules[i].fault.active && rules[i].fault.subsystemId == id
  }

  function RuleOutcome(r: FaultRule): Option<FaultAction> {
    if !r.applies then None else if r.raise then Some(Raise(r.fault)) else Some(Clear(r.fault.code))
  }

  /** No rule names the code: the rules leave it alone. */
  lemma {:induction false} LastForOtherRules(rules: seq<FaultRule>, code: string)
    requires forall i :: 0 <= i < |rules| ==> rules[i].fault.code != code
    ensures LastFor(RuleActions(rules), code) == None
    decreases |rules|
  {
    if |rules| > 0 {
      var prefix := rules[..|rules| - 1];
      assert forall i :: 0 <= i < |prefix| ==> prefix[i] == rules[i];
      LastForOtherRules(prefix, code);
      LastForRule(RuleActions(prefix), rules[|rules| - 1], code);
    }
  }

  /** With one rule per code, the rule that names the code decides it. */
  lemma {:induction false} LastForRules(rules: seq<FaultRule>, code: string, i: nat)
    requires DistinctRuleCodes(rules)
    requires i < |rules| && rules[i].fault.code == code
    ensures LastFor(RuleActions(rules), code) == RuleOutcome(rules[i])
    decreases |rules|
  {
    var prefix := rules[..|rules| - 1];
    var last := rules[|rules| - 1];
    assert forall j :: 0 <= j < |prefix| ==> prefix[j] == rules[j];
    LastForRule(RuleActions(prefix), last, code);
    if i < |prefix| {
      assert last.fault.code != code;
      LastForRules(prefix, code, i);
    } else {
      assert forall j :: 0 <= j < |prefix| ==> prefix[j].fault.code != code;
      LastForOtherRules(prefix, code);
    }
  }

  /** One more rule decides its own code, and only when it applies. */
  lemma LastForRule(acts: seq<FaultAction>, r: FaultRule, code: string)
    ensures LastFor(acts + RuleAction(r), code) ==
      if r.applies && r.fault.code == code then RuleOutcome(r) else LastFor(acts, code)
  {
    LastForConcat(acts, RuleAction(r), code);
    if r.applies {
      assert RuleAction(r)[..0] == [];
    }
  }

  /** A rule decides its code; the other codes keep their status. */
  lemma RulesDecide(l: Log, rules: seq<FaultRule>, code: string)
    requires Valid(l) && DistinctRuleCodes(rules)
    ensures Valid(Apply(l, RuleActions(rules)))
    ensures (forall i :: 0 <= i < |rules| ==> rules[i].fault.code != code) ==>
      (HasCode(Apply(l, RuleActions(rules)).active, code) <==> HasCode(l.active, code))
    ensures forall i :: 0 <= i < |rules| && rules[i].fault.code == code ==>
      (HasCode(Apply(l, RuleActions(rules)).active, code) <==>
        if rules[i].applies then rules[i].raise else HasCode(l.active, code))
  {
    if forall i :: 0 <= i < |rules| ==> rules[i].fault.code != code {
      LastForOtherRules(rules, code);
    }
    forall i | 0 <= i < |rules| && rules[i].fault.code == code
      ensures LastFor(RuleActions(rules), code) == RuleOutcome(rules[i])
    {
      LastForRules(rules, code, i);
    }
    ApplyDecides(l, RuleActions(rules), code);
  }

  /** After an update, the code is active iff cond when its key was supplied, and as before otherwise. */
  predicate Decided(before: Log, after: Log, supplied: bool, code: string, cond: bool) {
    HasCode(after.active, code) <==> if supplied then cond else HasCode(before.active, code)
  }

  /** Codes outside the set keep their status. */
  ghost predicate Untouched(before: Log, after: Log, codes: set<string>) {
    forall c :: c !in codes ==> (HasCode(after.active, c) <==> HasCode(before.active, c))
  }

  /** Rule i decides its own code. */
  lemma RuleDecided(l: Log, rules: seq<FaultRule>, i: nat)
    requires Valid(l) && DistinctRuleCodes(rules) && i < |rules|
    ensures Decided(l, Apply(l, RuleActions(rules)), rules[i].applies, rules[i].fault.code, rules[i].raise)
  {
    RulesDecide(l, rules, rules[i].fault.code);
  }

  /** Codes no rule names keep their status. */
  lemma RulesUntouched(l: Log, rules: seq<FaultRule>, codes: set<string>)
    requires Valid(l) && DistinctRuleCodes(rules)
    requires forall i :: 0 <= i < |rules| ==> rules[i].fault.code in codes
    ensures Valid(Apply(l, RuleActions(rules)))
    ensures Untouched(l, Apply(l, RuleActions(rules)), codes)
  {
    ApplyDecides(l, RuleActions(rules), "");
    forall c | c !in codes
      ensures HasCode(Apply(l, RuleActions(rules)).active, c) <==> HasCode(l.active, c)
    {
      RulesDecide(l, rules, c);
    }
  }

  // ----- base health policy -----

  predicate IsSevere(s: FaultSeverity) { s == CRITICAL || s == FATAL }

  datatype SeverityFlags = SeverityFlags(hasCritical: bool, hasWarning: bool)

  /** The loop of the base computeHealthState: CRITICAL/FATAL set one flag, WARNING the other. */
  function Flags(faults: seq<FaultCode>): (r: SeverityFlags)
    ensures r.hasCritical <==> exists i :: 0 <= i < |faults| && IsSevere(faults[i].severity)
    ensures r.hasWarning <==> exists i :: 0 <= i < |faults| && faults[i].severity == WARNING
  {
    if |faults| == 0 then SeverityFlags(false, false)
    else
      var r := Flags(faults[..|faults| - 1]);
      var s := faults[|faults| - 1].severity;
      assert faults[..|faults| - 1] + [faults[|faults| - 1]] == faults;
      if IsSevere(s) then r.(hasCritical := true)
      else if s == WARNING then r.(hasWarning := true)
      else r
  }

  /** Base state: UNKNOWN when disabled, FAIL on a CRITICAL/FATAL fault, else DEGRADED on a WARNING fault, else OK. */
  function BaseHealthState(enabled: bool, faults: seq<FaultCode>): (s: HealthState)
    ensures s == UNKNOWN <==> !enabled
    ensures s == FAIL <==> enabled && exists i :: 0 <= i < |faults| && IsSevere(faults[i].severity)
    ensures s == DEGRADED <==>
      enabled && (forall i :: 0 <= i < |faults| ==> !IsSevere(faults[i].severity))
      && exists i :: 0 <= i < |faults| && faults[i].severity == WARNING
    ensures s == OK <==> enabled && forall i :: 0 <= i < |faults| ==> faults[i].severity == INFO
  {
    if !enabled then UNKNOWN
    else
      var f := Flags(faults);
      if f.hasCritical then FAIL else if f.hasWarning then DEGRADED else OK
  }

  function SeverityPenalty(s: FaultSeverity): real {
    match s
    case INFO => 5.0
    case WARNING => 15.0
    case CRITICAL => 30.0
    case FATAL => 50.0
  }

  /** The amount the base score loop subtracts. */
  function TotalPenalty(faults: seq<FaultCode>): (p: real)
    ensures 5.0 * |faults| as real <= p <= 50.0 * |faults| as real
  {
    if |faults| == 0 then 0.0
    else TotalPenalty(faults[..|faults| - 1]) + SeverityPenalty(faults[|faults| - 1].severity)
  }

  /** Base score: 100 less the per-fault penalties, floored at 0; full only without faults. */
  function BaseHealthScore(faults: seq<FaultCode>): (r: real)
    ensures 0.0 <= r <= 100.0
    ensures r == 100.0 <==> |faults| == 0
    ensures r == if 100.0 - TotalPenalty(faults) > 0.0 then 100.0 - TotalPenalty(faults) else 0.0
  {
    var score := 100.0 - TotalPenalty(faults);
    if score > 0.0 then score else 0.0
  }

  lemma {:induction false} PenaltyAppend(faults: seq<FaultCode>, f: FaultCode)
    ensures TotalPenalty(faults + [f]) == TotalPenalty(faults) + SeverityPenalty(f.severity)
  {
    assert (faults + [f])[..|faults + [f]| - 1] == faults;
  }

  /** Adding a fault never raises the base score. */
  lemma AddFaultNeverRaisesScore(faults: seq<FaultCode>, f: FaultCode)
    ensures BaseHealthScore(faults + [f]) <= BaseHealthScore(faults)
  {
    PenaltyAppend(faults, f);
  }

  datatype Worst = Worst(severity: FaultSeverity, message: string)

  /**
   * The loop of the base computeStatusMessage: starting from INFO and
   * "Active faults present", a fault replaces the message only when it is
   * strictly more severe than the worst seen so far.
   */
  function WorstFault(faults: seq<FaultCode>): (w: Worst)
    ensures forall i :: 0 <= i < |faults| ==> SeverityValue(faults[i].severity) <= SeverityValue(w.severity)
    ensures w.severity == INFO ==> w.message == "Active faults present"
    ensures w.severity != INFO ==>
      exists i :: 0 <= i < |faults| && faults[i].severity == w.severity && faults[i].description == w.message
        && forall j :: 0 <= j < i ==> SeverityValue(faults[j].severity) < SeverityValue(w.severity)
  {
    if |faults| == 0 then Worst(INFO, "Active faults present")
    else
      var prefix := faults[..|faults| - 1];
      var w := WorstFault(prefix);
      var f := faults[|faults| - 1];
      assert forall i :: 0 <= i < |prefix| ==> prefix[i] == faults[i];
      if MoreSevere(f.severity, w.severity) then Worst(f.severity, f.description) else w
  }

  /** Base message: "Disabled", "Operating normally" without faults, else the worst fault's description. */
  function BaseStatusMessage(enabled: bool, faults: seq<FaultCode>): (m: string)
    ensures !enabled ==> m == "Disabled"
    ensures enabled && |faults| == 0 ==> m == "Operating normally"
    ensures enabled && |faults| > 0 ==> m == WorstFault(faults).message
  {
    if !enabled then "Disabled"
    else if |faults| == 0 then "Operating normally"
    else WorstFault(faults).message
  }

  /** With only INFO faults the base message is the generic one. */
  lemma InfoOnlyMessage(faults: seq<FaultCode>)
    requires |faults| > 0
    requires forall i :: 0 <= i < |faults| ==> faults[i].severity == INFO
    ensures BaseStatusMessage(true, faults) == "Active faults present"
  {
  }
}
