/** cli/cmd/apply.go and apply_junit.go: one `kates test apply`, its exit and its
    JUnit report. What the API answers and when Ctrl-C comes are a trace. */
module Apply {
  import opened Values
  import opened ApplySla
  import opened SlaScopes

  datatype Scenario = Scenario(name: string, kind: string, gates: Option<Gates>)

  /** A scenario's own name, or its number. */
  datatype Name = Own(name: string) | Number(n: nat)

  function ScenarioName(s: Scenario, i: nat): Name { if s.name != "" then Own(s.name) else Number(i + 1) }

  /** What one scenario meets: its run is not created, or it is, and with --wait
      the wait is stopped, fails, or ends with the run. */
  datatype Attempt = NotCreated(stopped: bool, why: string) | Created(id: string, wait: Wait)
  datatype Wait = Stopped(cancelled: bool) | Lost(why: string) | Finished(run: Run)

  /** done(i): the context had ended when scenario i's turn came. */
  datatype World = World(done: nat -> bool, attempt: nat -> Attempt)

  datatype Flags = Flags(wait: bool, noSLA: bool, scope: Option<Scope>, junit: bool)

  predicate Checked(f: Flags) { f.wait && !f.noSLA }

  datatype Fault = NoFault | InterruptedCreating | InterruptedWaiting | Fault(why: string)

  /** applyScenarioResult; a Fault without text is no error to those who read it. */
  datatype Result = Result(name: Name, kind: string, runId: string, status: Status, fault: Fault, sla: Option<Grade>, interrupted: bool)

  predicate HasError(r: Result) {
    match r.fault
    case NoFault => false
    case Fault(why) => why != ""
    case _ => true
  }

  function ResultOf(f: Flags, s: Scenario, i: nat, a: Attempt, m: Meter): Result {
    var name := ScenarioName(s, i);
    match a
    case NotCreated(true, _) => Result(name, s.kind, "", INTERRUPTED, InterruptedCreating, None, true)
    case NotCreated(false, why) => Result(name, s.kind, "", FAILED, Fault(why), None, false)
    case Created(id, wait) =>
      if !f.wait then Result(name, s.kind, id, SUBMITTED, NoFault, None, false)
      else match wait
        case Stopped(cancelled) => Result(name, s.kind, id, if cancelled then CANCELLED else INTERRUPTED, InterruptedWaiting, None, true)
        case Lost(why) => Result(name, s.kind, id, ERROR, Fault(why), None, false)
        case Finished(run) =>
          Result(name, s.kind, id, run.status, NoFault,
                 if Checked(f) then GradeOf(run, s.gates, ScenarioScope(s.gates, f.scope), m) else None, false)
  }

  method ApplyOne(f: Flags, s: Scenario, i: nat, w: World, m: Meter) returns (r: Result, stop: bool)
    ensures r == ResultOf(f, s, i, w.attempt(i), m) && stop == r.interrupted
  {
    var name := ScenarioName(s, i);
    match w.attempt(i) {
      case NotCreated(stopped, why) =>
        if stopped {
          return Result(name, s.kind, "", INTERRUPTED, InterruptedCreating, None, true), true;
        }
        return Result(name, s.kind, "", FAILED, Fault(why), None, false), false;
      case Created(id, wait) =>
        r := Result(name, s.kind, id, SUBMITTED, NoFault, None, false);
        if !f.wait {
          return r, false;
        }
        match wait {
          case Stopped(cancelled) =>
            r := r.(status := if cancelled then CANCELLED else INTERRUPTED, fault := InterruptedWaiting, interrupted := true);
            return r, true;
          case Lost(why) =>
            r := r.(status := ERROR, fault := Fault(why));
          case Finished(run) =>
            r := r.(status := run.status);
            if Checked(f) {
              var sla := GradeScenario(run, s.gates, ScenarioScope(s.gates, f.scope), m);
              r := r.(sla := sla);
            }
        }
        stop := false;
    }
  }

  /** What applyAll leaves: results of the scenarios it reached, in order, and
      whether Ctrl-C ended it. */
  ghost predicate Applied(f: Flags, scenarios: seq<Scenario>, w: World, m: Meter, results: seq<Result>, interrupted: bool) {
    && |results| <= |scenarios|
    && (forall i | 0 <= i < |results| :: !w.done(i) && results[i] == ResultOf(f, scenarios[i], i, w.attempt(i), m))
    && (forall i | 0 <= i < |results| - 1 :: !results[i].interrupted)
    && (interrupted <==> (results != [] && results[|results| - 1].interrupted) || (|results| < |scenarios| && w.done(|results|)))
    && (!interrupted ==> |results| == |scenarios|)
  }

  method ApplyAll(f: Flags, scenarios: seq<Scenario>, w: World, m: Meter) returns (results: seq<Result>, interrupted: bool)
    ensures Applied(f, scenarios, w, m, results, interrupted)
  {
    results, interrupted := [], false;
    for i := 0 to |scenarios|
      invariant |results| == i && !interrupted
      invariant forall k | 0 <= k < i :: !w.done(k) && results[k] == ResultOf(f, scenarios[k], k, w.attempt(k), m)
      invariant forall k | 0 <= k < i :: !results[k].interrupted
    {
      if w.done(i) {
        interrupted := true;
        break;
      }
      var r, stop := ApplyOne(f, scenarios[i], i, w, m);
      results := results + [r];
      if stop {
        interrupted := true;
        break;
      }
    }
  }

  // ---------------------------------------------------------- the JUnit report

  datatype Verdict = Passed | RunFailure | SlaViolation | SubmitError | WaitError | Skipped | NotStarted

  datatype Case = Case(name: Name, kind: string, verdict: Verdict)

  datatype Suite = Suite(tests: nat, failures: nat, errors: nat, skipped: nat, cases: seq<Case>)

  predicate IsFailure(v: Verdict) { v == RunFailure || v == SlaViolation }
  predicate IsError(v: Verdict) { v == SubmitError || v == WaitError }
  predicate IsSkip(v: Verdict) { v == Skipped || v == NotStarted }

  predicate Violated(r: Result) { r.sla.Some? && r.sla.value.violations != [] }

  function VerdictOf(r: Result): Verdict {
    if r.interrupted then Skipped
    else if r.runId == "" then SubmitError
    else if HasError(r) then WaitError
    else if IsFailed(r.status) then RunFailure
    else if Violated(r) then SlaViolation
    else Passed
  }

  function CasesOf(results: seq<Result>): (cases: seq<Case>)
    ensures |cases| == |results|
    ensures forall i | 0 <= i < |results| :: cases[i] == Case(results[i].name, results[i].kind, VerdictOf(results[i]))
  {
    seq(|results|, i requires 0 <= i < |results| => Case(results[i].name, results[i].kind, VerdictOf(results[i])))
  }

  function NotStartedCases(scenarios: seq<Scenario>, first: nat): (cases: seq<Case>)
    ensures |cases| == |scenarios|
    ensures forall i | 0 <= i < |scenarios| :: cases[i] == Case(ScenarioName(scenarios[i], first + i), scenarios[i].kind, NotStarted)
  {
    seq(|scenarios|, i requires 0 <= i < |scenarios| => Case(ScenarioName(scenarios[i], first + i), scenarios[i].kind, NotStarted))
  }

  function Count(cases: seq<Case>, p: Verdict -> bool): nat {
    if cases == [] then 0
    else Count(cases[..|cases| - 1], p) + if p(cases[|cases| - 1].verdict) then 1 else 0
  }

  /** The suite's counters count its cases. */
  predicate Counted(suite: Suite) {
    && suite.failures == Count(suite.cases, IsFailure)
    && suite.errors == Count(suite.cases, IsError)
    && suite.skipped == Count(suite.cases, IsSkip)
  }

  method AddCase(suite: Suite, tc: Case) returns (more: Suite)
    requires Counted(suite)
    ensures Counted(more) && more.cases == suite.cases + [tc]
  {
    more := suite.(cases := suite.cases + [tc]);
    assert more.cases[..|more.cases| - 1] == suite.cases;
    match tc.verdict {
      case RunFailure | SlaViolation => more := more.(failures := more.failures + 1);
      case SubmitError | WaitError => more := more.(errors := more.errors + 1);
      case Skipped | NotStarted => more := more.(skipped := more.skipped + 1);
      case Passed =>
    }
  }

  method AddCases(suite: Suite, cases: seq<Case>) returns (more: Suite)
    requires Counted(suite)
    ensures Counted(more) && more.cases == suite.cases + cases
  {
    more := suite;
    for i := 0 to |cases|
      invariant more.cases == suite.cases + cases[..i] && Counted(more)
    {
      more := AddCase(more, cases[i]);
    }
    assert cases[..|cases|] == cases;
  }

  method WriteApplyJUnit(results: seq<Result>, notStarted: seq<Scenario>) returns (suite: Suite)
    ensures suite.cases == CasesOf(results) + NotStartedCases(notStarted, |results|)
    ensures suite.tests == |suite.cases| && Counted(suite)
  {
    suite := Suite(0, 0, 0, 0, []);
    suite := AddCases(suite, CasesOf(results));
    suite := AddCases(suite, NotStartedCases(notStarted, |results|));
    suite := suite.(tests := |suite.cases|);
  }

  // ------------------------------------------------------------------ the exit

  datatype Exit = Succeeded | CouldNotTell | Interrupted | GatesViolated | ScenariosFailed

  predicate Failed(r: Result) { HasError(r) || IsFailed(r.status) }

  /** `written`: the report file could be written. */
  method FinishApply(f: Flags, scenarios: seq<Scenario>, results: seq<Result>, interrupted: bool, written: bool)
    returns (exit: Exit, report: Option<Suite>)
    requires |results| <= |scenarios|
    ensures report.Some? <==> f.junit
    ensures report.Some? ==>
      var suite := report.value;
      && suite.cases == CasesOf(results) + NotStartedCases(if interrupted then scenarios[|results|..] else [], |results|)
      && suite.tests == |suite.cases| && Counted(suite)
    ensures exit ==
      if f.junit && !written then CouldNotTell
      else if interrupted then Interrupted
      else if exists k :: 0 <= k < |results| && Violated(results[k]) then GatesViolated
      else if exists k :: 0 <= k < |results| && Failed(results[k]) then ScenariosFailed
      else Succeeded
  {
    var hasViolation, hasFailure := false, false;
    for i := 0 to |results|
      invariant hasViolation <==> exists k :: 0 <= k < i && Violated(results[k])
      invariant hasFailure <==> exists k :: 0 <= k < i && Failed(results[k])
    {
      var r := results[i];
      if r.sla.Some? && |r.sla.value.violations| > 0 {
        hasViolation := true;
      }
      if HasError(r) || IsFailed(r.status) {
        hasFailure := true;
      }
    }
    report := None;
    if f.junit {
      var suite := WriteApplyJUnit(results, if interrupted then scenarios[|results|..] else []);
      report := Some(suite);
      if !written {
        return CouldNotTell, report;
      }
    }
    if interrupted {
      return Interrupted, report;
    }
    if hasViolation {
      return GatesViolated, report;
    }
    if hasFailure {
      return ScenariosFailed, report;
    }
    exit := Succeeded;
  }

  // ------------------------------------------------------------- what they mean

  lemma {:induction false} CountsAdd(cases: seq<Case>)
    ensures Count(cases, v => v == Passed) + Count(cases, IsFailure) + Count(cases, IsError) + Count(cases, IsSkip) == |cases|
  {
    if cases != [] { CountsAdd(cases[..|cases| - 1]); }
  }

  lemma {:induction false} CountPositive(cases: seq<Case>, p: Verdict -> bool)
    ensures Count(cases, p) > 0 <==> exists i :: 0 <= i < |cases| && p(cases[i].verdict)
  {
    if cases != [] {
      var n := |cases| - 1;
      CountPositive(cases[..n], p);
      assert forall i | 0 <= i < n :: cases[..n][i] == cases[i];
    }
  }

  /** The report of an apply: a case per scenario in file order, counts that add
      up, and something skipped exactly when the apply was interrupted. */
  ghost predicate Reports(scenarios: seq<Scenario>, interrupted: bool, suite: Suite) {
    && suite.tests == |suite.cases| == |scenarios|
    && (forall i | 0 <= i < |scenarios| :: suite.cases[i].name == ScenarioName(scenarios[i], i) && suite.cases[i].kind == scenarios[i].kind)
    && Count(suite.cases, v => v == Passed) + suite.failures + suite.errors + suite.skipped == suite.tests
    && (suite.skipped > 0 <==> interrupted)
  }

  predicate Clean(suite: Suite) { suite.failures == 0 && suite.errors == 0 && suite.skipped == 0 }

  lemma CasesAreTheScenarios(f: Flags, scenarios: seq<Scenario>, w: World, m: Meter, results: seq<Result>, interrupted: bool, cases: seq<Case>)
    requires Applied(f, scenarios, w, m, results, interrupted)
    requires cases == CasesOf(results) + NotStartedCases(if interrupted then scenarios[|results|..] else [], |results|)
    ensures |cases| == |scenarios|
    ensures forall i | 0 <= i < |scenarios| :: cases[i].name == ScenarioName(scenarios[i], i) && cases[i].kind == scenarios[i].kind
    ensures (exists i :: 0 <= i < |cases| && IsSkip(cases[i].verdict)) <==> interrupted
  {
    forall i | 0 <= i < |scenarios|
      ensures cases[i].name == ScenarioName(scenarios[i], i) && cases[i].kind == scenarios[i].kind
    {
      if i >= |results| { assert scenarios[|results|..][i - |results|] == scenarios[i]; }
    }
    SkippedWhenInterrupted(f, scenarios, w, m, results, interrupted, cases);
  }

  lemma SkippedWhenInterrupted(f: Flags, scenarios: seq<Scenario>, w: World, m: Meter, results: seq<Result>, interrupted: bool, cases: seq<Case>)
    requires Applied(f, scenarios, w, m, results, interrupted) && |cases| == |scenarios|
    requires forall i | 0 <= i < |results| :: cases[i].verdict == VerdictOf(results[i])
    requires forall i | |results| <= i < |cases| :: cases[i].verdict == NotStarted
    ensures (exists i :: 0 <= i < |cases| && IsSkip(cases[i].verdict)) <==> interrupted
  {
    if interrupted {
      if |results| < |scenarios| {
        assert IsSkip(cases[|results|].verdict);
      } else {
        assert IsSkip(cases[|results| - 1].verdict);
      }
    }
  }

  predicate AllPassed(results: seq<Result>) {
    forall k | 0 <= k < |results| :: !Violated(results[k]) && !Failed(results[k])
  }

  predicate AllNamed(results: seq<Result>) { forall k | 0 <= k < |results| :: results[k].runId != "" }

  /** The scenario's run finished without failing and, where its gates are
      checked, meets them; without --wait it need only be created. */
  ghost predicate ReachesItsEnd(f: Flags, s: Scenario, a: Attempt, m: Meter) {
    && a.Created?
    && (f.wait ==> a.wait.Finished? && !IsFailed(a.wait.run.status))
    && !MissesItsGates(f, s, a, m)
  }

  /** The run finished, its gates are checked, and it does not meet them. */
  ghost predicate MissesItsGates(f: Flags, s: Scenario, a: Attempt, m: Meter) {
    && f.wait && !f.noSLA && s.gates.Some? && a.Created? && a.wait.Finished?
    && !Meets(a.wait.run, s.gates.value, JudgedAt(s.gates.value, f), m)
  }

  /** At the task scope when the gates ask for it, else at the flag's, and at the
      report scope without one. */
  ghost function JudgedAt(g: Gates, f: Flags): Scope {
    if g.perTask || f.scope == Some(Task) then Task else Report
  }

  /** No scenario found the context ended, and each reached its end. */
  ghost predicate AllReachTheirEnd(f: Flags, scenarios: seq<Scenario>, w: World, m: Meter) {
    forall i | 0 <= i < |scenarios| :: !w.done(i) && ReachesItsEnd(f, scenarios[i], w.attempt(i), m)
  }

  ghost predicate SomeMissesItsGates(f: Flags, scenarios: seq<Scenario>, w: World, m: Meter) {
    exists i :: 0 <= i < |scenarios| && MissesItsGates(f, scenarios[i], w.attempt(i), m)
  }

  lemma ResultTells(f: Flags, s: Scenario, i: nat, a: Attempt, m: Meter)
    ensures
      var r := ResultOf(f, s, i, a, m);
      && (Violated(r) <==> MissesItsGates(f, s, a, m))
      && (!r.interrupted && !Violated(r) && !Failed(r) <==> ReachesItsEnd(f, s, a, m))
  {
    if Checked(f) && a.Created? && a.wait.Finished? && s.gates.Some? {
      GradeIsClean(a.wait.run, s.gates.value, ScenarioScope(s.gates, f.scope), m);
    }
  }

  /** Something stopped the scenario: its creation or the wait for it. */
  ghost predicate WasStopped(f: Flags, a: Attempt) {
    (a.NotCreated? && a.stopped) || (a.Created? && f.wait && a.wait.Stopped?)
  }

  /** The row of a scenario, field by field. */
  lemma RowIs(f: Flags, s: Scenario, i: nat, a: Attempt, m: Meter)
    ensures
      var r := ResultOf(f, s, i, a, m);
      && r.name == (if s.name == "" then Number(i + 1) else Own(s.name)) && r.kind == s.kind
      && r.runId == (if a.Created? then a.id else "")
      && (r.interrupted <==> WasStopped(f, a))
      && (a.NotCreated? ==> r.status == if a.stopped then INTERRUPTED else FAILED)
      && (a.Created? && !f.wait ==> r.status == SUBMITTED)
      && (a.Created? && f.wait && a.wait.Stopped? ==> r.status == if a.wait.cancelled then CANCELLED else INTERRUPTED)
      && (a.Created? && f.wait && a.wait.Lost? ==> r.status == ERROR && r.fault == Fault(a.wait.why))
      && (a.Created? && f.wait && a.wait.Finished? ==> r.status == a.wait.run.status)
      && (r.sla.Some? <==> a.Created? && f.wait && !f.noSLA && a.wait.Finished? && s.gates.Some?)
      && (r.sla.Some? ==> r.sla.value.scope == JudgedAt(s.gates.value, f) && r.sla.value.notEvaluable == NotEvaluable(a.wait.run, s.gates.value))
  {
  }

  /** The JUnit case of a scenario, by what it met. */
  lemma CaseTells(f: Flags, s: Scenario, i: nat, a: Attempt, m: Meter)
    ensures
      VerdictOf(ResultOf(f, s, i, a, m)) ==
        if WasStopped(f, a) then Skipped
        else if a.NotCreated? || a.id == "" then SubmitError
        else if !f.wait then Passed
        else if a.wait.Lost? then if a.wait.why == "" then RunFailure else WaitError
        else if a.wait.run.status in {FAILED, ERROR, CANCELLED} then RunFailure
        else if MissesItsGates(f, s, a, m) then SlaViolation
        else Passed
  {
    ResultTells(f, s, i, a, m);
  }

  /** What the command's exit rests on is a fact about what it met: nothing
      stopped it and all results pass exactly when every scenario, from the first
      to the last, reached its end; and unless stopped it has a violation exactly
      when some run misses its gates. */
  lemma SuccessIsInTheTrace(f: Flags, scenarios: seq<Scenario>, w: World, m: Meter, results: seq<Result>, interrupted: bool)
    requires Applied(f, scenarios, w, m, results, interrupted)
    ensures !interrupted && AllPassed(results) <==> AllReachTheirEnd(f, scenarios, w, m)
    ensures !interrupted ==>
      ((exists k :: 0 <= k < |results| && Violated(results[k])) <==> SomeMissesItsGates(f, scenarios, w, m))
  {
    forall i | 0 <= i < |results|
      ensures Violated(results[i]) <==> MissesItsGates(f, scenarios[i], w.attempt(i), m)
      ensures !results[i].interrupted && !Violated(results[i]) && !Failed(results[i]) <==> ReachesItsEnd(f, scenarios[i], w.attempt(i), m)
    {
      ResultTells(f, scenarios[i], i, w.attempt(i), m);
    }
  }

  /** One `kates test apply`. The report is clean exactly when the command
      succeeds and every run it created has an id. */
  method TestApply(f: Flags, scenarios: seq<Scenario>, w: World, m: Meter, written: bool)
    returns (exit: Exit, report: Option<Suite>, results: seq<Result>, interrupted: bool)
    ensures Applied(f, scenarios, w, m, results, interrupted)
    ensures report.Some? <==> f.junit
    ensures report.Some? ==> Reports(scenarios, interrupted, report.value)
    ensures report.Some? && written ==> (Clean(report.value) <==> exit == Succeeded && AllNamed(results))
    ensures (f.junit && !written) <==> exit == CouldNotTell
    ensures (f.junit ==> written) ==>
      && (exit == Interrupted <==> interrupted)
      && (exit == Succeeded <==> AllReachTheirEnd(f, scenarios, w, m))
      && (exit == GatesViolated <==> !interrupted && SomeMissesItsGates(f, scenarios, w, m))
  {
    results, interrupted := ApplyAll(f, scenarios, w, m);
    SuccessIsInTheTrace(f, scenarios, w, m, results, interrupted);
    exit, report := FinishApply(f, scenarios, results, interrupted, written);
    if f.junit {
      ReportIsRight(f, scenarios, w, m, results, interrupted, report.value);
    }
  }

  /** A report with the cases and the counts of an apply says what it promises,
      and is clean exactly when no scenario failed, broke a gate, lost its id or
      was stopped. */
  lemma ReportIsRight(f: Flags, scenarios: seq<Scenario>, w: World, m: Meter, results: seq<Result>, interrupted: bool, suite: Suite)
    requires Applied(f, scenarios, w, m, results, interrupted)
    requires suite.cases == CasesOf(results) + NotStartedCases(if interrupted then scenarios[|results|..] else [], |results|)
    requires suite.tests == |suite.cases| && Counted(suite)
    ensures Reports(scenarios, interrupted, suite)
    ensures Clean(suite) <==> !interrupted && AllPassed(results) && AllNamed(results)
  {
    var cases := suite.cases;
    CasesAreTheScenarios(f, scenarios, w, m, results, interrupted, cases);
    CountPositive(cases, IsSkip);
    CountsAdd(cases);
    CleanIffPassed(results, interrupted, cases);
    CleanIffAllPass(suite);
  }

  lemma CleanIffAllPass(suite: Suite)
    requires Counted(suite)
    ensures Clean(suite) <==> forall i | 0 <= i < |suite.cases| :: suite.cases[i].verdict == Passed
  {
    var cases := suite.cases;
    CountPositive(cases, IsSkip);
    CountPositive(cases, IsFailure);
    CountPositive(cases, IsError);
    if Clean(suite) {
      forall i | 0 <= i < |cases| ensures cases[i].verdict == Passed {
        assert !IsFailure(cases[i].verdict) && !IsError(cases[i].verdict) && !IsSkip(cases[i].verdict);
      }
    }
  }

  lemma CleanIffPassed(results: seq<Result>, interrupted: bool, cases: seq<Case>)
    requires |results| <= |cases|
    requires forall i | 0 <= i < |results| :: cases[i].verdict == VerdictOf(results[i])
    requires forall i | |results| <= i < |cases| :: cases[i].verdict == NotStarted
    requires (exists i :: 0 <= i < |cases| && IsSkip(cases[i].verdict)) <==> interrupted
    ensures (forall i | 0 <= i < |cases| :: cases[i].verdict == Passed) <==> !interrupted && AllPassed(results) && AllNamed(results)
  {
    if forall i | 0 <= i < |cases| :: cases[i].verdict == Passed {
      forall k | 0 <= k < |results| ensures !Violated(results[k]) && !Failed(results[k]) && results[k].runId != "" {
        assert cases[k].verdict == Passed;
      }
    }
    if !interrupted && AllPassed(results) && AllNamed(results) {
      forall i | 0 <= i < |cases| ensures cases[i].verdict == Passed {
        assert !IsSkip(cases[i].verdict);
      }
    }
  }
}
