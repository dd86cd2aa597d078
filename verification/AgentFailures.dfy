/**
 How often one failure can be counted.  An automatic inspection of a final response may count a failure past
 its limit, and between two calls that make progress there are at most as many of those as the limit; over
 a run there is no bound by the limit.
 */
module AgentFailures {
  import opened Wrappers
  import opened AgentMachine
  import opened AgentSafety
  import opened AgentResume
  import opened AgentRuns
  import opened AgentCompletion
  import opened AgentGaps
  import opened AgentStorage
  import opened AgentReview
  import Plan = ExecutionPlan

  function Capped(n: nat): nat { if n <= U32_MAX then n else U32_MAX }

  /** The map of repeated failures holds what was counted, saturated. */
  ghost predicate Counts(s: State) {
    forall sig: Signature :: CountOf(s.repeatedFailures, sig) == Capped(s.counted[sig])
  }

  /** No failure of any kind has been counted more than `n` times. */
  ghost predicate Within(s: State, n: nat) {
    Counts(s) && forall sig: Signature :: s.counted[sig] <= n
  }

  ghost predicate OutcomeWithin(p: Progress, running: nat, stopped: nat) {
    match p
    case Running(s) => Within(s, running)
    case Stopped(s, _) => Within(s, stopped)
  }

  predicate SameCounts(s: State, t: State) {
    t.counted == s.counted && t.repeatedFailures == s.repeatedFailures
  }

  lemma CountOne(cfg: Config, s: State, sig: Signature, n: nat)
    requires ValidLimits(cfg) && Within(s, n) && n >= MaxFailures(cfg) - 1
    ensures Within(CountFailure(s, sig), n + 1)
    ensures !AtFailureLimit(cfg, CountFailure(s, sig), sig) ==> Within(CountFailure(s, sig), n)
  {
    var t := CountFailure(s, sig);
    assert t.counted[sig] == s.counted[sig] + 1;
    assert forall other: Signature :: other != sig ==>
             && t.counted[other] == s.counted[other]
             && CountOf(t.repeatedFailures, other) == CountOf(s.repeatedFailures, other);
  }

  // ----- verification -----

  lemma ReportCounts(s: State, r: Report)
    ensures var t := ApplyReport(s, r);
            if r.passed then SameCounts(s, t) else SameCounts(CountFailure(s, ReportSignature(r)), t)
  {
  }

  lemma ReportWithin(cfg: Config, s: State, r: Report, n: nat)
    requires ValidLimits(cfg) && Within(s, n) && n >= MaxFailures(cfg) - 1
    ensures Within(ApplyReport(s, r), n + 1)
    ensures r.passed || !AtFailureLimit(cfg, ApplyReport(s, r), ReportSignature(r)) ==> Within(ApplyReport(s, r), n)
  {
    ReportCounts(s, r);
    CountOne(cfg, s, ReportSignature(r), n);
  }

  lemma {:induction false} ReportsWithin(cfg: Config, s: State, reports: seq<Report>, n: nat)
    requires ValidLimits(cfg) && Within(s, n) && n >= MaxFailures(cfg) - 1
    ensures var (t, repeated) := ApplyReports(cfg, s, reports); Within(t, if repeated then n + 1 else n)
    decreases |reports|
  {
    if reports != [] {
      var next := ApplyReport(s, reports[0]);
      ReportWithin(cfg, s, reports[0], n);
      if !(!reports[0].passed && AtFailureLimit(cfg, next, ReportSignature(reports[0]))) {
        ReportsWithin(cfg, next, reports[1..], n);
      }
    }
  }

  lemma VerificationWithin(cfg: Config, s: State, changedFiles: seq<string>, v: Verification, n: nat)
    requires ValidLimits(cfg) && Within(s, n) && n >= MaxFailures(cfg) - 1
    ensures var r := RunVerification(cfg, s, changedFiles, v);
            r.Checked? ==> Within(r.state, if r.repeated then n + 1 else n)
  {
    match v
    case Reports(reports) => ReportsWithin(cfg, s, reports, n);
    case RunnerError(message) =>
      var failed := PushResult(WithError(s, RUNNER, Summary(message)),
                               CheckResult("verification", Runner, false, Some("unknown")));
      CountOne(cfg, failed, RunnerFailure(message), n);
    case _ =>
  }

  lemma FinishKeepsCounts(s: State, status: Plan.Completion, endHooks: EndHooks)
    ensures SameCounts(s, Finish(s, status, endHooks).state)
  {
  }

  // ----- tool calls -----

  lemma ValidationKeepsCounts(s: State, command: ShellCommand, r: ToolResult)
    ensures SameCounts(s, BookValidation(s, command, r))
  {
  }

  lemma DiagnosticKeepsCounts(s: State, d: Diagnostic)
    ensures SameCounts(s, BookDiagnostic(s, d))
  {
  }

  lemma EffectsKeepCounts(s: State, c: ToolCall, r: ToolResult)
    ensures SameCounts(s, BookEffects(s, c, r))
  {
    var validation := ValidationOf(c);
    if validation.Some? { ValidationKeepsCounts(s, validation.value, r); }
    var s1 := if validation.Some? then BookValidation(s, validation.value, r) else s;
    if r.diagnostic.Some? { DiagnosticKeepsCounts(BookFiles(s1, r), r.diagnostic.value); }
  }

  lemma ConcludeKeepsCounts(s: State, before: nat)
    ensures SameCounts(s, Conclude(s, before))
  {
  }

  lemma EndCallKeepsCounts(s: State, before: nat, r: ToolResult, repeated: bool, endHooks: EndHooks)
    ensures var p := EndCall(s, before, r, repeated, endHooks);
            SameCounts(s, p.state) && (repeated ==> p.Stopped?)
  {
    ConcludeKeepsCounts(s, before);
  }

  lemma VerifyWithin(cfg: Config, s: State, c: ToolCall, r: ToolResult, endHooks: EndHooks, n: nat)
    requires ValidLimits(cfg) && Within(s, n) && n >= MaxFailures(cfg) - 1
    ensures OutcomeWithin(Verify(cfg, s, c, r, endHooks), n, n + 1)
  {
    var shown := if ShowsEditDiff(cfg, r) then BookEditDiff(cfg, s) else s;
    assert SameCounts(s, shown);
    VerificationWithin(cfg, shown, r.changedFiles, c.verification, n);
    match RunVerification(cfg, shown, r.changedFiles, c.verification)
    case PolicyDenied =>
    case Checked(next, repeated) => EndCallKeepsCounts(next, |shown.results|, r, repeated, endHooks);
  }

  lemma AfterBookingWithin(cfg: Config, s: State, c: ToolCall, r: ToolResult, endHooks: EndHooks, n: nat)
    requires ValidLimits(cfg) && Within(s, n) && n >= MaxFailures(cfg) - 1
    ensures OutcomeWithin(AfterBooking(cfg, s, c, r, endHooks), n, n + 1)
  {
    EffectsKeepCounts(s, c, r);
    VerifyWithin(cfg, BookEffects(s, c, r), c, r, endHooks, n);
  }

  lemma FailureWithin(cfg: Config, s: State, c: ToolCall, r: ToolResult, n: nat)
    requires ValidLimits(cfg) && Within(s, n) && n >= MaxFailures(cfg) - 1 && r.isError
    ensures var t := BookResult(NoteEdit(s, r), c, r);
            Within(t, if AtFailureLimit(cfg, t, ToolSignature(c, r)) then n + 1 else n)
  {
    var failed := WithError(NoteEdit(s, r), Tool(c.name), Summary(r.output));
    assert SameCounts(s, failed);
    CountOne(cfg, failed, ToolSignature(c, r), n);
  }

  lemma SuccessKeepsCounts(s: State, c: ToolCall, r: ToolResult)
    requires !r.isError
    ensures SameCounts(s, BookResult(NoteEdit(s, r), c, r))
  {
  }

  lemma AfterToolWithin(cfg: Config, s: State, c: ToolCall, r: ToolResult, endHooks: EndHooks, n: nat)
    requires ValidLimits(cfg) && Within(s, n) && n >= MaxFailures(cfg) - 1
    ensures OutcomeWithin(AfterTool(cfg, s, c, r, endHooks), n, n + 1)
  {
    if r.isError { FailureWithin(cfg, s, c, r, n); } else { SuccessKeepsCounts(s, c, r); }
    var booked := BookResult(NoteEdit(s, r), c, r);
    if !(r.isError && AtFailureLimit(cfg, booked, ToolSignature(c, r))) {
      AfterBookingWithin(cfg, booked, c, r, endHooks, n);
    }
  }

  lemma ExecutionWithin(cfg: Config, s: State, c: ToolCall, endHooks: EndHooks, n: nat)
    requires ValidLimits(cfg) && Within(s, n) && n >= MaxFailures(cfg) - 1
    ensures OutcomeWithin(Execute(cfg, s, c, endHooks), n, n + 1)
  {
    if c.outcome.ToolDone? { AfterToolWithin(cfg, s, c, c.outcome.result, endHooks, n); }
  }

  lemma RepetitionWithin(s: State, attempts: nat, name: string, endHooks: EndHooks, n: nat)
    requires Within(s, n)
    ensures OutcomeWithin(FinishBlocked(Listed(WithError(s, Guard, RepeatedCall(attempts, name))), endHooks), n, n)
  {
    FinishKeepsCounts(Listed(WithError(s, Guard, RepeatedCall(attempts, name))), Plan.Completion.Stuck, endHooks);
  }

  lemma CountedCallWithin(cfg: Config, s: State, c: ToolCall, endHooks: EndHooks, n: nat)
    requires ValidLimits(cfg) && Within(s, n) && n >= MaxFailures(cfg) - 1
    ensures OutcomeWithin(CountedCall(cfg, s, c, endHooks), n, n + 1)
  {
    var seen := CountOf(s.budget.repeatedCalls, CallKeyOf(c));
    if seen > AtLeastOne(cfg.limits.maxRepeatedCalls) {
      RepetitionWithin(s, seen - 1, c.name, endHooks, n);
    } else if !ModeAllows(cfg, c) {
      AfterBookingWithin(cfg, Saved(s), c, Denied(), endHooks, n);
    } else {
      ExecutionWithin(cfg, Issue(Saved(s), Execution(CallKeyOf(c))), c, endHooks, n);
    }
  }

  lemma ToolStepWithin(cfg: Config, s: State, c: ToolCall, endHooks: EndHooks, n: nat)
    requires ValidLimits(cfg) && Within(s, n) && n >= MaxFailures(cfg) - 1
    ensures OutcomeWithin(ToolStep(cfg, s, c, endHooks), n, n + 1)
  {
    CountedCallWithin(cfg, CountCall(s, CallKeyOf(c)), c, endHooks, n);
  }

  lemma {:induction false} ToolStepsWithin(cfg: Config, s: State, calls: seq<ToolCall>, endHooks: EndHooks, n: nat)
    requires ValidLimits(cfg) && Within(s, n) && n >= MaxFailures(cfg) - 1
    ensures OutcomeWithin(ToolSteps(cfg, s, calls, endHooks), n, n + 1)
    decreases |calls|
  {
    if calls != [] {
      ToolStepWithin(cfg, s, calls[0], endHooks, n);
      var p := ToolStep(cfg, s, calls[0], endHooks);
      if p.Running? { ToolStepsWithin(cfg, p.state, calls[1..], endHooks, n); }
    }
  }

  // ----- the pace of automatic inspections -----

  function Allowance(cfg: Config, resets: nat): nat { MaxFailures(cfg) * resets }

  lemma AllowanceGrows(cfg: Config, resets: nat)
    ensures Allowance(cfg, resets + 1) == Allowance(cfg, resets) + MaxFailures(cfg)
  {
  }

  /** Since the last reset there were as many automatic inspections as counted responses, and one that passed. */
  ghost predicate Paced(cfg: Config, s: State) {
    && s.stall.finals <= Allowance(cfg, s.stall.resets) + s.stall.count + (if s.inspected then 1 else 0)
    && s.stall.finals <= Allowance(cfg, s.stall.resets) + MaxFailures(cfg)
  }

  /** The step makes no automatic inspection and keeps the pace. */
  ghost predicate Paces(cfg: Config, s: State, t: State) {
    t.stall.finals == s.stall.finals && (Paced(cfg, s) ==> Paced(cfg, t))
  }

  lemma SameStallPaces(cfg: Config, s: State, t: State)
    requires t.stall == s.stall && (s.inspected ==> t.inspected)
    ensures Paces(cfg, s, t)
  {
  }

  lemma ResetPaces(cfg: Config, s: State, t: State)
    requires t.stall == Stall(0, s.stall.resets + 1, s.stall.finals)
    ensures Paces(cfg, s, t)
  {
    AllowanceGrows(cfg, s.stall.resets);
  }

  lemma {:induction false} ReportsKeepStall(cfg: Config, s: State, reports: seq<Report>)
    ensures ApplyReports(cfg, s, reports).0.stall == s.stall
    decreases |reports|
  {
    if reports != [] { ReportsKeepStall(cfg, ApplyReport(s, reports[0]), reports[1..]); }
  }

  lemma VerificationPaces(cfg: Config, s: State, changedFiles: seq<string>, v: Verification)
    ensures var r := RunVerification(cfg, s, changedFiles, v);
            r.Checked? ==> r.state.stall == s.stall && Paces(cfg, s, r.state)
  {
    if v.Reports? { ReportsKeepStall(cfg, s, v.reports); }
    VerificationInspects(cfg, s, changedFiles, v);
    var r := RunVerification(cfg, s, changedFiles, v);
    if r.Checked? { SameStallPaces(cfg, s, r.state); }
  }

  lemma ValidationKeepsStall(s: State, command: ShellCommand, r: ToolResult)
    ensures BookValidation(s, command, r).stall == s.stall
  {
  }

  lemma DiagnosticKeepsStall(s: State, d: Diagnostic)
    ensures BookDiagnostic(s, d).stall == s.stall
  {
  }

  lemma EffectsPace(cfg: Config, s: State, c: ToolCall, r: ToolResult)
    ensures Paces(cfg, s, BookEffects(s, c, r))
  {
    var validation := ValidationOf(c);
    if validation.Some? { ValidationKeepsStall(s, validation.value, r); }
    var s1 := if validation.Some? then BookValidation(s, validation.value, r) else s;
    if r.diagnostic.Some? { DiagnosticKeepsStall(BookFiles(s1, r), r.diagnostic.value); }
    EffectsReview(s, c, r);
    SameStallPaces(cfg, s, BookEffects(s, c, r));
  }

  lemma ConcludePaces(cfg: Config, s: State, before: nat)
    ensures Paces(cfg, s, Conclude(s, before))
  {
    var t := Conclude(s, before);
    ConcludeKeepsInspection(s, before);
    assert t.stall == s.stall || t.stall == Stall(0, s.stall.resets + 1, s.stall.finals);
    if t.stall == s.stall { SameStallPaces(cfg, s, t); } else { ResetPaces(cfg, s, t); }
  }

  lemma FinishPaces(cfg: Config, s: State, status: Plan.Completion, endHooks: EndHooks)
    ensures Paces(cfg, s, Finish(s, status, endHooks).state)
  {
    SameStallPaces(cfg, s, Finish(s, status, endHooks).state);
  }

  lemma EndCallPaces(cfg: Config, s: State, before: nat, r: ToolResult, repeated: bool, endHooks: EndHooks)
    ensures Paces(cfg, s, EndCall(s, before, r, repeated, endHooks).state)
  {
    var concluded := Conclude(s, before);
    ConcludePaces(cfg, s, before);
    var moved := if Meaningful(r, NewResults(s, before)) then PlanStep(concluded, Plan.ProgressOp) else concluded;
    var reported := Saved(Listed(moved));
    SameStallPaces(cfg, concluded, reported);
    FinishPaces(cfg, reported, Plan.Completion.Stuck, endHooks);
  }

  lemma VerifyPaces(cfg: Config, s: State, c: ToolCall, r: ToolResult, endHooks: EndHooks)
    ensures Paces(cfg, s, Verify(cfg, s, c, r, endHooks).state)
  {
    var shown := if ShowsEditDiff(cfg, r) then BookEditDiff(cfg, s) else s;
    SameStallPaces(cfg, s, shown);
    VerificationPaces(cfg, shown, r.changedFiles, c.verification);
    match RunVerification(cfg, shown, r.changedFiles, c.verification)
    case PolicyDenied =>
    case Checked(next, repeated) => EndCallPaces(cfg, next, |shown.results|, r, repeated, endHooks);
  }

  lemma AfterBookingPaces(cfg: Config, s: State, c: ToolCall, r: ToolResult, endHooks: EndHooks)
    ensures Paces(cfg, s, AfterBooking(cfg, s, c, r, endHooks).state)
  {
    EffectsPace(cfg, s, c, r);
    VerifyPaces(cfg, BookEffects(s, c, r), c, r, endHooks);
  }

  lemma BookedPaces(cfg: Config, s: State, c: ToolCall, r: ToolResult)
    ensures Paces(cfg, s, BookResult(NoteEdit(s, r), c, r))
  {
    var t := BookResult(NoteEdit(s, r), c, r);
    if r.isError {
      assert t.stall == s.stall && t.inspected == s.inspected;
      SameStallPaces(cfg, s, t);
    } else {
      assert t.stall == Stall(0, s.stall.resets + 1, s.stall.finals);
      ResetPaces(cfg, s, t);
    }
  }

  lemma AfterToolPaces(cfg: Config, s: State, c: ToolCall, r: ToolResult, endHooks: EndHooks)
    ensures Paces(cfg, s, AfterTool(cfg, s, c, r, endHooks).state)
  {
    var booked := BookResult(NoteEdit(s, r), c, r);
    BookedPaces(cfg, s, c, r);
    if r.isError && AtFailureLimit(cfg, booked, ToolSignature(c, r)) {
      FinishPaces(cfg, booked, Plan.Completion.Stuck, endHooks);
    } else {
      AfterBookingPaces(cfg, booked, c, r, endHooks);
    }
  }

  lemma ExecutionPaces(cfg: Config, s: State, c: ToolCall, endHooks: EndHooks)
    ensures Paces(cfg, s, Execute(cfg, s, c, endHooks).state)
  {
    match c.outcome
    case ToolError(message) => SameStallPaces(cfg, s, Execute(cfg, s, c, endHooks).state);
    case ToolDone(result) => AfterToolPaces(cfg, s, c, result, endHooks);
  }

  lemma RepetitionPaces(cfg: Config, s: State, attempts: nat, name: string, endHooks: EndHooks)
    ensures Paces(cfg, s, FinishBlocked(Listed(WithError(s, Guard, RepeatedCall(attempts, name))), endHooks).state)
  {
    var guarded := Listed(WithError(s, Guard, RepeatedCall(attempts, name)));
    SameStallPaces(cfg, s, guarded);
    FinishPaces(cfg, guarded, Plan.Completion.Stuck, endHooks);
  }

  lemma CountedCallPaces(cfg: Config, s: State, c: ToolCall, endHooks: EndHooks)
    ensures Paces(cfg, s, CountedCall(cfg, s, c, endHooks).state)
  {
    var seen := CountOf(s.budget.repeatedCalls, CallKeyOf(c));
    if seen > AtLeastOne(cfg.limits.maxRepeatedCalls) {
      RepetitionPaces(cfg, s, seen - 1, c.name, endHooks);
    } else if !ModeAllows(cfg, c) {
      SameStallPaces(cfg, s, Saved(s));
      AfterBookingPaces(cfg, Saved(s), c, Denied(), endHooks);
    } else {
      var executed := Issue(Saved(s), Execution(CallKeyOf(c)));
      SameStallPaces(cfg, s, executed);
      ExecutionPaces(cfg, executed, c, endHooks);
    }
  }

  lemma ToolStepPaces(cfg: Config, s: State, c: ToolCall, endHooks: EndHooks)
    ensures Paces(cfg, s, ToolStep(cfg, s, c, endHooks).state)
  {
    var counted := CountCall(s, CallKeyOf(c));
    SameStallPaces(cfg, s, counted);
    CountedCallPaces(cfg, counted, c, endHooks);
  }

  lemma {:induction false} ToolStepsPace(cfg: Config, s: State, calls: seq<ToolCall>, endHooks: EndHooks)
    ensures Paces(cfg, s, ToolSteps(cfg, s, calls, endHooks).state)
    decreases |calls|
  {
    if calls != [] {
      ToolStepPaces(cfg, s, calls[0], endHooks);
      var p := ToolStep(cfg, s, calls[0], endHooks);
      if p.Running? { ToolStepsPace(cfg, p.state, calls[1..], endHooks); }
    }
  }

  // ----- final responses -----

  lemma ObstaclesKeepCounts(cfg: Config, s: State)
    ensures SameCounts(s, Obstacles(cfg, s))
  {
  }

  lemma GateKeepsCounts(cfg: Config, s: State, endHooks: EndHooks)
    ensures SameCounts(s, Gate(cfg, s, endHooks).state)
  {
    var checked := Obstacles(cfg, s);
    ObstaclesKeepCounts(cfg, s);
    FinishKeepsCounts(checked, Plan.Completion.Done, endHooks);
    FinishKeepsCounts(Waited(checked), Plan.Completion.Stuck, endHooks);
  }

  lemma {:induction false} WaiversKeepCounts(s: State, waivers: seq<string>)
    ensures SameCounts(s, WaiveAll(s, waivers).0)
    decreases |waivers|
  {
    if waivers != [] { WaiversKeepCounts(WaiveOne(s, waivers[0]), waivers[1..]); }
  }

  lemma PlanningKeepsCounts(cfg: Config, s: State, r: Response)
    ensures SameCounts(s, PlanFromText(s, r)) && SameCounts(s, PlanAnswer(cfg, s, r))
  {
  }

  /** Every failure counted past the limit has an automatic inspection to its name. */
  ghost predicate Tallied(cfg: Config, s: State) { Within(s, MaxFailures(cfg) - 1 + s.stall.finals) }

  lemma GateKeepsFinals(cfg: Config, s: State, endHooks: EndHooks)
    requires s.listing == Listing(s.errors, []) && s.stall.count <= U32_MAX
    ensures var p := Gate(cfg, s, endHooks);
            && p.state.stall.finals == s.stall.finals && p.state.stall.resets == s.stall.resets
            && p.state.inspected == s.inspected
            && (Uninspected(cfg, s) ==> p.state.stall.count == Increment(s.stall.count))
            && s.stall.count <= p.state.stall.count
  {
    ObstaclesAreQuiet(cfg, s);
    ObstaclesLeave(cfg, s);
    ObstaclesKeepStall(cfg, s);
  }

  lemma ObstaclesKeepStall(cfg: Config, s: State)
    ensures Obstacles(cfg, s).stall == s.stall && Obstacles(cfg, s).inspected == s.inspected
  {
  }

  lemma GateIsPaced(cfg: Config, s: State, endHooks: EndHooks)
    requires Paced(cfg, s) && s.listing == Listing(s.errors, []) && s.stall.count <= U32_MAX
    ensures Paced(cfg, Gate(cfg, s, endHooks).state)
    ensures Gate(cfg, s, endHooks).state.stall.finals == s.stall.finals
  {
    GateKeepsFinals(cfg, s, endHooks);
  }

  /** The automatic inspection spends one: it passes, or the response is counted. */
  lemma InspectionIsPaced(cfg: Config, s: State, next: State, endHooks: EndHooks)
    requires ValidLimits(cfg) && Paced(cfg, s) && Uninspected(cfg, s) && s.stall.count < MaxFailures(cfg)
    requires next.stall == s.stall && next.changed == s.changed && next.listing == Listing(next.errors, [])
    ensures var judged := Judged(next, |s.results|);
            && judged.stall.finals == s.stall.finals + 1
            && Paced(cfg, if judged.inspected then judged else Gate(cfg, judged, endHooks).state)
            && (!judged.inspected ==> Gate(cfg, judged, endHooks).state.stall.finals == s.stall.finals + 1)
  {
    var judged := Judged(next, |s.results|);
    if !judged.inspected { GateKeepsFinals(cfg, judged, endHooks); }
  }

  lemma InspectAndGateIsTallied(cfg: Config, s: State, check: Verification, endHooks: EndHooks)
    requires ValidLimits(cfg) && Tallied(cfg, s) && Paced(cfg, s) && s.stall.count < MaxFailures(cfg)
    requires Bounded(s) && s.listing == Listing(s.errors, [])
    ensures var t := InspectAndGate(cfg, s, check, endHooks).state; Tallied(cfg, t) && Paced(cfg, t)
  {
    if Uninspected(cfg, s) && cfg.gitAvailable && cfg.hasVerifier {
      VerificationWithin(cfg, s, s.changed, check, MaxFailures(cfg) - 1 + s.stall.finals);
      VerificationPaces(cfg, s, s.changed, check);
      VerificationKeepsChanged(cfg, s, s.changed, check);
      VerificationIsQuiet(cfg, s, s.changed, check);
      match RunVerification(cfg, s, s.changed, check)
      case PolicyDenied =>
      case Checked(next, _) =>
        InspectionIsPaced(cfg, s, next, endHooks);
        GateKeepsCounts(cfg, Judged(next, |s.results|), endHooks);
    } else {
      GateKeepsCounts(cfg, s, endHooks);
      GateIsPaced(cfg, s, endHooks);
    }
  }

  lemma PlanningKeepsStall(cfg: Config, s: State, r: Response)
    ensures PlanFromText(s, r).stall == s.stall && PlanAnswer(cfg, s, r).stall == s.stall
  {
  }

  lemma {:induction false} WaiversKeepStall(s: State, waivers: seq<string>)
    ensures WaiveAll(s, waivers).0.stall == s.stall
    decreases |waivers|
  {
    if waivers != [] { WaiversKeepStall(WaiveOne(s, waivers[0]), waivers[1..]); }
  }

  /** Counts, pace, windows: all that a final response needs. */
  ghost predicate Countable(cfg: Config, s: State) {
    Tallied(cfg, s) && Paced(cfg, s) && s.stall.count < MaxFailures(cfg) && Bounded(s)
  }

  lemma PlanningKeepsCountable(cfg: Config, s: State, r: Response)
    requires Countable(cfg, s)
    ensures Countable(cfg, PlanFromText(s, r)) && Countable(cfg, PlanAnswer(cfg, s, r))
  {
    PlanningKeepsCounts(cfg, s, r);
    PlanningKeepsStall(cfg, s, r);
    PlanningKeepsReview(cfg, s, r);
  }

  lemma WaiversKeepCountable(cfg: Config, s: State, waivers: seq<string>)
    requires Countable(cfg, s)
    ensures Countable(cfg, ApplyWaivers(s, waivers))
  {
    WaiversKeepCounts(s, waivers);
    WaiversKeepStall(s, waivers);
    WaiversKeepReview(s, waivers);
    ApplyWaiversIsQuiet(s, waivers);
  }

  lemma CompleteIsTallied(cfg: Config, s: State, r: Response)
    requires ValidLimits(cfg) && Countable(cfg, s)
    ensures var t := Complete(cfg, s, r).state; Tallied(cfg, t) && Paced(cfg, t)
  {
    var answered := PlanAnswer(cfg, s, r);
    PlanningKeepsCountable(cfg, s, r);
    WaiversKeepCountable(cfg, answered, r.waivers);
    ApplyWaiversIsQuiet(answered, r.waivers);
    InspectAndGateIsTallied(cfg, ApplyWaivers(answered, r.waivers), r.finalCheck, r.endHooks);
  }

  lemma FinishIsTallied(cfg: Config, s: State, status: Plan.Completion, endHooks: EndHooks)
    requires Tallied(cfg, s) && Paced(cfg, s)
    ensures var t := Finish(s, status, endHooks).state; Tallied(cfg, t) && Paced(cfg, t)
  {
    FinishKeepsCounts(s, status, endHooks);
    FinishPaces(cfg, s, status, endHooks);
  }

  lemma FinalResponseIsTallied(cfg: Config, s: State, r: Response)
    requires ValidLimits(cfg) && Countable(cfg, s)
    ensures var t := FinalResponse(cfg, s, r).state; Tallied(cfg, t) && Paced(cfg, t)
  {
    PlanningKeepsCountable(cfg, s, r);
    if r.directive.NoDirective? {
      CompleteIsTallied(cfg, PlanFromText(s, r), r);
    } else {
      FinishIsTallied(cfg, PlanFromText(s, r), StopStatus(r.directive), r.endHooks);
    }
  }

  // ----- turns and runs -----

  lemma AbsorbKeepsCounts(s: State, r: Response)
    ensures SameCounts(s, Absorb(s, r))
  {
    assert SameCounts(s, ProviderAnswered(s));
    assert SameCounts(s, Replan(ProviderAnswered(s), r));
  }

  lemma AnswerIsCountable(cfg: Config, s: State, t: Turn)
    requires t.model.Answered? && Countable(cfg, s)
    ensures Countable(cfg, Answer(s, t)) && Answer(s, t).stall == s.stall
  {
    AbsorbKeepsCounts(Request(s), t.model.response);
    AnswerErrors(s, t);
    AnswerKeepsStall(s, t);
  }

  lemma AnswerKeepsStall(s: State, t: Turn)
    requires t.model.Answered?
    ensures Answer(s, t).stall == s.stall
  {
    assert ProviderAnswered(Request(s)).stall == s.stall;
    assert Replan(ProviderAnswered(Request(s)), t.model.response).stall == s.stall;
  }

  /** What holds of the outcome of every turn. */
  ghost predicate OutcomeTallied(cfg: Config, p: Progress) {
    && Paced(cfg, p.state)
    && (if p.Running? then Tallied(cfg, p.state) else Within(p.state, MaxFailures(cfg) + p.state.stall.finals))
  }

  lemma AbortIsTallied(cfg: Config, s: State, status: Plan.Completion)
    requires Tallied(cfg, s) && Paced(cfg, s)
    ensures OutcomeTallied(cfg, Abort(s, status))
  {
    SameStallPaces(cfg, s, Abort(s, status).state);
  }

  lemma AfterResponseIsTallied(cfg: Config, s: State, t: Turn, r: Response)
    requires ValidLimits(cfg) && Countable(cfg, s)
    ensures OutcomeTallied(cfg, AfterResponse(cfg, s, t, r))
  {
    match LimitReached(cfg, s.budget, t.cancelledAfter, t.expiredAfter)
    case Some(status) => AbortIsTallied(cfg, s, status);
    case None =>
      if r.calls == [] {
        FinalResponseIsTallied(cfg, s, r);
      } else if s.budget.turns >= cfg.limits.maxTurns {
        AbortIsTallied(cfg, s, Plan.Completion.ResourceLimitReached);
      } else {
        ToolStepsWithin(cfg, s, r.calls, r.endHooks, MaxFailures(cfg) - 1 + s.stall.finals);
        ToolStepsPace(cfg, s, r.calls, r.endHooks);
      }
  }

  lemma RequestIsTallied(cfg: Config, s: State)
    requires Tallied(cfg, s) && Paced(cfg, s)
    ensures Tallied(cfg, BeginTurn(s)) && Paced(cfg, BeginTurn(s)) && Tallied(cfg, Request(s)) && Paced(cfg, Request(s))
  {
    SameStallPaces(cfg, s, BeginTurn(s));
    SameStallPaces(cfg, s, Request(s));
  }

  lemma TurnIsTallied(cfg: Config, s: State, t: Turn)
    requires ValidLimits(cfg) && Countable(cfg, s)
    ensures OutcomeTallied(cfg, TurnStep(cfg, s, t))
  {
    RequestIsTallied(cfg, s);
    match LimitReached(cfg, s.budget, t.cancelledBefore, t.expiredBefore)
    case Some(status) => AbortIsTallied(cfg, s, status);
    case None =>
      if t.prepared {
        match t.model
        case ModelCancelled => AbortIsTallied(cfg, Request(s), Plan.Completion.Cancelled);
        case ModelFailed(message) =>
          SameStallPaces(cfg, Request(s), Push(Request(s), ProviderFailure(message)));
          AbortIsTallied(cfg, Push(Request(s), ProviderFailure(message)), Plan.Completion.Stuck);
        case Answered(response) =>
          AnswerIsCountable(cfg, s, t);
          AfterResponseIsTallied(cfg, Answer(s, t), t, response);
      }
  }

  lemma {:induction false} RunIsTallied(cfg: Config, s: State, turns: seq<Turn>)
    requires ValidLimits(cfg) && Live(cfg, s) && Tallied(cfg, s) && Paced(cfg, s)
    ensures OutcomeTallied(cfg, RunFrom(cfg, s, turns))
    decreases |turns|
  {
    if turns != [] {
      TurnIsTallied(cfg, s, turns[0]);
      TurnIsGood(cfg, s, turns[0]);
      var p := TurnStep(cfg, s, turns[0]);
      if p.Running? { RunIsTallied(cfg, p.state, turns[1..]); }
    }
  }

  /**
   Main result: in any run a failure of any kind is counted at most as often as the limit plus the number of
   automatic inspections, and between two resets of the no-progress count there are at most as many of
   those as the limit.
   */
  lemma AnyFailureIsCountedBoundedly(cfg: Config, stored: Stored, turns: seq<Turn>, sig: Signature)
    requires ValidLimits(cfg) && ValidStored(stored)
    ensures var s := RunFromStart(cfg, stored, turns).state;
            && s.counted[sig] <= MaxFailures(cfg) + s.stall.finals
            && s.stall.finals <= MaxFailures(cfg) * (s.stall.resets + 1)
  {
    StartIsLive(cfg, stored);
    RunIsTallied(cfg, Start(cfg, stored), turns);
    AllowanceGrows(cfg, RunFromStart(cfg, stored, turns).state.stall.resets);
  }

  // ----- a failure counted any number of times -----

  /** A response that claims completion on an uninspected change, and whose automatic inspection fails. */
  predicate FailedCheck(cfg: Config, t: Turn, r: Report) {
    Undisturbed(cfg, t) && PlainAnswer(t) && t.model.response.finalCheck == Reports([r]) && !r.passed
  }

  /** A turn with one successful call that changes nothing. */
  predicate Progresses(cfg: Config, t: Turn, c: ToolCall) {
    Undisturbed(cfg, t) && t.model.response.calls == [c] && SucceedsWithoutEditing(c)
  }

  /** An uninspected change, a result list within its window, and no response counted yet. */
  predicate Waiting(cfg: Config, s: State) {
    Uninspected(cfg, s) && Bounded(s) && s.stall.count == 0
  }

  /** The state the final response is looked at in. */
  function Claimed(cfg: Config, s: State, t: Turn): State
    requires t.model.Answered?
  {
    var r := t.model.response;
    ApplyWaivers(PlanAnswer(cfg, PlanFromText(Answer(s, t), r), r), r.waivers)
  }

  lemma ClaimedKeeps(cfg: Config, s: State, t: Turn)
    requires t.model.Answered? && Bounded(s)
    ensures var u := Claimed(cfg, s, t);
            && u.stall == s.stall && SameCounts(s, u)
            && u.changed == s.changed && u.inspected == s.inspected && |u.results| == |s.results|
            && u.budget == Answer(s, t).budget && u.listing == Listing(u.errors, [])
  {
    var r := t.model.response;
    var a := Answer(s, t);
    var b := PlanFromText(a, r);
    AnswerKeepsStall(s, t);
    AbsorbKeepsCounts(Request(s), r);
    AnswerErrors(s, t);
    PlanningKeepsCounts(cfg, a, r);
    PlanningKeepsStall(cfg, a, r);
    PlanningKeepsReview(cfg, a, r);
    PlanningKeepsCounts(cfg, b, r);
    PlanningKeepsStall(cfg, b, r);
    PlanningKeepsReview(cfg, b, r);
    var c := PlanAnswer(cfg, b, r);
    assert c.budget == b.budget == a.budget;
    WaiversKeepCounts(c, r.waivers);
    WaiversKeepStall(c, r.waivers);
    WaiversKeepFiles(c, r.waivers);
    ApplyWaiversIsQuiet(c, r.waivers);
  }

  lemma OneFailedReport(cfg: Config, s: State, r: Report)
    requires !r.passed
    ensures CheckFailures(cfg, s, Reports([r])) == multiset{ReportSignature(r)} && !FindsDiff(cfg, s, Reports([r]))
  {
    assert Booked(cfg, s, [r]) == 1 && [r][..1] == [r] && [r][1..] == [];
    assert FailuresOf([r]) == FailureOf(r) + FailuresOf([]);
  }

  /** One failed inspection: counted, and the run goes on with the change still uninspected. */
  lemma FailedInspection(cfg: Config, s: State, r: Report, endHooks: EndHooks)
    requires Waiting(cfg, s) && cfg.gitAvailable && cfg.hasVerifier && !r.passed && MaxFailures(cfg) >= 2
    requires s.listing == Listing(s.errors, [])
    ensures var p := InspectAndGate(cfg, s, Reports([r]), endHooks);
            && p.Running? && p.state.stall.count == 1 && Uninspected(cfg, p.state) && Bounded(p.state)
            && p.state.counted[ReportSignature(r)] == s.counted[ReportSignature(r)] + 1
            && p.state.budget == s.budget
  {
    var check := Reports([r]);
    var next := RunVerification(cfg, s, s.changed, check).state;
    FinalCheckStopsExactlyWhen(cfg, s, check, endHooks);
    OneFailedReport(cfg, s, r);
    CheckFindsDiff(cfg, s, check);
    CheckKeepsFiles(cfg, s, check);
    VerificationIsQuiet(cfg, s, s.changed, check);
    ObstaclesAreQuiet(cfg, Judged(next, |s.results|));
  }

  lemma CheckTurn(cfg: Config, s: State, t: Turn, r: Report) returns (next: State)
    requires Waiting(cfg, s) && cfg.gitAvailable && cfg.hasVerifier && MaxFailures(cfg) >= 2 && FailedCheck(cfg, t, r)
    requires s.budget.turns < cfg.limits.maxTurns && s.budget.toolCalls <= cfg.limits.maxToolCalls
    ensures TurnStep(cfg, s, t) == Running(next) && next.stall.count == 1 && Uninspected(cfg, next) && Bounded(next)
    ensures next.counted[ReportSignature(r)] == s.counted[ReportSignature(r)] + 1
    ensures next.budget.turns == s.budget.turns + 1 && next.budget.toolCalls == s.budget.toolCalls
    ensures next.budget.repeatedCalls == s.budget.repeatedCalls
  {
    UndisturbedInTime(cfg, s, t);
    PlainAnswerTurn(cfg, s, t);
    ClaimedKeeps(cfg, s, t);
    FailedInspection(cfg, Claimed(cfg, s, t), r, t.model.response.endHooks);
    next := TurnStep(cfg, s, t).state;
  }

  /** One successful call without changes resets the count of responses, and nothing else of interest. */
  lemma ProgressingCall(cfg: Config, s: State, c: ToolCall, endHooks: EndHooks)
    requires SucceedsWithoutEditing(c) && Answers(cfg, s, c) && Uninspected(cfg, s) && Bounded(s)
    ensures var p := ToolStep(cfg, s, c, endHooks);
            && p.Running? && Waiting(cfg, p.state) && p.state.counted == s.counted
            && p.state.budget == Issue(CountCall(s, CallKeyOf(c)), Execution(CallKeyOf(c))).budget
  {
    RunsTheCall(cfg, s, c, endHooks);
  }

  lemma ProgressTurn(cfg: Config, s: State, t: Turn, c: ToolCall) returns (next: State)
    requires Uninspected(cfg, s) && Bounded(s) && Progresses(cfg, t, c)
    requires s.budget.turns + 1 < cfg.limits.maxTurns && s.budget.toolCalls < cfg.limits.maxToolCalls
    requires CountOf(s.budget.repeatedCalls, CallKeyOf(c)) < AtLeastOne(cfg.limits.maxRepeatedCalls) <= U32_MAX
    ensures TurnStep(cfg, s, t) == Running(next) && Waiting(cfg, next) && next.counted == s.counted
    ensures next.budget.turns == s.budget.turns + 1 && next.budget.toolCalls == s.budget.toolCalls + 1
    ensures CountOf(next.budget.repeatedCalls, CallKeyOf(c)) == CountOf(s.budget.repeatedCalls, CallKeyOf(c)) + 1
  {
    var a := Answer(s, t);
    UndisturbedInTime(cfg, s, t);
    AnswerErrors(s, t);
    AbsorbKeepsCounts(Request(s), t.model.response);
    CallsTurn(cfg, s, t);
    OneCall(cfg, a, c, t.model.response.endHooks);
    ProgressingCall(cfg, a, c, t.model.response.endHooks);
    next := TurnStep(cfg, s, t).state;
  }

  function Cycles(check: Turn, work: Turn, k: nat): seq<Turn>
    decreases k
  {
    if k == 0 then [] else [check, work] + Cycles(check, work, k - 1)
  }

  /** The run over turns for any step, so that runs can be reasoned about without looking into a turn. */
  ghost function RunWith(step: (State, Turn) -> Progress, s: State, turns: seq<Turn>): Progress
    decreases |turns|
  {
    if turns == [] then Running(s)
    else
      match step(s, turns[0])
      case Running(next) => RunWith(step, next, turns[1..])
      case Stopped(next, exit) => Stopped(next, exit)
  }

  function StepOf(cfg: Config): (State, Turn) -> Progress { (s, t) => TurnStep(cfg, s, t) }

  lemma {:induction false} RunWithTurns(cfg: Config, s: State, turns: seq<Turn>)
    ensures RunWith(StepOf(cfg), s, turns) == RunFrom(cfg, s, turns)
    decreases |turns|
  {
    if turns != [] {
      var p := TurnStep(cfg, s, turns[0]);
      if p.Running? { RunWithTurns(cfg, p.state, turns[1..]); }
    }
  }

  lemma {:induction false} RunWithInTurn(step: (State, Turn) -> Progress, s: State, turns: seq<Turn>, more: seq<Turn>)
    ensures var p := RunWith(step, s, turns);
            RunWith(step, s, turns + more) == if p.Running? then RunWith(step, p.state, more) else p
    decreases |turns|
  {
    if turns == [] {
      assert turns + more == more;
    } else {
      assert (turns + more)[1..] == turns[1..] + more;
      var p := step(s, turns[0]);
      if p.Running? { RunWithInTurn(step, p.state, turns[1..], more); }
    }
  }

  /** A run over turns, and then over more of them if it goes on. */
  lemma RunInTurn(cfg: Config, s: State, turns: seq<Turn>, more: seq<Turn>)
    ensures var p := RunFrom(cfg, s, turns);
            RunFrom(cfg, s, turns + more) == if p.Running? then RunFrom(cfg, p.state, more) else p
  {
    RunWithTurns(cfg, s, turns);
    RunWithTurns(cfg, s, turns + more);
    var p := RunFrom(cfg, s, turns);
    if p.Running? { RunWithTurns(cfg, p.state, more); }
    RunWithInTurn(StepOf(cfg), s, turns, more);
  }

  ghost predicate Cycle(step: (State, Turn) -> Progress, s: State, check: Turn, work: Turn, next: State) {
    exists between :: step(s, check) == Running(between) && step(between, work) == Running(next)
  }

  lemma TwoMoreTurns(step: (State, Turn) -> Progress, s: State, first: Turn, second: Turn, rest: seq<Turn>, next: State)
    requires Cycle(step, s, first, second, next)
    ensures RunWith(step, s, [first, second] + rest) == RunWith(step, next, rest)
  {
    var turns := [first, second] + rest;
    var between :| step(s, first) == Running(between) && step(between, second) == Running(next);
    assert turns[0] == first && turns[1..] == [second] + rest && turns[1..][1..] == rest;
  }

  /** Each cycle counts the failure once and leaves room for one less. */
  ghost predicate CyclesOn(step: (State, Turn) -> Progress, check: Turn, work: Turn, sig: Signature,
                           waits: (State, nat) -> bool) {
    forall s, k: nat {:trigger waits(s, k)} :: waits(s, k) && k > 0 ==>
      exists next :: Cycle(step, s, check, work, next) && waits(next, k - 1) && next.counted[sig] == s.counted[sig] + 1
  }

  lemma {:induction false} CyclesCount(step: (State, Turn) -> Progress, s: State, check: Turn, work: Turn,
                                       sig: Signature, waits: (State, nat) -> bool, k: nat)
    requires CyclesOn(step, check, work, sig, waits) && waits(s, k)
    ensures var p := RunWith(step, s, Cycles(check, work, k));
            p.Running? && p.state.counted[sig] == s.counted[sig] + k && waits(p.state, 0)
    decreases k
  {
    if k > 0 {
      var next :| Cycle(step, s, check, work, next) && waits(next, k - 1) && next.counted[sig] == s.counted[sig] + 1;
      TwoMoreTurns(step, s, check, work, Cycles(check, work, k - 1), next);
      CyclesCount(step, next, check, work, sig, waits, k - 1);
    }
  }

  /** The limits leave room for k more cycles. */
  predicate Room(cfg: Config, s: State, c: ToolCall, k: nat) {
    && s.budget.turns + 2 * k < cfg.limits.maxTurns && s.budget.toolCalls + k <= cfg.limits.maxToolCalls
    && CountOf(s.budget.repeatedCalls, CallKeyOf(c)) + k <= AtLeastOne(cfg.limits.maxRepeatedCalls) <= U32_MAX
  }

  predicate Cyclic(cfg: Config, check: Turn, work: Turn, r: Report, c: ToolCall) {
    && cfg.gitAvailable && cfg.hasVerifier && MaxFailures(cfg) >= 2
    && FailedCheck(cfg, check, r) && Progresses(cfg, work, c)
  }

  ghost function WaitsOf(cfg: Config, c: ToolCall): (State, nat) -> bool {
    (s, k: nat) => Waiting(cfg, s) && Room(cfg, s, c, k)
  }

  lemma OneCycle(cfg: Config, s: State, check: Turn, work: Turn, r: Report, c: ToolCall, k: nat) returns (end: State)
    requires Waiting(cfg, s) && Cyclic(cfg, check, work, r, c) && k > 0 && Room(cfg, s, c, k)
    ensures Cycle(StepOf(cfg), s, check, work, end)
    ensures Waiting(cfg, end) && Room(cfg, end, c, k - 1)
    ensures end.counted[ReportSignature(r)] == s.counted[ReportSignature(r)] + 1
  {
    var s1 := CheckTurn(cfg, s, check, r);
    end := ProgressTurn(cfg, s1, work, c);
    assert StepOf(cfg)(s, check) == Running(s1) && StepOf(cfg)(s1, work) == Running(end);
  }

  lemma CyclesGoOn(cfg: Config, check: Turn, work: Turn, r: Report, c: ToolCall)
    requires Cyclic(cfg, check, work, r, c)
    ensures CyclesOn(StepOf(cfg), check, work, ReportSignature(r), WaitsOf(cfg, c))
  {
    forall s, k: nat | WaitsOf(cfg, c)(s, k) && k > 0
      ensures exists next ::
                && Cycle(StepOf(cfg), s, check, work, next)
                && WaitsOf(cfg, c)(next, k - 1)
                && next.counted[ReportSignature(r)] == s.counted[ReportSignature(r)] + 1
    {
      var next := OneCycle(cfg, s, check, work, r, c, k);
    }
  }

  /**
   So a check failure can be counted any number of times while the run goes on, whatever its limit is from
   two upwards: an uninspected change, an answer whose automatic inspection fails, a call that succeeds, and
   so on.
   */
  lemma CheckFailurePassesItsLimit(cfg: Config, stored: Stored, check: Turn, work: Turn, r: Report, c: ToolCall, k: nat)
    requires ValidLimits(cfg) && ValidStored(stored) && stored.changed != [] && !stored.inspected
    requires cfg.mode == Code && cfg.gitAvailable && cfg.hasVerifier && cfg.limits.maxRepeatedFailures >= 2
    requires FailedCheck(cfg, check, r) && Progresses(cfg, work, c)
    requires 2 * k < cfg.limits.maxTurns && k <= cfg.limits.maxToolCalls && k <= cfg.limits.maxRepeatedCalls
    ensures var p := RunFromStart(cfg, stored, Cycles(check, work, k));
            p.Running? && p.state.counted[ReportSignature(r)] == k
  {
    var start := Start(cfg, stored);
    assert Waiting(cfg, start) && Room(cfg, start, c, k);
    assert WaitsOf(cfg, c)(start, k);
    CyclesGoOn(cfg, check, work, r, c);
    CyclesCount(StepOf(cfg), start, check, work, ReportSignature(r), WaitsOf(cfg, c), k);
    RunWithTurns(cfg, start, Cycles(check, work, k));
  }

}
