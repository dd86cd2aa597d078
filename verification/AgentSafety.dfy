/**
 What every run of the agent loop keeps: a run that ends Done has no unresolved error and a
 reviewed diff, and every resource stays under its ceiling.
 */
module AgentSafety {
  import opened Wrappers
  import opened Text
  import opened AgentMachine
  import Plan = ExecutionPlan

  // ----- reading the review log -----

  /** A diff inspection stands at or after the last edit that was not an error. */
  ghost predicate Reviewed(log: seq<ReviewEvent>) {
    exists i :: 0 <= i < |log| && log[i] == DiffInspected && NoEditAfter(log, i)
  }

  predicate NoEditAfter(log: seq<ReviewEvent>, i: nat) {
    forall j :: i < j < |log| ==> log[j] != Edited(false)
  }

  lemma InspectionReviews(log: seq<ReviewEvent>)
    ensures Reviewed(log + [DiffInspected])
  {
    assert NoEditAfter(log + [DiffInspected], |log|);
  }

  lemma FailedEditKeepsReview(log: seq<ReviewEvent>)
    requires Reviewed(log)
    ensures Reviewed(log + [Edited(true)])
  {
    var i :| 0 <= i < |log| && log[i] == DiffInspected && NoEditAfter(log, i);
    var longer := log + [Edited(true)];
    assert longer[i] == DiffInspected && NoEditAfter(longer, i);
  }

  // ----- invariants -----

  /** The limits are 32-bit numbers. */
  predicate ValidLimits(cfg: Config) {
    && cfg.limits.maxToolCalls <= U32_MAX
    && cfg.limits.maxRepeatedCalls <= U32_MAX
    && cfg.limits.maxRepeatedFailures <= U32_MAX
  }

  function MaxExecutions(cfg: Config): nat { AtLeastOne(cfg.limits.maxRepeatedCalls) }

  function MaxFailures(cfg: Config): nat { AtLeastOne(cfg.limits.maxRepeatedFailures) }

  /** How many tools have been executed, over all calls. */
  function Executions(b: Budget): int { |b.issued| - b.issued[ModelRequest] }

  ghost predicate CallBounds(cfg: Config, b: Budget) {
    && Executions(b) <= b.toolCalls <= cfg.limits.maxToolCalls
    && forall key ::
         b.issued[Execution(key)] <= CountOf(b.repeatedCalls, key) <= b.toolCalls
         && b.issued[Execution(key)] <= MaxExecutions(cfg)
  }

  ghost predicate BudgetBounds(cfg: Config, b: Budget) {
    b.issued[ModelRequest] <= b.turns <= cfg.limits.maxTurns + 1 && CallBounds(cfg, b)
  }

  /** No failure of a tool has been counted more than `most` times. */
  ghost predicate FailureBounds(s: State, most: nat) {
    forall sig: Signature :: sig.ToolFailure? ==> s.counted[sig] <= CountOf(s.repeatedFailures, sig) <= most
  }

  predicate Bounded(s: State) { |s.results| <= WINDOW && |s.changed| <= WINDOW }

  /** A planning answer is installed once in a task, and the task remembers it. */
  predicate PlanOnce(ops: seq<Plan.Op>, structured: bool) { Plan.Installs(ops) <= if structured then 1 else 0 }

  /** The same of what the session has, and its lists fit their windows. */
  predicate Kept(s: State) {
    && PlanOnce(s.planOps, s.structured) && PlanOnce(s.saved.planOps, s.saved.structured)
    && |s.saved.results| <= WINDOW && |s.saved.changed| <= WINDOW
  }

  /** The session has the task run as it is. */
  predicate Current(s: State) { s.saved == SnapshotOf(s) }

  /** The flag for an inspected diff is backed by the log. */
  ghost predicate Honest(s: State) { s.inspected ==> Reviewed(s.review) }

  /** Holds of every state, also of one a run stops in. */
  ghost predicate Bounds(cfg: Config, s: State) {
    BudgetBounds(cfg, s.budget) && FailureBounds(s, MaxFailures(cfg)) && Bounded(s) && Kept(s) && Honest(s)
  }

  predicate WithinLimits(cfg: Config, b: Budget) {
    && b.turns <= cfg.limits.maxTurns
    && (cfg.limits.maxModelTokens > 0 ==> b.modelTokens <= cfg.limits.maxModelTokens)
    && (cfg.limits.maxCost.Some? && b.cost.Some? ==> b.cost.value <= cfg.limits.maxCost.value)
  }

  /** Holds of every state between a request and the next one. */
  ghost predicate Live(cfg: Config, s: State) {
    && BudgetBounds(cfg, s.budget) && FailureBounds(s, MaxFailures(cfg) - 1) && Bounded(s) && Kept(s)
    && Honest(s) && s.stall.count < MaxFailures(cfg)
  }

  /** Holds of every state the tool calls and the gate start from. */
  ghost predicate Ready(cfg: Config, s: State) { Live(cfg, s) && WithinLimits(cfg, s.budget) }

  /** What Done means. */
  ghost predicate ReallyDone(cfg: Config, s: State) {
    && s.errors == map[] && s.listing == NOTHING_LISTED
    && !Uninspected(cfg, s) && (cfg.mode == Code && s.changed != [] ==> Reviewed(s.review))
    && s.planOps != [] && s.planOps[|s.planOps| - 1] == Plan.FinishOp(Plan.Completion.Done)
  }

  /** What holds of every outcome of turn number `turn`. */
  ghost predicate Good(cfg: Config, turn: nat, p: Progress) {
    match p
    case Running(s) => Ready(cfg, s) && Current(s) && s.budget.turns == turn
    case Stopped(s, exit) =>
      && Bounds(cfg, s)
      && (exit != Aborted(Plan.Completion.Working) ==> Current(s))
      && (exit.Ended? ==> WithinLimits(cfg, s.budget))
      && (exit == Ended(Plan.Completion.Done) ==> ReallyDone(cfg, s))
  }

  // ----- steps that only book observations -----

  ghost predicate SameToolFailures(s: State, t: State) {
    forall sig: Signature :: sig.ToolFailure? ==>
      t.counted[sig] == s.counted[sig] && CountOf(t.repeatedFailures, sig) == CountOf(s.repeatedFailures, sig)
  }

  ghost predicate Quiet(s: State, t: State) {
    && t.budget == s.budget && SameToolFailures(s, t)
    && t.planOps == s.planOps && t.structured == s.structured && t.saved == s.saved
    && (Honest(s) ==> Honest(t))
    && t.stall.count <= s.stall.count
    && (Bounded(s) ==> |s.results| <= |t.results| && Bounded(t))
  }

  lemma QuietThenQuiet(s: State, t: State, u: State)
    requires Quiet(s, t) && Quiet(t, u)
    ensures Quiet(s, u)
  {
  }

  lemma QuietKeeps(cfg: Config, s: State, t: State)
    requires Quiet(s, t)
    ensures Live(cfg, s) ==> Live(cfg, t)
    ensures Bounds(cfg, s) ==> Bounds(cfg, t)
  {
  }

  lemma InspectionIsQuiet(s: State)
    ensures Quiet(s, Inspected(s)) && Reviewed(Inspected(s).review)
  {
    InspectionReviews(s.review);
  }

  lemma PushIsQuiet(s: State, r: CheckResult)
    ensures Quiet(s, PushResult(s, r))
  {
  }

  lemma CountCheckIsQuiet(s: State, signature: Signature)
    requires !signature.ToolFailure?
    ensures Quiet(s, CountFailure(s, signature))
  {
  }

  /** Errors, the listing and the validation flag may change freely. */
  lemma NotesAreQuiet(s: State, errors: Errors, listing: Listing, validated: bool)
    ensures Quiet(s, s.(errors := errors, listing := listing, validated := validated))
  {
  }

  lemma ReportIsQuiet(s: State, r: Report)
    ensures Quiet(s, ApplyReport(s, r))
  {
    var seen := if ShowsDiff(r) then Inspected(s) else s;
    var result := ResultOf(r);
    InspectionIsQuiet(s);
    PushIsQuiet(seen, result);
    var pushed := PushResult(seen, result);
    QuietThenQuiet(s, seen, pushed);
    var booked := pushed.(errors := ReportErrors(pushed.errors, r));
    NotesAreQuiet(pushed, booked.errors, pushed.listing, pushed.validated);
    QuietThenQuiet(s, pushed, booked);
    CountCheckIsQuiet(booked, ReportSignature(r));
    QuietThenQuiet(s, booked, CountFailure(booked, ReportSignature(r)));
  }

  // ----- verification -----

  /** A diff that passed in the results pushed since `before` has been logged. */
  ghost predicate WindowHonest(s: State, before: nat) {
    DiffPassed(NewResults(s, before)) ==> Reviewed(s.review)
  }

  lemma PushKeepsWindow(s: State, result: CheckResult, before: nat)
    requires before <= |s.results| <= WINDOW && WindowHonest(s, before)
    requires !(result.kind == Reported(GitDiff) && result.passed)
    ensures WindowHonest(PushResult(s, result), before)
  {
  }

  lemma ReportKeepsWindow(s: State, r: Report, before: nat)
    requires before <= |s.results| <= WINDOW && WindowHonest(s, before)
    ensures WindowHonest(ApplyReport(s, r), before)
  {
    var result := ResultOf(r);
    if ShowsDiff(r) {
      InspectionReviews(s.review);
    } else {
      PushKeepsWindow(s, result, before);
    }
  }

  lemma {:induction false} ReportsAreQuiet(cfg: Config, s: State, reports: seq<Report>, before: nat)
    requires Bounded(s) && before <= |s.results| && WindowHonest(s, before)
    ensures var t := ApplyReports(cfg, s, reports).0;
            Quiet(s, t) && WindowHonest(t, before) && t.listing == Listing(t.errors, [])
    decreases |reports|
  {
    if reports != [] {
      var next := ApplyReport(s, reports[0]);
      ReportIsQuiet(s, reports[0]);
      ReportKeepsWindow(s, reports[0], before);
      if !(!reports[0].passed && AtFailureLimit(cfg, next, ReportSignature(reports[0]))) {
        ReportsAreQuiet(cfg, next, reports[1..], before);
        QuietThenQuiet(s, next, ApplyReports(cfg, next, reports[1..]).0);
      }
    }
  }

  lemma RunnerErrorIsQuiet(cfg: Config, s: State, message: string)
    requires Bounded(s)
    ensures var t := ApplyRunnerError(cfg, s, message).0;
            Quiet(s, t) && WindowHonest(t, |s.results|) && t.listing == Listing(t.errors, [])
  {
  }

  lemma VerificationIsQuiet(cfg: Config, s: State, changedFiles: seq<string>, v: Verification)
    requires Bounded(s)
    ensures var r := RunVerification(cfg, s, changedFiles, v);
            r.Checked? ==>
              && Quiet(s, r.state) && WindowHonest(r.state, |s.results|)
              && (s.listing == Listing(s.errors, []) ==> r.state.listing == Listing(r.state.errors, []))
  {
    if changedFiles != [] && cfg.hasVerifier {
      match v
      case Reports(reports) => ReportsAreQuiet(cfg, s, reports, |s.results|);
      case RunnerError(message) => RunnerErrorIsQuiet(cfg, s, message);
      case _ =>
    }
  }

  // ----- the blocks of a tool call -----

  lemma ValidationIsQuiet(s: State, command: ShellCommand, r: ToolResult)
    ensures Quiet(s, BookValidation(s, command, r))
  {
    var result := CheckResult(BoundedSummary(command.text), AgentCommand, !r.isError, Origin(!r.isError));
    var pushed := PushResult(s, result);
    PushIsQuiet(s, result);
    if !r.isError {
      var passed := pushed.(errors := pushed.errors - {Check(command.text), AFTER_EDIT}, validated := true);
      NotesAreQuiet(pushed, passed.errors, pushed.listing, true);
      QuietThenQuiet(s, pushed, passed);
      InspectionIsQuiet(passed);
      QuietThenQuiet(s, passed, Inspected(passed));
    } else {
      var failed := WithError(pushed, Check(command.text), Summary(r.output)).(validated := false);
      NotesAreQuiet(pushed, failed.errors, pushed.listing, false);
      QuietThenQuiet(s, pushed, failed);
    }
  }

  lemma DiagnosticIsQuiet(s: State, d: Diagnostic)
    ensures Quiet(s, BookDiagnostic(s, d))
  {
  }

  lemma FilesAreQuiet(s: State, r: ToolResult)
    ensures Quiet(s, BookFiles(s, r))
  {
  }

  lemma EditDiffIsQuiet(cfg: Config, s: State)
    ensures Quiet(s, BookEditDiff(cfg, s))
  {
    var result := CheckResult("inspect final edit diff", Reported(GitDiff), true, None);
    var pushed := PushResult(Inspected(s), result);
    InspectionIsQuiet(s);
    PushIsQuiet(Inspected(s), result);
    QuietThenQuiet(s, Inspected(s), pushed);
    var booked := BookEditDiff(cfg, s);
    NotesAreQuiet(pushed, booked.errors, pushed.listing, booked.validated);
    QuietThenQuiet(s, pushed, booked);
  }

  lemma EffectsAreQuiet(s: State, c: ToolCall, r: ToolResult)
    ensures Quiet(s, BookEffects(s, c, r))
  {
    var validation := ValidationOf(c);
    var s1 := if validation.Some? then BookValidation(s, validation.value, r) else s;
    if validation.Some? { ValidationIsQuiet(s, validation.value, r); }
    var s2 := BookFiles(s1, r);
    FilesAreQuiet(s1, r);
    QuietThenQuiet(s, s1, s2);
    if r.changedFiles != [] && r.diagnostic.Some? {
      DiagnosticIsQuiet(s2, r.diagnostic.value);
      QuietThenQuiet(s, s2, BookDiagnostic(s2, r.diagnostic.value));
    }
  }

  lemma ConcludeIsQuiet(s: State, before: nat)
    ensures Quiet(s, Conclude(s, before))
  {
    if NewResults(s, before) != [] {
      NotesAreQuiet(s, s.errors - {AFTER_EDIT}, s.listing, true);
      NotesAreQuiet(s, s.errors, s.listing, false);
    } else {
      NotesAreQuiet(s, s.errors - {AFTER_EDIT}, s.listing, true);
    }
  }

  // ----- ends of a run -----

  /** A plan operation changes nothing but the plan. */
  lemma PlanStepKeeps(cfg: Config, s: State, op: Plan.Op)
    requires !op.Install?
    ensures Live(cfg, s) ==> Live(cfg, PlanStep(s, op))
    ensures Bounds(cfg, s) ==> Bounds(cfg, PlanStep(s, op))
  {
    Plan.InstallsInTurn(s.planOps, [op]);
    Plan.NoInstalls([op]);
  }

  lemma SavingKeeps(cfg: Config, s: State)
    ensures Live(cfg, s) ==> Live(cfg, Saved(s))
    ensures Bounds(cfg, s) ==> Bounds(cfg, Saved(s))
  {
  }

  lemma FinishIsGood(cfg: Config, s: State, status: Completion, endHooks: EndHooks)
    requires Bounds(cfg, s) && WithinLimits(cfg, s.budget) && !status.Done?
    ensures Good(cfg, s.budget.turns, Finish(s, status, endHooks))
  {
    match endHooks
    case Passed =>
      PlanStepKeeps(cfg, s, Plan.FinishOp(status));
      SavingKeeps(cfg, PlanStep(s, Plan.FinishOp(status)));
    case Failed(error) =>
      var noted := Push(s, HookFailure(error));
      QuietKeeps(cfg, s, noted);
      PlanStepKeeps(cfg, noted, Plan.FinishOp(Plan.Completion.Stuck));
      SavingKeeps(cfg, PlanStep(noted, Plan.FinishOp(Plan.Completion.Stuck)));
  }

  lemma AbortIsGood(cfg: Config, s: State, status: Completion)
    requires Bounds(cfg, s)
    ensures Good(cfg, s.budget.turns, Abort(s, status))
  {
    PlanStepKeeps(cfg, s, Plan.FinishOp(status));
    SavingKeeps(cfg, PlanStep(s, Plan.FinishOp(status)));
  }

  lemma LiveIsBounded(cfg: Config, s: State)
    requires Live(cfg, s)
    ensures Bounds(cfg, s)
  {
  }

  lemma ListedIsQuiet(s: State)
    ensures Quiet(s, Listed(s))
  {
  }

  // ----- a tool call -----

  lemma EndCallIsGood(cfg: Config, s: State, before: nat, r: ToolResult, repeated: bool, endHooks: EndHooks)
    requires Ready(cfg, s)
    ensures Good(cfg, s.budget.turns, EndCall(s, before, r, repeated, endHooks))
  {
    var concluded := Conclude(s, before);
    ConcludeIsQuiet(s, before);
    QuietKeeps(cfg, s, concluded);
    var moved := if Meaningful(r, NewResults(s, before)) then PlanStep(concluded, Plan.ProgressOp) else concluded;
    PlanStepKeeps(cfg, concluded, Plan.ProgressOp);
    ListedIsQuiet(moved);
    QuietKeeps(cfg, moved, Listed(moved));
    SavingKeeps(cfg, Listed(moved));
    LiveIsBounded(cfg, Saved(Listed(moved)));
    if repeated { FinishIsGood(cfg, Saved(Listed(moved)), Plan.Completion.Stuck, endHooks); }
  }

  lemma VerifyIsGood(cfg: Config, s: State, c: ToolCall, r: ToolResult, endHooks: EndHooks)
    requires Ready(cfg, s)
    ensures Good(cfg, s.budget.turns, Verify(cfg, s, c, r, endHooks))
  {
    var shown := if ShowsEditDiff(cfg, r) then BookEditDiff(cfg, s) else s;
    EditDiffIsQuiet(cfg, s);
    QuietKeeps(cfg, s, shown);
    LiveIsBounded(cfg, shown);
    VerificationIsQuiet(cfg, shown, r.changedFiles, c.verification);
    match RunVerification(cfg, shown, r.changedFiles, c.verification)
    case PolicyDenied =>
    case Checked(next, repeated) =>
      QuietKeeps(cfg, shown, next);
      EndCallIsGood(cfg, next, |shown.results|, r, repeated, endHooks);
  }

  lemma AfterBookingIsGood(cfg: Config, s: State, c: ToolCall, r: ToolResult, endHooks: EndHooks)
    requires Ready(cfg, s)
    ensures Good(cfg, s.budget.turns, AfterBooking(cfg, s, c, r, endHooks))
  {
    var effects := BookEffects(s, c, r);
    EffectsAreQuiet(s, c, r);
    QuietKeeps(cfg, s, effects);
    LiveIsBounded(cfg, effects);
    VerifyIsGood(cfg, effects, c, r, endHooks);
  }

  /** Booking a successful result: after an edit nothing counts as inspected. */
  lemma SuccessKeepsReady(cfg: Config, s: State, c: ToolCall, r: ToolResult)
    requires Ready(cfg, s) && !r.isError
    ensures Ready(cfg, BookResult(NoteEdit(s, r), c, r))
  {
    assert Quiet(s, BookResult(NoteEdit(s, r), c, r));
    QuietKeeps(cfg, s, BookResult(NoteEdit(s, r), c, r));
  }

  lemma FailedEditIsQuiet(s: State, r: ToolResult)
    requires r.isError
    ensures Quiet(s, NoteEdit(s, r))
  {
    if Reviewed(s.review) { FailedEditKeepsReview(s.review); }
  }

  /** Counting a tool failure: it may reach its limit, and no other one changes. */
  lemma CountingFailure(cfg: Config, s: State, signature: Signature)
    requires ValidLimits(cfg) && Ready(cfg, s) && signature.ToolFailure?
    ensures var t := CountFailure(s, signature);
            && Bounds(cfg, t) && t.stall == s.stall && t.budget == s.budget
            && (!AtFailureLimit(cfg, t, signature) ==> Ready(cfg, t))
  {
  }

  lemma FailureIsBooked(cfg: Config, s: State, c: ToolCall, r: ToolResult)
    requires ValidLimits(cfg) && Ready(cfg, s) && r.isError
    ensures var t := BookResult(NoteEdit(s, r), c, r);
            && Bounds(cfg, t) && WithinLimits(cfg, t.budget)
            && (!AtFailureLimit(cfg, t, ToolSignature(c, r)) ==> Ready(cfg, t))
  {
    var noted := NoteEdit(s, r);
    FailedEditIsQuiet(s, r);
    QuietKeeps(cfg, s, noted);
    var failed := WithError(noted, Tool(c.name), Summary(r.output));
    NotesAreQuiet(noted, failed.errors, noted.listing, noted.validated);
    QuietKeeps(cfg, noted, failed);
    CountingFailure(cfg, failed, ToolSignature(c, r));
    var counted := CountFailure(failed, ToolSignature(c, r));
    ListedIsQuiet(counted);
    QuietKeeps(cfg, counted, Listed(counted));
  }

  lemma AfterToolIsGood(cfg: Config, s: State, c: ToolCall, r: ToolResult, endHooks: EndHooks)
    requires ValidLimits(cfg) && Ready(cfg, s)
    ensures Good(cfg, s.budget.turns, AfterTool(cfg, s, c, r, endHooks))
  {
    var booked := BookResult(NoteEdit(s, r), c, r);
    if r.isError { FailureIsBooked(cfg, s, c, r); } else { SuccessKeepsReady(cfg, s, c, r); }
    if r.isError && AtFailureLimit(cfg, booked, ToolSignature(c, r)) {
      FinishIsGood(cfg, booked, Plan.Completion.Stuck, endHooks);
    } else {
      AfterBookingIsGood(cfg, booked, c, r, endHooks);
    }
  }

  lemma ExecuteIsGood(cfg: Config, s: State, c: ToolCall, endHooks: EndHooks)
    requires ValidLimits(cfg) && Ready(cfg, s)
    ensures Good(cfg, s.budget.turns, Execute(cfg, s, c, endHooks))
  {
    match c.outcome
    case ToolError(message) =>
      var failed := WithError(s, Tool(c.name), Summary(message));
      NotesAreQuiet(s, failed.errors, Listing(failed.errors, []), s.validated);
      QuietKeeps(cfg, s, Listed(failed));
      LiveIsBounded(cfg, s);
      AbortIsGood(cfg, Listed(failed), Plan.Completion.Stuck);
    case ToolDone(result) => AfterToolIsGood(cfg, s, c, result, endHooks);
  }

  lemma CountingBounds(cfg: Config, b: Budget, c: Budget, key: CallKey)
    requires ValidLimits(cfg) && BudgetBounds(cfg, b) && b.toolCalls < cfg.limits.maxToolCalls
    requires c == b.(toolCalls := b.toolCalls + 1,
                     repeatedCalls := b.repeatedCalls[key := Increment(CountOf(b.repeatedCalls, key))])
    ensures BudgetBounds(cfg, c)
    ensures c.repeatedCalls[key] <= MaxExecutions(cfg) ==>
              BudgetBounds(cfg, c.(issued := c.issued + multiset{Execution(key)}))
  {
  }

  /** Counting a call leaves room for exactly one more execution when it stays within its limit. */
  lemma CountingCall(cfg: Config, s: State, key: CallKey)
    requires ValidLimits(cfg) && Ready(cfg, s) && s.budget.toolCalls < cfg.limits.maxToolCalls
    ensures Ready(cfg, CountCall(s, key))
    ensures var counted := CountCall(s, key);
            counted.budget.repeatedCalls[key] <= MaxExecutions(cfg) ==> Ready(cfg, Issue(counted, Execution(key)))
  {
    CountingBounds(cfg, s.budget, CountCall(s, key).budget, key);
  }

  lemma RepetitionIsGood(cfg: Config, s: State, c: ToolCall, attempts: nat, endHooks: EndHooks)
    requires Ready(cfg, s)
    ensures Good(cfg, s.budget.turns,
                 FinishBlocked(Listed(WithError(s, Guard, RepeatedCall(attempts, c.name))), endHooks))
  {
    var guarded := WithError(s, Guard, RepeatedCall(attempts, c.name));
    NotesAreQuiet(s, guarded.errors, Listing(guarded.errors, []), s.validated);
    QuietKeeps(cfg, s, Listed(guarded));
    LiveIsBounded(cfg, s);
    FinishIsGood(cfg, Listed(guarded), Plan.Completion.Stuck, endHooks);
  }

  lemma CountedCallIsGood(cfg: Config, s: State, c: ToolCall, endHooks: EndHooks)
    requires ValidLimits(cfg) && Ready(cfg, s)
    requires CountOf(s.budget.repeatedCalls, CallKeyOf(c)) <= MaxExecutions(cfg) ==>
               Ready(cfg, Issue(s, Execution(CallKeyOf(c))))
    ensures Good(cfg, s.budget.turns, CountedCall(cfg, s, c, endHooks))
  {
    var seen := CountOf(s.budget.repeatedCalls, CallKeyOf(c));
    if seen > MaxExecutions(cfg) {
      RepetitionIsGood(cfg, s, c, seen - 1, endHooks);
    } else if !ModeAllows(cfg, c) {
      SavingKeeps(cfg, s);
      AfterBookingIsGood(cfg, Saved(s), c, Denied(), endHooks);
    } else {
      SavingKeeps(cfg, Issue(s, Execution(CallKeyOf(c))));
      ExecuteIsGood(cfg, Issue(Saved(s), Execution(CallKeyOf(c))), c, endHooks);
    }
  }

  lemma ToolStepIsGood(cfg: Config, s: State, c: ToolCall, endHooks: EndHooks)
    requires ValidLimits(cfg) && Ready(cfg, s)
    ensures Good(cfg, s.budget.turns, ToolStep(cfg, s, c, endHooks))
  {
    LiveIsBounded(cfg, s);
    if c.cancelled {
      AbortIsGood(cfg, s, Plan.Completion.Cancelled);
    } else if s.budget.toolCalls >= cfg.limits.maxToolCalls {
      AbortIsGood(cfg, s, Plan.Completion.ResourceLimitReached);
    } else {
      CountingCall(cfg, s, CallKeyOf(c));
      CountedCallIsGood(cfg, CountCall(s, CallKeyOf(c)), c, endHooks);
    }
  }

  lemma {:induction false} ToolStepsAreGood(cfg: Config, s: State, calls: seq<ToolCall>, endHooks: EndHooks)
    requires ValidLimits(cfg) && Ready(cfg, s) && (calls == [] ==> Current(s))
    ensures Good(cfg, s.budget.turns, ToolSteps(cfg, s, calls, endHooks))
    decreases |calls|
  {
    if calls != [] {
      ToolStepIsGood(cfg, s, calls[0], endHooks);
      var p := ToolStep(cfg, s, calls[0], endHooks);
      if p.Running? { ToolStepsAreGood(cfg, p.state, calls[1..], endHooks); }
    }
  }

  // ----- a final response -----

  lemma WaiverIsQuiet(s: State, command: string)
    ensures Quiet(s, WaiveOne(s, command))
  {
  }

  lemma {:induction false} WaiversAreQuiet(s: State, waivers: seq<string>)
    ensures Quiet(s, WaiveAll(s, waivers).0)
    decreases |waivers|
  {
    if waivers != [] {
      var next := WaiveOne(s, waivers[0]);
      WaiverIsQuiet(s, waivers[0]);
      WaiversAreQuiet(next, waivers[1..]);
      QuietThenQuiet(s, next, WaiveAll(next, waivers[1..]).0);
    }
  }

  lemma ApplyWaiversIsQuiet(s: State, waivers: seq<string>)
    ensures Quiet(s, ApplyWaivers(s, waivers))
    ensures ApplyWaivers(s, waivers).listing == Listing(ApplyWaivers(s, waivers).errors, [])
  {
    var waived := WaiveAll(s, waivers).0;
    WaiversAreQuiet(s, waivers);
    var t := ApplyWaivers(s, waivers);
    NotesAreQuiet(waived, t.errors, t.listing, t.validated);
    QuietThenQuiet(s, waived, t);
  }

  lemma ObstaclesAreQuiet(cfg: Config, s: State)
    requires s.listing == Listing(s.errors, [])
    ensures Quiet(s, Obstacles(cfg, s))
    ensures Uninspected(cfg, s) ==> FINAL_DIFF in Obstacles(cfg, s).listing.rebuilt
  {
  }

  lemma ObstaclesLeave(cfg: Config, s: State)
    requires s.listing == Listing(s.errors, [])
    ensures Obstacles(cfg, s).listing == NOTHING_LISTED <==> s.errors == map[] && !Uninspected(cfg, s)
  {
    ObstaclesAreQuiet(cfg, s);
  }

  /**
   The gate, exactly: from a state whose error list is up to date a final response completes the task
   if and only if no error is left, in CODE mode with changed files the diff has been inspected, and
   the end hooks pass.  The flag for a validation since the last edit does not matter.
   */
  lemma GateOpensExactlyWhen(cfg: Config, s: State, endHooks: EndHooks)
    requires s.listing == Listing(s.errors, [])
    ensures Gate(cfg, s, endHooks).Stopped? && Gate(cfg, s, endHooks).exit == Ended(Plan.Completion.Done)
            <==> s.errors == map[] && !Uninspected(cfg, s) && endHooks.Passed?
  {
    ObstaclesLeave(cfg, s);
  }

  lemma WaitingIsGood(cfg: Config, s: State, endHooks: EndHooks)
    requires ValidLimits(cfg) && Ready(cfg, s)
    ensures Good(cfg, s.budget.turns,
                 if Waited(s).stall.count >= MaxFailures(cfg) then FinishBlocked(Waited(s), endHooks)
                 else Running(Saved(Waited(s))))
  {
    var waiting := Waited(s);
    assert Bounds(cfg, waiting);
    if waiting.stall.count >= MaxFailures(cfg) {
      FinishIsGood(cfg, waiting, Plan.Completion.Stuck, endHooks);
    } else {
      SavingKeeps(cfg, waiting);
    }
  }

  lemma CompletionIsGood(cfg: Config, s: State, endHooks: EndHooks)
    requires Ready(cfg, s) && s.errors == map[] && s.listing == NOTHING_LISTED && !Uninspected(cfg, s)
    ensures Good(cfg, s.budget.turns, Finish(s, Plan.Completion.Done, endHooks))
  {
    LiveIsBounded(cfg, s);
    match endHooks
    case Passed =>
      PlanStepKeeps(cfg, s, Plan.FinishOp(Plan.Completion.Done));
      SavingKeeps(cfg, PlanStep(s, Plan.FinishOp(Plan.Completion.Done)));
    case Failed(error) => FinishIsGood(cfg, s, Plan.Completion.Stuck, endHooks);
  }

  lemma GateIsGood(cfg: Config, s: State, endHooks: EndHooks)
    requires ValidLimits(cfg) && Ready(cfg, s) && s.listing == Listing(s.errors, [])
    ensures Good(cfg, s.budget.turns, Gate(cfg, s, endHooks))
  {
    var checked := Obstacles(cfg, s);
    ObstaclesAreQuiet(cfg, s);
    ObstaclesLeave(cfg, s);
    QuietKeeps(cfg, s, checked);
    if checked.listing != NOTHING_LISTED {
      WaitingIsGood(cfg, checked, endHooks);
    } else {
      CompletionIsGood(cfg, checked, endHooks);
    }
  }

  lemma JudgedIsReady(cfg: Config, s: State, next: State)
    requires Ready(cfg, s) && Quiet(s, next) && WindowHonest(next, |s.results|)
    ensures Ready(cfg, Judged(next, |s.results|)) && Current(Judged(next, |s.results|))
  {
    var judged := next.(inspected := DiffPassed(NewResults(next, |s.results|)),
                        stall := next.stall.(finals := next.stall.finals + 1));
    assert Quiet(s, judged);
    QuietKeeps(cfg, s, judged);
    SavingKeeps(cfg, judged);
  }

  lemma InspectAndGateIsGood(cfg: Config, s: State, check: Verification, endHooks: EndHooks)
    requires ValidLimits(cfg) && Ready(cfg, s) && s.listing == Listing(s.errors, [])
    ensures Good(cfg, s.budget.turns, InspectAndGate(cfg, s, check, endHooks))
  {
    LiveIsBounded(cfg, s);
    if Uninspected(cfg, s) && cfg.gitAvailable && cfg.hasVerifier {
      VerificationIsQuiet(cfg, s, s.changed, check);
      match RunVerification(cfg, s, s.changed, check)
      case PolicyDenied =>
      case Checked(next, _) =>
        JudgedIsReady(cfg, s, next);
        GateIsGood(cfg, Judged(next, |s.results|), endHooks);
    } else {
      GateIsGood(cfg, s, endHooks);
    }
  }

  lemma PlanFromTextKeepsReady(cfg: Config, s: State, r: Response)
    requires Ready(cfg, s)
    ensures Ready(cfg, PlanFromText(s, r))
  {
    if r.planText.Some? { PlanStepKeeps(cfg, s, Plan.Create(r.planText.value.0, r.planText.value.1)); }
  }

  lemma PlanAnswerKeepsReady(cfg: Config, s: State, r: Response)
    requires Ready(cfg, s)
    ensures Ready(cfg, PlanAnswer(cfg, s, r))
  {
    SavingKeeps(cfg, s);
    if !s.structured {
      var install := Plan.Install(r.planAnswer.0, r.planAnswer.1);
      Plan.InstallsInTurn(s.planOps, [install]);
      assert [install][1..] == [];
      var installed := PlanStep(s, install).(structured := true);
      assert Live(cfg, installed);
      SavingKeeps(cfg, installed);
    }
  }

  lemma CompleteIsGood(cfg: Config, s: State, r: Response)
    requires ValidLimits(cfg) && Ready(cfg, s)
    ensures Good(cfg, s.budget.turns, Complete(cfg, s, r))
  {
    var answered := PlanAnswer(cfg, s, r);
    var waived := ApplyWaivers(answered, r.waivers);
    PlanAnswerKeepsReady(cfg, s, r);
    ApplyWaiversIsQuiet(answered, r.waivers);
    QuietKeeps(cfg, answered, waived);
    InspectAndGateIsGood(cfg, waived, r.finalCheck, r.endHooks);
  }

  lemma StoppingResponseIsGood(cfg: Config, s: State, r: Response)
    requires Ready(cfg, s) && !r.directive.NoDirective?
    ensures Good(cfg, s.budget.turns, FinalResponse(cfg, s, r))
  {
    var planned := PlanFromText(s, r);
    PlanFromTextKeepsReady(cfg, s, r);
    LiveIsBounded(cfg, planned);
    FinishIsGood(cfg, planned, StopStatus(r.directive), r.endHooks);
  }

  lemma FinalResponseIsGood(cfg: Config, s: State, r: Response)
    requires ValidLimits(cfg) && Ready(cfg, s)
    ensures Good(cfg, s.budget.turns, FinalResponse(cfg, s, r))
  {
    if r.directive.NoDirective? {
      PlanFromTextKeepsReady(cfg, s, r);
      CompleteIsGood(cfg, PlanFromText(s, r), r);
    } else {
      StoppingResponseIsGood(cfg, s, r);
    }
  }

  // ----- turns and runs -----

  lemma RequestKeepsLive(cfg: Config, s: State)
    requires Live(cfg, s) && s.budget.turns <= cfg.limits.maxTurns
    ensures Live(cfg, BeginTurn(s)) && Live(cfg, Request(s))
  {
    assert CallBounds(cfg, BeginTurn(s).budget);
    SavingKeeps(cfg, BeginTurn(s));
    assert CallBounds(cfg, Request(s).budget);
  }

  lemma ProviderAnsweredIsQuiet(s: State)
    ensures Quiet(s, ProviderAnswered(s))
  {
  }

  lemma ReplanKeepsLive(cfg: Config, s: State, r: Response)
    requires Live(cfg, s)
    ensures Live(cfg, Replan(s, r))
  {
    match r.revision
    case Some((reason, steps)) =>
      PlanStepKeeps(cfg, s, Plan.ReviseOp(reason, steps));
      SavingKeeps(cfg, PlanStep(s, Plan.ReviseOp(reason, steps)));
    case None =>
      if r.planText.Some? {
        PlanStepKeeps(cfg, s, Plan.Create(r.planText.value.0, r.planText.value.1));
        SavingKeeps(cfg, PlanFromText(s, r));
      }
  }

  /** Calls and requests do not depend on tokens and costs. */
  lemma SpendKeepsLive(cfg: Config, s: State, r: Response)
    requires Live(cfg, s)
    ensures Live(cfg, Spend(s, r))
  {
  }

  lemma AbsorbKeepsLive(cfg: Config, s: State, r: Response)
    requires Live(cfg, s)
    ensures Live(cfg, Absorb(s, r))
  {
    ProviderAnsweredIsQuiet(s);
    QuietKeeps(cfg, s, ProviderAnswered(s));
    ReplanKeepsLive(cfg, ProviderAnswered(s), r);
    SpendKeepsLive(cfg, Replan(ProviderAnswered(s), r), r);
  }

  lemma AfterResponseIsGood(cfg: Config, s: State, t: Turn, r: Response)
    requires ValidLimits(cfg) && Live(cfg, s)
    ensures Good(cfg, s.budget.turns, AfterResponse(cfg, s, t, r))
  {
    LiveIsBounded(cfg, s);
    match LimitReached(cfg, s.budget, t.cancelledAfter, t.expiredAfter)
    case Some(status) => AbortIsGood(cfg, s, status);
    case None =>
      if r.calls == [] {
        FinalResponseIsGood(cfg, s, r);
      } else if s.budget.turns >= cfg.limits.maxTurns {
        AbortIsGood(cfg, s, Plan.Completion.ResourceLimitReached);
      } else {
        ToolStepsAreGood(cfg, s, r.calls, r.endHooks);
      }
  }

  lemma ProviderFailureIsGood(cfg: Config, s: State, message: string)
    requires Live(cfg, s)
    ensures Good(cfg, s.budget.turns, Abort(Push(s, ProviderFailure(message)), Plan.Completion.Stuck))
  {
    var noted := Push(s, ProviderFailure(message));
    QuietKeeps(cfg, s, noted);
    LiveIsBounded(cfg, s);
    AbortIsGood(cfg, noted, Plan.Completion.Stuck);
  }

  lemma AnswerIsGood(cfg: Config, s: State, t: Turn, r: Response)
    requires ValidLimits(cfg) && Live(cfg, s)
    ensures Good(cfg, s.budget.turns, AfterResponse(cfg, Absorb(s, r), t, r))
  {
    AbsorbKeepsLive(cfg, s, r);
    AbsorbKeepsTurns(s, r);
    AfterResponseIsGood(cfg, Absorb(s, r), t, r);
  }

  lemma AbsorbKeepsTurns(s: State, r: Response)
    ensures Absorb(s, r).budget.turns == s.budget.turns
  {
  }

  lemma AfterRequestIsGood(cfg: Config, s: State, t: Turn)
    requires ValidLimits(cfg) && Live(cfg, s)
    ensures Good(cfg, s.budget.turns, AfterRequest(cfg, s, t))
  {
    LiveIsBounded(cfg, s);
    match t.model
    case ModelCancelled => AbortIsGood(cfg, s, Plan.Completion.Cancelled);
    case ModelFailed(message) => ProviderFailureIsGood(cfg, s, message);
    case Answered(response) => AnswerIsGood(cfg, s, t, response);
  }

  lemma TurnIsGood(cfg: Config, s: State, t: Turn)
    requires ValidLimits(cfg) && Live(cfg, s)
    ensures Good(cfg, s.budget.turns + 1, TurnStep(cfg, s, t))
  {
    LiveIsBounded(cfg, s);
    match LimitReached(cfg, s.budget, t.cancelledBefore, t.expiredBefore)
    case Some(status) => AbortIsGood(cfg, s, status);
    case None =>
      RequestKeepsLive(cfg, s);
      LiveIsBounded(cfg, BeginTurn(s));
      AfterRequestIsGood(cfg, Request(s), t);
  }

  lemma {:induction false} RunIsGood(cfg: Config, s: State, turns: seq<Turn>)
    requires ValidLimits(cfg) && Live(cfg, s)
    ensures match RunFrom(cfg, s, turns)
            case Running(t) =>
              && Live(cfg, t) && t.budget.turns == s.budget.turns + |turns|
              && (turns != [] ==> Ready(cfg, t) && Current(t))
            case Stopped(t, exit) => Good(cfg, 0, Stopped(t, exit))
    decreases |turns|
  {
    if turns != [] {
      TurnIsGood(cfg, s, turns[0]);
      var p := TurnStep(cfg, s, turns[0]);
      if p.Running? { RunIsGood(cfg, p.state, turns[1..]); }
    }
  }

}
