/**
 Which edits a task shows before it is Done.  An edit whose tool reports an error leaves the diff marked
 as inspected.  The module gives the exact condition under which one call keeps the promise that an
 inspected diff holds every edit, what follows for runs, and a run that breaks it.
 */
module AgentReview {
  import opened Wrappers
  import opened AgentMachine
  import opened AgentSafety
  import opened AgentResume
  import opened AgentRuns
  import opened AgentCompletion
  import opened AgentGaps
  import opened AgentStorage
  import Plan = ExecutionPlan

  /** A diff inspection stands at or after the last edit of any kind. */
  ghost predicate FullyReviewed(log: seq<ReviewEvent>) {
    exists i :: 0 <= i < |log| && log[i] == DiffInspected && NothingAfter(log, i)
  }

  predicate NothingAfter(log: seq<ReviewEvent>, i: nat) { forall j :: i < j < |log| ==> !log[j].Edited? }

  /** What "the final diff is passed to the model after the last edit" promises of every state. */
  ghost predicate ShowsEdits(s: State) { s.inspected ==> FullyReviewed(s.review) }

  lemma InspectionShows(log: seq<ReviewEvent>)
    ensures FullyReviewed(log + [DiffInspected])
  {
    assert NothingAfter(log + [DiffInspected], |log|);
  }

  lemma EditHides(log: seq<ReviewEvent>, isError: bool)
    ensures !FullyReviewed(log + [Edited(isError)])
  {
    assert (log + [Edited(isError)])[|log|].Edited?;
  }

  // ----- steps that inspect or leave the edits alone -----

  /** Between the two states nothing was edited, and the diff was inspected if `again`. */
  ghost predicate Inspects(s: State, t: State, again: bool) {
    && t.inspected == (s.inspected || again)
    && (FullyReviewed(t.review) <==> FullyReviewed(s.review) || again)
  }

  lemma InspectedInspects(s: State)
    ensures Inspects(s, Inspected(s), true)
  {
    InspectionShows(s.review);
  }

  lemma ReportInspects(s: State, r: Report)
    ensures Inspects(s, ApplyReport(s, r), ShowsDiff(r))
  {
    if ShowsDiff(r) { InspectedInspects(s); }
  }

  /** Some booked report is a passed diff. */
  ghost predicate ReportsShowDiff(cfg: Config, s: State, reports: seq<Report>) {
    exists i :: 0 <= i < Booked(cfg, s, reports) && ShowsDiff(reports[i])
  }

  lemma ReportsShowDiffStep(cfg: Config, s: State, reports: seq<Report>)
    requires reports != []
    ensures var next := ApplyReport(s, reports[0]);
            var stops := !reports[0].passed && AtFailureLimit(cfg, next, ReportSignature(reports[0]));
            ReportsShowDiff(cfg, s, reports)
            <==> ShowsDiff(reports[0]) || (!stops && ReportsShowDiff(cfg, next, reports[1..]))
  {
    var next := ApplyReport(s, reports[0]);
    var stops := !reports[0].passed && AtFailureLimit(cfg, next, ReportSignature(reports[0]));
    if i :| 0 <= i < Booked(cfg, s, reports) && ShowsDiff(reports[i]) {
      if i > 0 { assert ShowsDiff(reports[1..][i - 1]); }
    }
    if !stops && ReportsShowDiff(cfg, next, reports[1..]) {
      var i :| 0 <= i < Booked(cfg, next, reports[1..]) && ShowsDiff(reports[1..][i]);
      assert ShowsDiff(reports[i + 1]);
    }
  }

  lemma {:induction false} ReportsInspect(cfg: Config, s: State, reports: seq<Report>)
    ensures Inspects(s, ApplyReports(cfg, s, reports).0, ReportsShowDiff(cfg, s, reports))
    decreases |reports|
  {
    if reports != [] {
      var next := ApplyReport(s, reports[0]);
      ReportInspects(s, reports[0]);
      ReportsShowDiffStep(cfg, s, reports);
      if !(!reports[0].passed && AtFailureLimit(cfg, next, ReportSignature(reports[0]))) {
        ReportsInspect(cfg, next, reports[1..]);
      }
    }
  }

  /** The verification that follows a change shows its diff. */
  ghost predicate CheckShowsDiff(cfg: Config, s: State, changedFiles: seq<string>, v: Verification) {
    changedFiles != [] && cfg.hasVerifier && v.Reports? && ReportsShowDiff(cfg, s, v.reports)
  }

  lemma VerificationInspects(cfg: Config, s: State, changedFiles: seq<string>, v: Verification)
    ensures var r := RunVerification(cfg, s, changedFiles, v);
            r.Checked? ==> Inspects(s, r.state, CheckShowsDiff(cfg, s, changedFiles, v))
  {
    if v.Reports? { ReportsInspect(cfg, s, v.reports); }
  }

  /** Which reports are booked depends on the counted failures only. */
  lemma {:induction false} BookingDependsOnCounts(cfg: Config, s: State, t: State, reports: seq<Report>)
    requires t.repeatedFailures == s.repeatedFailures
    ensures Booked(cfg, t, reports) == Booked(cfg, s, reports)
    decreases |reports|
  {
    if reports != [] {
      BookingDependsOnCounts(cfg, ApplyReport(s, reports[0]), ApplyReport(t, reports[0]), reports[1..]);
    }
  }

  // ----- a call after its booking -----

  lemma EffectsInspect(s: State, c: ToolCall, r: ToolResult)
    ensures Inspects(s, BookEffects(s, c, r), ValidationShowsDiff(c, r))
    ensures BookEffects(s, c, r).repeatedFailures == s.repeatedFailures
  {
    EffectsReview(s, c, r);
    InspectionShows(s.review);
  }

  lemma EditDiffInspects(cfg: Config, s: State)
    ensures Inspects(s, BookEditDiff(cfg, s), true) && BookEditDiff(cfg, s).repeatedFailures == s.repeatedFailures
  {
    InspectionShows(s.review);
  }

  lemma EndCallInspectsNothing(s: State, before: nat, r: ToolResult, repeated: bool, endHooks: EndHooks)
    ensures Inspects(s, EndCall(s, before, r, repeated, endHooks).state, false)
  {
    ConcludeKeepsInspection(s, before);
  }

  lemma ConcludeKeepsInspection(s: State, before: nat)
    ensures Conclude(s, before).inspected == s.inspected && Conclude(s, before).review == s.review
  {
  }

  /** After the result is booked, the call inspects the diff again: by the edit's own diff or by its checks. */
  ghost predicate VerifyShowsDiff(cfg: Config, s: State, c: ToolCall, r: ToolResult) {
    ShowsEditDiff(cfg, r) || CheckShowsDiff(cfg, s, r.changedFiles, c.verification)
  }

  lemma VerifyInspects(cfg: Config, s: State, c: ToolCall, r: ToolResult, endHooks: EndHooks)
    ensures Inspects(s, Verify(cfg, s, c, r, endHooks).state, VerifyShowsDiff(cfg, s, c, r))
  {
    var shown := if ShowsEditDiff(cfg, r) then BookEditDiff(cfg, s) else s;
    EditDiffInspects(cfg, s);
    if c.verification.Reports? { BookingDependsOnCounts(cfg, s, shown, c.verification.reports); }
    VerificationInspects(cfg, shown, r.changedFiles, c.verification);
    match RunVerification(cfg, shown, r.changedFiles, c.verification)
    case PolicyDenied =>
    case Checked(next, repeated) => EndCallInspectsNothing(next, |shown.results|, r, repeated, endHooks);
  }

  /** The call inspects the diff after booking a result of the given kind. */
  ghost predicate InspectsAgain(cfg: Config, s: State, c: ToolCall, r: ToolResult) {
    || ValidationShowsDiff(c, r)
    || (!(r.changedFiles != [] && !c.recorded) && VerifyShowsDiff(cfg, s, c, r))
  }

  lemma BookingInspects(cfg: Config, s: State, c: ToolCall, r: ToolResult, endHooks: EndHooks)
    ensures Inspects(s, AfterBooking(cfg, s, c, r, endHooks).state, InspectsAgain(cfg, s, c, r))
  {
    var effects := BookEffects(s, c, r);
    EffectsInspect(s, c, r);
    VerifyInspects(cfg, effects, c, r, endHooks);
    if c.verification.Reports? { BookingDependsOnCounts(cfg, s, effects, c.verification.reports); }
  }

  // ----- one call -----

  /** The failure of the tool reaches its limit with this call. */
  predicate ReachesLimit(cfg: Config, s: State, c: ToolCall, r: ToolResult) {
    AtFailureLimit(cfg, CountFailure(s, ToolSignature(c, r)), ToolSignature(c, r))
  }

  /**
   The guard that fails: on an inspected state an executed call changes files and reports an error, and it
   stops at its limit or no check of the same call inspects the diff again.
   */
  ghost predicate HidesEdit(cfg: Config, s: State, c: ToolCall) {
    Answers(cfg, s, c) && HidesResult(cfg, s, c, c.outcome.result)
  }

  ghost predicate HidesResult(cfg: Config, s: State, c: ToolCall, r: ToolResult) {
    && s.inspected && r.isError && r.changedFiles != []
    && (ReachesLimit(cfg, s, c, r) || !InspectsAgain(cfg, CountFailure(s, ToolSignature(c, r)), c, r))
  }

  lemma HidingDependsOnCounts(cfg: Config, s: State, t: State, c: ToolCall, r: ToolResult)
    requires t.repeatedFailures == s.repeatedFailures && t.inspected == s.inspected
    ensures HidesResult(cfg, t, c, r) <==> HidesResult(cfg, s, c, r)
  {
    InspectingDependsOnCounts(cfg, CountFailure(s, ToolSignature(c, r)), CountFailure(t, ToolSignature(c, r)), c, r);
  }

  lemma SuccessShowsEdits(s: State, c: ToolCall, r: ToolResult)
    requires ShowsEdits(s) && !r.isError
    ensures ShowsEdits(BookResult(NoteEdit(s, r), c, r))
  {
    BookedReview(s, c, r);
    EditHides(s.review, false);
  }

  lemma FailureInspection(s: State, c: ToolCall, r: ToolResult)
    requires r.isError
    ensures var t := BookResult(NoteEdit(s, r), c, r);
            && t.inspected == s.inspected
            && t.repeatedFailures == CountFailure(s, ToolSignature(c, r)).repeatedFailures
            && (r.changedFiles == [] ==> t.review == s.review)
            && (r.changedFiles != [] ==> !FullyReviewed(t.review))
  {
    BookedReview(s, c, r);
    EditHides(s.review, true);
  }

  lemma FinishedShows(s: State, endHooks: EndHooks)
    ensures var t := FinishBlocked(s, endHooks).state; t.inspected == s.inspected && t.review == s.review
  {
  }

  lemma InspectingDependsOnCounts(cfg: Config, s: State, t: State, c: ToolCall, r: ToolResult)
    requires t.repeatedFailures == s.repeatedFailures
    ensures InspectsAgain(cfg, t, c, r) <==> InspectsAgain(cfg, s, c, r)
  {
    if c.verification.Reports? { BookingDependsOnCounts(cfg, s, t, c.verification.reports); }
  }

  lemma FailureGoesOn(cfg: Config, s: State, c: ToolCall, r: ToolResult, endHooks: EndHooks)
    requires r.isError
    ensures var booked := BookResult(NoteEdit(s, r), c, r);
            AfterTool(cfg, s, c, r, endHooks)
            == if ReachesLimit(cfg, s, c, r) then FinishBlocked(booked, endHooks)
               else AfterBooking(cfg, booked, c, r, endHooks)
  {
    FailureInspection(s, c, r);
  }

  lemma FailureShowsEditsExactlyWhen(cfg: Config, s: State, c: ToolCall, r: ToolResult, endHooks: EndHooks)
    requires ShowsEdits(s) && r.isError
    ensures ShowsEdits(AfterTool(cfg, s, c, r, endHooks).state) <==> !HidesResult(cfg, s, c, r)
  {
    var booked := BookResult(NoteEdit(s, r), c, r);
    FailureGoesOn(cfg, s, c, r, endHooks);
    FailureInspection(s, c, r);
    FinishedShows(booked, endHooks);
    InspectingDependsOnCounts(cfg, CountFailure(s, ToolSignature(c, r)), booked, c, r);
    BookingInspects(cfg, booked, c, r, endHooks);
  }

  lemma AnswerShowsEditsExactlyWhen(cfg: Config, s: State, c: ToolCall, r: ToolResult, endHooks: EndHooks)
    requires ShowsEdits(s)
    ensures ShowsEdits(AfterTool(cfg, s, c, r, endHooks).state) <==> !HidesResult(cfg, s, c, r)
  {
    if r.isError {
      FailureShowsEditsExactlyWhen(cfg, s, c, r, endHooks);
    } else {
      SuccessShowsEdits(s, c, r);
      BookingInspects(cfg, BookResult(NoteEdit(s, r), c, r), c, r, endHooks);
    }
  }

  lemma RepetitionShows(s: State, attempts: nat, name: string, endHooks: EndHooks)
    requires ShowsEdits(s)
    ensures ShowsEdits(FinishBlocked(Listed(WithError(s, Guard, RepeatedCall(attempts, name))), endHooks).state)
  {
    FinishedShows(Listed(WithError(s, Guard, RepeatedCall(attempts, name))), endHooks);
  }

  lemma FailedExecutionShows(s: State, c: ToolCall, message: string)
    requires ShowsEdits(s)
    ensures ShowsEdits(Abort(Listed(WithError(s, Tool(c.name), Summary(message))), Plan.Completion.Stuck).state)
  {
  }

  lemma CountedCallShowsEditsExactlyWhen(cfg: Config, s: State, c: ToolCall, endHooks: EndHooks)
    requires ShowsEdits(s)
    ensures var answered := CountOf(s.budget.repeatedCalls, CallKeyOf(c)) <= AtLeastOne(cfg.limits.maxRepeatedCalls)
                            && ModeAllows(cfg, c) && c.outcome.ToolDone?;
            ShowsEdits(CountedCall(cfg, s, c, endHooks).state)
            <==> !(answered && HidesResult(cfg, s, c, c.outcome.result))
  {
    var seen := CountOf(s.budget.repeatedCalls, CallKeyOf(c));
    if seen > AtLeastOne(cfg.limits.maxRepeatedCalls) {
      RepetitionShows(s, seen - 1, c.name, endHooks);
    } else if !ModeAllows(cfg, c) {
      BookingInspects(cfg, Saved(s), c, Denied(), endHooks);
    } else {
      var executed := Issue(Saved(s), Execution(CallKeyOf(c)));
      match c.outcome
      case ToolError(message) => FailedExecutionShows(executed, c, message);
      case ToolDone(r) =>
        AnswerShowsEditsExactlyWhen(cfg, executed, c, r, endHooks);
        HidingDependsOnCounts(cfg, s, executed, c, r);
    }
  }

  /** After one call an inspected diff holds every edit if and only if the call did not hide one. */
  lemma CallShowsEditsExactlyWhen(cfg: Config, s: State, c: ToolCall, endHooks: EndHooks)
    requires ShowsEdits(s)
    ensures ShowsEdits(ToolStep(cfg, s, c, endHooks).state) <==> !HidesEdit(cfg, s, c)
  {
    if !c.cancelled && s.budget.toolCalls < cfg.limits.maxToolCalls {
      var counted := CountCall(s, CallKeyOf(c));
      CountedCallShowsEditsExactlyWhen(cfg, counted, c, endHooks);
      if c.outcome.ToolDone? { HidingDependsOnCounts(cfg, s, counted, c, c.outcome.result); }
    }
  }

  // ----- turns without calls -----

  lemma FinishKeepsReview(s: State, status: Plan.Completion, endHooks: EndHooks)
    ensures var t := Finish(s, status, endHooks).state; t.inspected == s.inspected && t.review == s.review
  {
  }

  lemma ObstaclesKeepReview(cfg: Config, s: State)
    ensures var t := Obstacles(cfg, s); t.inspected == s.inspected && t.review == s.review
  {
  }

  lemma GateKeepsReview(cfg: Config, s: State, endHooks: EndHooks)
    ensures var t := Gate(cfg, s, endHooks).state; t.inspected == s.inspected && t.review == s.review
  {
    var checked := Obstacles(cfg, s);
    ObstaclesKeepReview(cfg, s);
    FinishKeepsReview(checked, Plan.Completion.Done, endHooks);
    FinishKeepsReview(Waited(checked), Plan.Completion.Stuck, endHooks);
  }

  lemma RunnerErrorShowsNothing(cfg: Config, s: State, message: string)
    requires Bounded(s)
    ensures !DiffPassed(NewResults(ApplyRunnerError(cfg, s, message).0, |s.results|))
  {
  }

  /** What the automatic inspection claims, it has logged. */
  lemma JudgedShows(cfg: Config, s: State, check: Verification)
    requires Bounded(s) && RunVerification(cfg, s, s.changed, check).Checked?
    ensures ShowsEdits(Judged(RunVerification(cfg, s, s.changed, check).state, |s.results|))
  {
    VerificationInspects(cfg, s, s.changed, check);
    match check
    case Reports(reports) => DiffFoundExactlyWhen(cfg, s, reports);
    case RunnerError(message) => RunnerErrorShowsNothing(cfg, s, message);
    case _ =>
  }

  lemma InspectAndGateShows(cfg: Config, s: State, check: Verification, endHooks: EndHooks)
    requires Bounded(s) && ShowsEdits(s)
    ensures ShowsEdits(InspectAndGate(cfg, s, check, endHooks).state)
  {
    if Uninspected(cfg, s) && cfg.gitAvailable && cfg.hasVerifier {
      match RunVerification(cfg, s, s.changed, check)
      case PolicyDenied =>
      case Checked(next, _) =>
        JudgedShows(cfg, s, check);
        GateKeepsReview(cfg, Judged(next, |s.results|), endHooks);
    } else {
      GateKeepsReview(cfg, s, endHooks);
    }
  }

  lemma PlanningKeepsReview(cfg: Config, s: State, r: Response)
    ensures var t := PlanFromText(s, r); t.inspected == s.inspected && t.review == s.review && t.results == s.results
    ensures PlanFromText(s, r).changed == s.changed
    ensures var t := PlanAnswer(cfg, s, r); t.inspected == s.inspected && t.review == s.review && t.results == s.results
    ensures PlanAnswer(cfg, s, r).changed == s.changed
  {
  }

  lemma {:induction false} WaiversKeepReview(s: State, waivers: seq<string>)
    ensures var t := WaiveAll(s, waivers).0; t.inspected == s.inspected && t.review == s.review
    decreases |waivers|
  {
    if waivers != [] { WaiversKeepReview(WaiveOne(s, waivers[0]), waivers[1..]); }
  }

  lemma CompleteShows(cfg: Config, s: State, r: Response)
    requires Bounded(s) && ShowsEdits(s)
    ensures ShowsEdits(Complete(cfg, s, r).state)
  {
    var answered := PlanAnswer(cfg, s, r);
    PlanningKeepsReview(cfg, s, r);
    WaiversKeepReview(answered, r.waivers);
    ApplyWaiversIsQuiet(answered, r.waivers);
    InspectAndGateShows(cfg, ApplyWaivers(answered, r.waivers), r.finalCheck, r.endHooks);
  }

  lemma FinalResponseShows(cfg: Config, s: State, r: Response)
    requires Bounded(s) && ShowsEdits(s)
    ensures ShowsEdits(FinalResponse(cfg, s, r).state)
  {
    PlanningKeepsReview(cfg, s, r);
    if r.directive.NoDirective? {
      CompleteShows(cfg, PlanFromText(s, r), r);
    } else {
      FinishKeepsReview(PlanFromText(s, r), StopStatus(r.directive), r.endHooks);
    }
  }

  lemma AnswerShows(s: State, t: Turn)
    requires t.model.Answered? && Bounded(s) && ShowsEdits(s)
    ensures Bounded(Answer(s, t)) && ShowsEdits(Answer(s, t))
  {
    var answered := ProviderAnswered(Request(s));
    ReplanKeepsWork(answered, t.model.response);
    RequestKeepsWork(s);
    SpendKeepsWork(Replan(answered, t.model.response), t.model.response);
  }

  lemma AbortShows(s: State, status: Plan.Completion)
    requires ShowsEdits(s)
    ensures ShowsEdits(Abort(s, status).state)
  {
  }

  lemma ResponseWithoutCallsShows(cfg: Config, s: State, t: Turn, r: Response)
    requires Bounded(s) && ShowsEdits(s)
    requires LimitReached(cfg, s.budget, t.cancelledAfter, t.expiredAfter).Some? || r.calls == []
             || s.budget.turns >= cfg.limits.maxTurns
    ensures ShowsEdits(AfterResponse(cfg, s, t, r).state)
  {
    match LimitReached(cfg, s.budget, t.cancelledAfter, t.expiredAfter)
    case Some(status) => AbortShows(s, status);
    case None =>
      if r.calls == [] {
        FinalResponseShows(cfg, s, r);
      } else {
        AbortShows(s, Plan.Completion.ResourceLimitReached);
      }
  }

  lemma RequestShows(s: State)
    requires ShowsEdits(s)
    ensures ShowsEdits(BeginTurn(s)) && ShowsEdits(Request(s))
  {
  }

  lemma TurnWithoutCallsShows(cfg: Config, s: State, t: Turn)
    requires Bounded(s) && ShowsEdits(s) && !ReachesCalls(cfg, s, t)
    ensures ShowsEdits(TurnStep(cfg, s, t).state)
  {
    RequestShows(s);
    match LimitReached(cfg, s.budget, t.cancelledBefore, t.expiredBefore)
    case Some(status) => AbortShows(s, status);
    case None =>
      if t.prepared {
        match t.model
        case ModelCancelled => AbortShows(Request(s), Plan.Completion.Cancelled);
        case ModelFailed(message) => AbortShows(Push(Request(s), ProviderFailure(message)), Plan.Completion.Stuck);
        case Answered(response) =>
          AnswerShows(s, t);
          ResponseWithoutCallsShows(cfg, Answer(s, t), t, response);
      }
  }

  // ----- runs -----

  ghost predicate CallsHideEdit(cfg: Config, s: State, calls: seq<ToolCall>, endHooks: EndHooks)
    decreases |calls|
  {
    calls != []
    && (HidesEdit(cfg, s, calls[0])
        || match ToolStep(cfg, s, calls[0], endHooks)
           case Running(next) => CallsHideEdit(cfg, next, calls[1..], endHooks)
           case Stopped(_, _) => false)
  }

  ghost predicate TurnHidesEdit(cfg: Config, s: State, t: Turn) {
    ReachesCalls(cfg, s, t)
    && CallsHideEdit(cfg, Answer(s, t), t.model.response.calls, t.model.response.endHooks)
  }

  /** Some call of the run hides an edit. */
  ghost predicate RunHidesEdit(cfg: Config, s: State, turns: seq<Turn>)
    decreases |turns|
  {
    turns != []
    && (TurnHidesEdit(cfg, s, turns[0])
        || match TurnStep(cfg, s, turns[0])
           case Running(next) => RunHidesEdit(cfg, next, turns[1..])
           case Stopped(_, _) => false)
  }

  lemma {:induction false} CallsShowEdits(cfg: Config, s: State, calls: seq<ToolCall>, endHooks: EndHooks)
    requires ShowsEdits(s) && !CallsHideEdit(cfg, s, calls, endHooks)
    ensures ShowsEdits(ToolSteps(cfg, s, calls, endHooks).state)
    decreases |calls|
  {
    if calls != [] {
      CallShowsEditsExactlyWhen(cfg, s, calls[0], endHooks);
      var p := ToolStep(cfg, s, calls[0], endHooks);
      if p.Running? { CallsShowEdits(cfg, p.state, calls[1..], endHooks); }
    }
  }

  lemma TurnShowsEdits(cfg: Config, s: State, t: Turn)
    requires Bounded(s) && ShowsEdits(s) && !TurnHidesEdit(cfg, s, t)
    ensures ShowsEdits(TurnStep(cfg, s, t).state)
  {
    if ReachesCalls(cfg, s, t) {
      AnswerShows(s, t);
      CallsTurn(cfg, s, t);
      CallsShowEdits(cfg, Answer(s, t), t.model.response.calls, t.model.response.endHooks);
    } else {
      TurnWithoutCallsShows(cfg, s, t);
    }
  }

  /** Along a run in which no call hides an edit, an inspected diff always holds every edit. */
  lemma {:induction false} RunShowsEdits(cfg: Config, s: State, turns: seq<Turn>)
    requires ValidLimits(cfg) && Live(cfg, s) && ShowsEdits(s) && !RunHidesEdit(cfg, s, turns)
    ensures ShowsEdits(RunFrom(cfg, s, turns).state)
    decreases |turns|
  {
    if turns != [] {
      TurnShowsEdits(cfg, s, turns[0]);
      TurnIsGood(cfg, s, turns[0]);
      var p := TurnStep(cfg, s, turns[0]);
      if p.Running? { RunShowsEdits(cfg, p.state, turns[1..]); }
    }
  }

  /** Main result: when such a run ends Done, the last edit of any kind has been shown. */
  lemma DoneShowsEveryEdit(cfg: Config, stored: Stored, turns: seq<Turn>)
    requires ValidLimits(cfg) && ValidStored(stored) && (stored.inspected ==> FullyReviewed(stored.review))
    requires !RunHidesEdit(cfg, Start(cfg, stored), turns) && IsDone(RunFromStart(cfg, stored, turns))
    ensures var s := RunFromStart(cfg, stored, turns).state;
            cfg.mode == Code && s.changed != [] ==> FullyReviewed(s.review)
  {
    StartIsLive(cfg, stored);
    RunIsGood(cfg, Start(cfg, stored), turns);
    RunShowsEdits(cfg, Start(cfg, stored), turns);
  }

  // ----- a run that hides an edit -----

  /** A call that changes a file and fails, and one that succeeds with the same tool and changes none. */
  predicate FailsAfterEditing(c: ToolCall) {
    && !c.cancelled && c.name != "shell" && c.recorded && c.verification.NoSteps? && c.outcome.ToolDone?
    && c.outcome.result.isError && c.outcome.result.changedFiles != []
    && c.outcome.result.diagnostic.None? && !c.outcome.result.completeDiff
  }

  predicate SucceedsWithoutEditing(c: ToolCall) {
    && !c.cancelled && c.name != "shell" && c.verification.NoSteps? && c.outcome.ToolDone?
    && !c.outcome.result.isError && c.outcome.result.changedFiles == []
  }

  lemma RunsTheCall(cfg: Config, s: State, c: ToolCall, endHooks: EndHooks)
    requires Answers(cfg, s, c)
    ensures ToolStep(cfg, s, c, endHooks)
            == AfterTool(cfg, Issue(Saved(CountCall(s, CallKeyOf(c))), Execution(CallKeyOf(c))), c, c.outcome.result,
                         endHooks)
  {
  }

  /**
   An edit that failed stays out of the inspection: the diff still counts as inspected afterwards, the
   call's own error is the only one it leaves, and the flag for a validation since the last edit is set.
   */
  lemma FailedEditStaysInspected(cfg: Config, s: State, c: ToolCall, endHooks: EndHooks)
    requires FailsAfterEditing(c) && Answers(cfg, s, c) && s.inspected
    requires !ReachesLimit(cfg, s, c, c.outcome.result)
    ensures var p := ToolStep(cfg, s, c, endHooks);
            && p.Running? && p.state.inspected && p.state.validated && p.state.changed != []
            && p.state.results == s.results && (Bounded(s) ==> Bounded(p.state))
            && p.state.budget == Issue(CountCall(s, CallKeyOf(c)), Execution(CallKeyOf(c))).budget
            && p.state.errors == s.errors[Tool(c.name) := Summary(c.outcome.result.output)] - {AFTER_EDIT}
            && p.state.review == s.review + [Edited(true)]
  {
    var r := c.outcome.result;
    var executed := Issue(Saved(CountCall(s, CallKeyOf(c))), Execution(CallKeyOf(c)));
    RunsTheCall(cfg, s, c, endHooks);
    var booked := BookResult(NoteEdit(executed, r), c, r);
    assert booked.errors == s.errors[Tool(c.name) := Summary(r.output)] && booked.inspected;
    assert CountOf(booked.repeatedFailures, ToolSignature(c, r))
           == CountOf(CountFailure(s, ToolSignature(c, r)).repeatedFailures, ToolSignature(c, r));
    var effects := BookEffects(booked, c, r);
    assert effects.inspected && effects.errors == booked.errors && effects.review == booked.review;
    assert AfterTool(cfg, executed, c, r, endHooks) == Verify(cfg, effects, c, r, endHooks);
  }

  lemma SuccessClearsItsError(cfg: Config, s: State, c: ToolCall, endHooks: EndHooks)
    requires SucceedsWithoutEditing(c) && Answers(cfg, s, c) && s.inspected
    ensures var p := ToolStep(cfg, s, c, endHooks);
            && p.Running? && p.state.inspected && p.state.changed == s.changed && p.state.results == s.results
            && p.state.errors == s.errors - {Tool(c.name)} - {AFTER_EDIT}
            && p.state.review == s.review
            && p.state.budget == Issue(CountCall(s, CallKeyOf(c)), Execution(CallKeyOf(c))).budget
  {
    RunsTheCall(cfg, s, c, endHooks);
  }

  /** The two calls leave no error, an inspected diff, and an edit that it does not hold. */
  predicate Hidden(s: State, was: State) {
    && s.errors == map[] && s.inspected && Bounded(s) && s.changed != [] && s.review == was.review + [Edited(true)]
    && s.budget.turns == was.budget.turns && s.budget.toolCalls == was.budget.toolCalls + 2
  }

  lemma SecondAnswers(cfg: Config, s: State, s1: State, bad: ToolCall, good: ToolCall)
    requires cfg.mode == Code && FailsAfterEditing(bad) && SucceedsWithoutEditing(good)
    requires good.arguments != bad.arguments
    requires s.budget.toolCalls + 2 <= cfg.limits.maxToolCalls && s.budget.repeatedCalls == map[]
    requires s1.budget == Issue(CountCall(s, CallKeyOf(bad)), Execution(CallKeyOf(bad))).budget
    ensures Answers(cfg, s, bad) && Answers(cfg, s1, good)
  {
    assert CallKeyOf(good) != CallKeyOf(bad);
  }

  lemma FirstFailure(cfg: Config, s: State, c: ToolCall)
    requires c.outcome.ToolDone? && s.repeatedFailures == map[] && cfg.limits.maxRepeatedFailures >= 2
    ensures !ReachesLimit(cfg, s, c, c.outcome.result)
  {
  }

  lemma BadThenGood(cfg: Config, s: State, bad: ToolCall, good: ToolCall, endHooks: EndHooks) returns (end: State)
    requires s.errors == map[] && s.inspected && Bounded(s) && cfg.mode == Code
    requires FailsAfterEditing(bad) && SucceedsWithoutEditing(good)
    requires good.name == bad.name && good.arguments != bad.arguments
    requires s.budget.toolCalls + 2 <= cfg.limits.maxToolCalls && s.budget.repeatedCalls == map[]
    requires s.repeatedFailures == map[] && cfg.limits.maxRepeatedFailures >= 2
    ensures ToolSteps(cfg, s, [bad, good], endHooks) == Running(end) && Hidden(end, s)
  {
    var b := Issue(CountCall(s, CallKeyOf(bad)), Execution(CallKeyOf(bad)));
    SecondAnswers(cfg, s, b, bad, good);
    FirstFailure(cfg, s, bad);
    var s1 := ToolStep(cfg, s, bad, endHooks).state;
    FailedEditStaysInspected(cfg, s, bad, endHooks);
    SecondAnswers(cfg, s, s1, bad, good);
    end := ToolStep(cfg, s1, good, endHooks).state;
    SuccessClearsItsError(cfg, s1, good, endHooks);
    TwoCalls(cfg, s, bad, good, s1, end, endHooks);
    ErrorIsCleared(Tool(bad.name), Summary(bad.outcome.result.output));
  }

  lemma ErrorIsCleared(key: Key, e: Entry)
    ensures (map[])[key := e] - {AFTER_EDIT} - {key} - {AFTER_EDIT} == map[]
  {
  }

  lemma TwoCalls(cfg: Config, s: State, first: ToolCall, second: ToolCall, s1: State, s2: State, endHooks: EndHooks)
    requires ToolStep(cfg, s, first, endHooks) == Running(s1) && ToolStep(cfg, s1, second, endHooks) == Running(s2)
    ensures ToolSteps(cfg, s, [first, second], endHooks) == Running(s2)
  {
    assert [first, second][1..] == [second];
    OneCall(cfg, s1, second, endHooks);
  }

  /** Nothing interrupts the turn, and neither tokens nor costs are limited. */
  predicate Undisturbed(cfg: Config, t: Turn) {
    && t.prepared && t.model.Answered?
    && !t.cancelledBefore && !t.expiredBefore && !t.cancelledAfter && !t.expiredAfter
    && cfg.limits.maxModelTokens == 0 && cfg.limits.maxCost.None?
  }

  lemma UndisturbedInTime(cfg: Config, s: State, t: Turn)
    requires Undisturbed(cfg, t)
    requires s.budget.turns < cfg.limits.maxTurns && s.budget.toolCalls <= cfg.limits.maxToolCalls
    ensures InTime(cfg, s, t)
    ensures Answer(s, t).budget.turns == s.budget.turns + 1
    ensures Answer(s, t).budget.toolCalls == s.budget.toolCalls
    ensures Answer(s, t).budget.repeatedCalls == s.budget.repeatedCalls
  {
    var answered := ProviderAnswered(Request(s));
    var replanned := Replan(answered, t.model.response);
    assert answered.budget == Request(s).budget;
    assert replanned.budget == answered.budget;
  }

  lemma AnswerKeepsFailures(s: State, t: Turn)
    requires t.model.Answered?
    ensures Answer(s, t).repeatedFailures == s.repeatedFailures
  {
    assert ProviderAnswered(Request(s)).repeatedFailures == s.repeatedFailures;
    assert Replan(ProviderAnswered(Request(s)), t.model.response).repeatedFailures == s.repeatedFailures;
  }

  lemma TwoTurns(cfg: Config, s: State, first: Turn, second: Turn, s1: State)
    requires TurnStep(cfg, s, first) == Running(s1)
    ensures RunFrom(cfg, s, [first, second]) == TurnStep(cfg, s1, second)
  {
    assert [first, second][1..] == [second];
    OneTurn(cfg, s1, second);
  }

  /** A state as a run starts with: nothing counted and nothing unresolved. */
  predicate Untouched(s: State) {
    && s.errors == map[] && s.inspected && Bounded(s)
    && s.budget.toolCalls == 0 && s.budget.repeatedCalls == map[] && s.repeatedFailures == map[]
  }

  lemma WorkAnswer(cfg: Config, start: State, work: Turn)
    requires Untouched(start) && start.budget.turns == 0 && cfg.limits.maxTurns >= 2
    requires Undisturbed(cfg, work) && work.model.response.calls != []
    ensures ReachesCalls(cfg, start, work)
    ensures var s := Answer(start, work); Untouched(s) && s.budget.turns == 1 && s.review == start.review
  {
    UndisturbedInTime(cfg, start, work);
    AnswerErrors(start, work);
    AnswerKeepsFailures(start, work);
  }

  /** The first of the two turns. */
  lemma WorkTurn(cfg: Config, start: State, work: Turn, bad: ToolCall, good: ToolCall) returns (end: State)
    requires Untouched(start) && start.budget.turns == 0 && cfg.mode == Code
    requires Undisturbed(cfg, work) && work.model.response.calls == [bad, good]
    requires cfg.limits.maxTurns >= 2 && cfg.limits.maxToolCalls >= 2 && cfg.limits.maxRepeatedFailures >= 2
    requires FailsAfterEditing(bad) && SucceedsWithoutEditing(good)
    requires good.name == bad.name && good.arguments != bad.arguments
    ensures TurnStep(cfg, start, work) == Running(end)
    ensures end.errors == map[] && end.inspected && Bounded(end) && end.changed != []
    ensures end.review == start.review + [Edited(true)] && end.budget.turns == 1 && end.budget.toolCalls == 2
  {
    WorkAnswer(cfg, start, work);
    CallsTurn(cfg, start, work);
    end := BadThenGood(cfg, Answer(start, work), bad, good, work.model.response.endHooks);
  }

  lemma AnswerErrors(s: State, t: Turn)
    requires t.model.Answered?
    ensures SameWork(WithoutError(s, Provider), Answer(s, t))
  {
    var answered := ProviderAnswered(Request(s));
    RequestKeepsWork(s);
    ReplanKeepsWork(answered, t.model.response);
    SpendKeepsWork(Replan(answered, t.model.response), t.model.response);
  }

  /**
   So Done does not mean that every edit was shown.  From every task resumed with an inspected change and
   no error there is such a run, when the limits leave room: one turn with a call that edits a file and
   fails and a call of the same tool that succeeds, and a bare answer.
   */
  lemma FailedEditGoesUnreviewed(cfg: Config, stored: Stored, work: Turn, bad: ToolCall, good: ToolCall, answer: Turn)
    requires ValidStored(stored) && stored.inspected && stored.errors == []
    requires cfg.mode == Code && Undisturbed(cfg, work) && work.model.response.calls == [bad, good]
    requires cfg.limits.maxTurns >= 2 && cfg.limits.maxToolCalls >= 2 && cfg.limits.maxRepeatedFailures >= 2
    requires FailsAfterEditing(bad) && SucceedsWithoutEditing(good)
    requires good.name == bad.name && good.arguments != bad.arguments
    requires Undisturbed(cfg, answer) && PlainAnswer(answer)
    ensures var end := RunFromStart(cfg, stored, [work, answer]);
            IsDone(end) && end.state.changed != [] && !FullyReviewed(end.state.review)
  {
    var start := Start(cfg, stored);
    CleanStart(cfg, stored);
    var end := WorkTurn(cfg, start, work, bad, good);
    TwoTurns(cfg, start, work, answer, end);
    UndisturbedInTime(cfg, end, answer);
    BareAnswerTurn(cfg, end, answer);
    EditHides(start.review, true);
  }

}
