/**
 For which configurations the failure limit is kept: no run counts any failure more often than
 max(1, limit), whatever its other limits, its stored state and its environment are.
 */
module AgentLimits {
  import opened Wrappers
  import opened AgentMachine
  import opened AgentSafety
  import opened AgentResume
  import opened AgentRuns
  import opened AgentCompletion
  import opened AgentGaps
  import opened AgentStorage
  import opened AgentReview
  import opened AgentFailures
  import Plan = ExecutionPlan

  // ----- where the limit is kept -----

  /** Final responses are inspected automatically. */
  predicate InspectsFinally(cfg: Config) { cfg.mode == Code && cfg.gitAvailable && cfg.hasVerifier }

  predicate AtMostOneReport(check: Verification) { check.Reports? ==> |check.reports| <= 1 }

  /** No automatic inspection, or one that stops the run with any failure. */
  predicate Keeps(cfg: Config, check: Verification) {
    !InspectsFinally(cfg) || (MaxFailures(cfg) == 1 && AtMostOneReport(check))
  }

  predicate TurnKeeps(cfg: Config, t: Turn) { t.model.Answered? ==> Keeps(cfg, t.model.response.finalCheck) }

  /** Below the limit while the run goes on, at most at it when it stops. */
  ghost predicate Limited(cfg: Config, p: Progress) { OutcomeWithin(p, MaxFailures(cfg) - 1, MaxFailures(cfg)) }

  /** A check of at most one report that finds the diff has counted no failure. */
  lemma FindingCountsNothing(cfg: Config, s: State, check: Verification)
    requires AtMostOneReport(check) && FindsDiff(cfg, s, check)
    ensures CheckFailures(cfg, s, check) == multiset{}
  {
    var reports := check.reports;
    assert reports[0].passed && reports[..1][1..] == [];
    FailuresInTurn(reports, 1);
  }

  lemma SameCountedStays(s: State, t: State, n: nat)
    requires Within(s, n) && t.counted == s.counted && Counts(t)
    ensures Within(t, n)
  {
  }

  lemma InspectAndGateIsLimited(cfg: Config, s: State, check: Verification, endHooks: EndHooks)
    requires ValidLimits(cfg) && Within(s, MaxFailures(cfg) - 1) && Bounded(s) && s.listing == Listing(s.errors, [])
    requires Keeps(cfg, check)
    ensures Limited(cfg, InspectAndGate(cfg, s, check, endHooks))
  {
    if Uninspected(cfg, s) && cfg.gitAvailable && cfg.hasVerifier {
      if !check.Refused? { OnlyInspectionIsLimited(cfg, s, check, endHooks); }
    } else {
      GateKeepsCounts(cfg, s, endHooks);
    }
  }

  lemma OnlyInspectionIsLimited(cfg: Config, s: State, check: Verification, endHooks: EndHooks)
    requires ValidLimits(cfg) && Within(s, MaxFailures(cfg) - 1) && Bounded(s) && s.listing == Listing(s.errors, [])
    requires Uninspected(cfg, s) && cfg.gitAvailable && cfg.hasVerifier && !check.Refused?
    requires MaxFailures(cfg) == 1 && AtMostOneReport(check)
    ensures Limited(cfg, InspectAndGate(cfg, s, check, endHooks))
  {
    var next := RunVerification(cfg, s, s.changed, check).state;
    var judged := Judged(next, |s.results|);
    VerificationWithin(cfg, s, s.changed, check, 0);
    GateKeepsCounts(cfg, judged, endHooks);
    FinalCheckStopsExactlyWhen(cfg, s, check, endHooks);
    CheckFindsDiff(cfg, s, check);
    if FindsDiff(cfg, s, check) {
      FindingCountsNothing(cfg, s, check);
      SameCountedStays(s, judged, 0);
    }
  }

  lemma CompleteIsLimited(cfg: Config, s: State, r: Response)
    requires ValidLimits(cfg) && Within(s, MaxFailures(cfg) - 1) && Bounded(s) && Keeps(cfg, r.finalCheck)
    ensures Limited(cfg, Complete(cfg, s, r))
  {
    var answered := PlanAnswer(cfg, s, r);
    PlanningKeepsCounts(cfg, s, r);
    PlanningKeepsReview(cfg, s, r);
    WaiversKeepCounts(answered, r.waivers);
    ApplyWaiversIsQuiet(answered, r.waivers);
    InspectAndGateIsLimited(cfg, ApplyWaivers(answered, r.waivers), r.finalCheck, r.endHooks);
  }

  lemma FinalResponseIsLimited(cfg: Config, s: State, r: Response)
    requires ValidLimits(cfg) && Within(s, MaxFailures(cfg) - 1) && Bounded(s) && Keeps(cfg, r.finalCheck)
    ensures Limited(cfg, FinalResponse(cfg, s, r))
  {
    PlanningKeepsCounts(cfg, s, r);
    PlanningKeepsReview(cfg, s, r);
    if r.directive.NoDirective? {
      CompleteIsLimited(cfg, PlanFromText(s, r), r);
    } else {
      FinishKeepsCounts(PlanFromText(s, r), StopStatus(r.directive), r.endHooks);
    }
  }

  lemma AfterResponseIsLimited(cfg: Config, s: State, t: Turn, r: Response)
    requires ValidLimits(cfg) && Within(s, MaxFailures(cfg) - 1) && Bounded(s) && Keeps(cfg, r.finalCheck)
    ensures Limited(cfg, AfterResponse(cfg, s, t, r))
  {
    match LimitReached(cfg, s.budget, t.cancelledAfter, t.expiredAfter)
    case Some(status) => AbortIsLimited(cfg, s, status);
    case None =>
      if r.calls == [] {
        FinalResponseIsLimited(cfg, s, r);
      } else if s.budget.turns >= cfg.limits.maxTurns {
        AbortIsLimited(cfg, s, Plan.Completion.ResourceLimitReached);
      } else {
        ToolStepsWithin(cfg, s, r.calls, r.endHooks, MaxFailures(cfg) - 1);
      }
  }

  lemma AbortIsLimited(cfg: Config, s: State, status: Plan.Completion)
    requires Within(s, MaxFailures(cfg) - 1)
    ensures Limited(cfg, Abort(s, status))
  {
  }

  lemma AfterRequestIsLimited(cfg: Config, s: State, t: Turn)
    requires ValidLimits(cfg) && Within(s, MaxFailures(cfg) - 1) && Bounded(s) && TurnKeeps(cfg, t)
    ensures Limited(cfg, AfterRequest(cfg, Request(s), t))
  {
    assert SameCounts(s, Request(s));
    match t.model
    case ModelCancelled => AbortIsLimited(cfg, Request(s), Plan.Completion.Cancelled);
    case ModelFailed(message) =>
      AbortIsLimited(cfg, Push(Request(s), ProviderFailure(message)), Plan.Completion.Stuck);
    case Answered(r) =>
      AbsorbKeepsCounts(Request(s), r);
      AnswerErrors(s, t);
      AfterResponseIsLimited(cfg, Answer(s, t), t, r);
  }

  lemma TurnIsLimited(cfg: Config, s: State, t: Turn)
    requires ValidLimits(cfg) && Within(s, MaxFailures(cfg) - 1) && Bounded(s) && TurnKeeps(cfg, t)
    ensures Limited(cfg, TurnStep(cfg, s, t))
  {
    AfterRequestIsLimited(cfg, s, t);
  }

  lemma {:induction false} RunIsLimited(cfg: Config, s: State, turns: seq<Turn>)
    requires ValidLimits(cfg) && Live(cfg, s) && Within(s, MaxFailures(cfg) - 1)
    requires forall i :: 0 <= i < |turns| ==> TurnKeeps(cfg, turns[i])
    ensures Limited(cfg, RunFrom(cfg, s, turns))
    decreases |turns|
  {
    if turns != [] {
      TurnIsLimited(cfg, s, turns[0]);
      TurnIsGood(cfg, s, turns[0]);
      var p := TurnStep(cfg, s, turns[0]);
      if p.Running? { RunIsLimited(cfg, p.state, turns[1..]); }
    }
  }

  lemma LimitHolds(cfg: Config, stored: Stored, turns: seq<Turn>, sig: Signature)
    requires ValidLimits(cfg) && ValidStored(stored)
    requires forall i :: 0 <= i < |turns| ==> TurnKeeps(cfg, turns[i])
    ensures RunFromStart(cfg, stored, turns).state.counted[sig] <= MaxFailures(cfg)
  {
    StartIsLive(cfg, stored);
    RunIsLimited(cfg, Start(cfg, stored), turns);
  }

  // ----- and where it is not -----

  /** One more failed check than the limit allows: `k` cycles of a failed check and a call, and the check again. */
  lemma OneCheckTooMany(cfg: Config, stored: Stored, check: Turn, work: Turn, r: Report, c: ToolCall, k: nat)
    requires ValidLimits(cfg) && ValidStored(stored) && stored.changed != [] && !stored.inspected
    requires InspectsFinally(cfg) && cfg.limits.maxRepeatedFailures >= 2
    requires FailedCheck(cfg, check, r) && Progresses(cfg, work, c)
    requires 2 * k < cfg.limits.maxTurns && k <= cfg.limits.maxToolCalls && k <= cfg.limits.maxRepeatedCalls
    ensures RunFromStart(cfg, stored, Cycles(check, work, k) + [check]).state.counted[ReportSignature(r)] == k + 1
  {
    var start := Start(cfg, stored);
    var turns := Cycles(check, work, k);
    assert WaitsOf(cfg, c)(start, k);
    CyclesGoOn(cfg, check, work, r, c);
    CyclesCount(StepOf(cfg), start, check, work, ReportSignature(r), WaitsOf(cfg, c), k);
    RunWithTurns(cfg, start, turns);
    var at := RunFrom(cfg, start, turns).state;
    assert WaitsOf(cfg, c)(at, 0);
    var next := CheckTurn(cfg, at, check, r);
    RunInTurn(cfg, start, turns, [check]);
    OneTurn(cfg, at, check);
  }

  /** A final check that shows the diff and also reports a failure. */
  predicate MixedCheck(t: Turn, d: Report, r: Report) {
    PlainAnswer(t) && t.model.response.finalCheck == Reports([d, r]) && ShowsDiff(d) && !r.passed
  }

  lemma TwoReports(cfg: Config, s: State, d: Report, r: Report)
    requires ShowsDiff(d) && !r.passed && |s.results| + 2 <= WINDOW
    ensures CheckFailures(cfg, s, Reports([d, r])) == multiset{ReportSignature(r)} && FindsDiff(cfg, s, Reports([d, r]))
  {
    var reports := [d, r];
    assert reports[1..] == [r] && reports[1..][1..] == [] && reports[..2] == reports;
    assert Booked(cfg, ApplyReport(s, d), [r]) == 1;
    assert Booked(cfg, s, reports) == 2;
    assert FailuresOf([r]) == FailureOf(r) + FailuresOf([]);
    assert FailuresOf(reports) == FailureOf(d) + FailuresOf([r]);
    assert ShowsDiff(reports[0]);
  }

  /** The inspection goes on with the failure counted, whatever its limit is. */
  lemma MixedInspection(cfg: Config, s: State, d: Report, r: Report, endHooks: EndHooks)
    requires Uninspected(cfg, s) && cfg.gitAvailable && cfg.hasVerifier && Bounded(s)
    requires s.listing == Listing(s.errors, []) && |s.results| + 2 <= WINDOW && ShowsDiff(d) && !r.passed
    ensures var p := InspectAndGate(cfg, s, Reports([d, r]), endHooks);
            && p.Running? && p.state.changed == s.changed && p.state.inspected
            && p.state.counted[ReportSignature(r)] == s.counted[ReportSignature(r)] + 1
            && |p.state.results| <= |s.results| + 2 && p.state.budget == s.budget
  {
    var check := Reports([d, r]);
    var next := RunVerification(cfg, s, s.changed, check).state;
    TwoReports(cfg, s, d, r);
    FinalCheckStopsExactlyWhen(cfg, s, check, endHooks);
    CheckFindsDiff(cfg, s, check);
    CheckKeepsFiles(cfg, s, check);
    VerificationIsQuiet(cfg, s, s.changed, check);
    ReportsPush(cfg, s, [d, r]);
  }

  lemma MixedTurn(cfg: Config, s: State, t: Turn, d: Report, r: Report) returns (next: State)
    requires InspectsFinally(cfg) && Undisturbed(cfg, t) && MixedCheck(t, d, r)
    requires Uninspected(cfg, s) && Bounded(s) && |s.results| + 2 <= WINDOW
    requires s.budget.turns < cfg.limits.maxTurns && s.budget.toolCalls <= cfg.limits.maxToolCalls
    ensures TurnStep(cfg, s, t) == Running(next) && next.changed == s.changed && next.inspected
    ensures next.counted[ReportSignature(r)] == s.counted[ReportSignature(r)] + 1
    ensures |next.results| <= |s.results| + 2
    ensures next.budget.turns == s.budget.turns + 1 && next.budget.toolCalls == s.budget.toolCalls
    ensures next.budget.repeatedCalls == s.budget.repeatedCalls
  {
    UndisturbedInTime(cfg, s, t);
    PlainAnswerTurn(cfg, s, t);
    ClaimedKeeps(cfg, s, t);
    MixedInspection(cfg, Claimed(cfg, s, t), d, r, t.model.response.endHooks);
    next := TurnStep(cfg, s, t).state;
  }

  /** A call that changes files and succeeds. */
  predicate Edits(c: ToolCall) {
    && !c.cancelled && c.name != "shell" && c.verification.NoSteps? && c.recorded && c.outcome.ToolDone?
    && !c.outcome.result.isError && c.outcome.result.changedFiles != [] && c.outcome.result.diagnostic.None?
  }

  lemma EditingCall(cfg: Config, s: State, c: ToolCall, endHooks: EndHooks)
    requires InspectsFinally(cfg) && Edits(c) && Answers(cfg, s, c) && Bounded(s)
    ensures var p := ToolStep(cfg, s, c, endHooks);
            && p.Running? && Uninspected(cfg, p.state) && Bounded(p.state) && p.state.results == s.results
            && p.state.counted == s.counted
            && p.state.budget == Issue(CountCall(s, CallKeyOf(c)), Execution(CallKeyOf(c))).budget
  {
    RunsTheCall(cfg, s, c, endHooks);
  }

  lemma EditingTurn(cfg: Config, s: State, t: Turn, c: ToolCall) returns (next: State)
    requires InspectsFinally(cfg) && Undisturbed(cfg, t) && t.model.response.calls == [c] && Edits(c) && Bounded(s)
    requires s.budget.turns + 1 < cfg.limits.maxTurns && s.budget.toolCalls < cfg.limits.maxToolCalls
    requires s.budget.repeatedCalls == map[]
    ensures TurnStep(cfg, s, t) == Running(next) && Uninspected(cfg, next) && Bounded(next)
    ensures next.results == s.results && next.counted == s.counted
    ensures next.budget.turns == s.budget.turns + 1 && next.budget.toolCalls == s.budget.toolCalls + 1
  {
    var a := Answer(s, t);
    UndisturbedInTime(cfg, s, t);
    AnswerErrors(s, t);
    AbsorbKeepsCounts(Request(s), t.model.response);
    CallsTurn(cfg, s, t);
    OneCall(cfg, a, c, t.model.response.endHooks);
    EditingCall(cfg, a, c, t.model.response.endHooks);
    next := TurnStep(cfg, s, t).state;
  }

  /** A failure that comes with the diff is counted twice: before and after an edit. */
  lemma MixedCheckTwice(cfg: Config, stored: Stored, check: Turn, work: Turn, d: Report, r: Report, c: ToolCall)
    requires InspectsFinally(cfg) && Undisturbed(cfg, check) && MixedCheck(check, d, r)
    requires Undisturbed(cfg, work) && work.model.response.calls == [c] && Edits(c)
    requires ValidStored(stored) && stored.changed != [] && !stored.inspected && |stored.results| + 4 <= WINDOW
    requires cfg.limits.maxTurns >= 3 && cfg.limits.maxToolCalls >= 1
    ensures RunFromStart(cfg, stored, [check, work, check]).state.counted[ReportSignature(r)] == 2
  {
    var start := Start(cfg, stored);
    var s1 := MixedTurn(cfg, start, check, d, r);
    var s2 := EditingTurn(cfg, s1, work, c);
    var s3 := MixedTurn(cfg, s2, check, d, r);
    TwoTurns(cfg, start, check, work, s1);
    RunInTurn(cfg, start, [check, work], [check]);
    OneTurn(cfg, s2, check);
    assert [check, work] + [check] == [check, work, check];
  }

  // ----- the configurations, exactly -----

  ghost predicate FewReports(turns: seq<Turn>) {
    forall i :: 0 <= i < |turns| ==>
      turns[i].model.Answered? ==> AtMostOneReport(turns[i].model.response.finalCheck)
  }

  predicate Configured(cfg: Config, mode: Mode, git: bool, verifier: bool, failures: nat) {
    && cfg.mode == mode && cfg.gitAvailable == git && cfg.hasVerifier == verifier
    && cfg.limits.maxRepeatedFailures == failures
  }

  /** Every run counts every failure within the limit, whatever else limits the run. */
  ghost predicate KeepsLimit(mode: Mode, git: bool, verifier: bool, failures: nat) {
    forall cfg: Config, stored: Stored, turns: seq<Turn>, sig: Signature ::
      Configured(cfg, mode, git, verifier, failures) && ValidLimits(cfg) && ValidStored(stored) ==>
        RunFromStart(cfg, stored, turns).state.counted[sig] <= AtLeastOne(failures)
  }

  /** The same of runs whose final checks have at most one report each. */
  ghost predicate KeepsLimitWithFewReports(mode: Mode, git: bool, verifier: bool, failures: nat) {
    forall cfg: Config, stored: Stored, turns: seq<Turn>, sig: Signature ::
      Configured(cfg, mode, git, verifier, failures) && ValidLimits(cfg) && ValidStored(stored) && FewReports(turns) ==>
        RunFromStart(cfg, stored, turns).state.counted[sig] <= AtLeastOne(failures)
  }

  const NO_CONTEXT: Plan.Context := Plan.Context([], [], [], [])

  const NO_PLAN: Plan.State := Plan.State(None, None, Plan.Completion.Working, [])

  /** A turn without a plan, tokens or hooks. */
  function SimpleTurn(calls: seq<ToolCall>, finalCheck: Verification): Turn {
    Turn(false, false, true,
         Answered(Response(0, None, None, None, false, NoDirective, [], ([], NO_CONTEXT), finalCheck, Passed, calls)),
         false, false)
  }

  function SimpleCall(result: ToolResult): ToolCall {
    ToolCall(false, "tool", "", None, true, ToolDone(result), true, NoSteps)
  }

  const FAILED: Report := Report(GitDiff, "git diff", false, None, "")

  /** A stored task with one changed file that was not inspected. */
  const UNSEEN: Stored := Stored.Stored([], ["file"], [], false, [], false, None, NO_PLAN, [])

  lemma UnseenIsValid()
    ensures ValidStored(UNSEEN)
  {
  }

  const SHOWN: Report := Report(GitDiff, "git diff", true, None, "")

  const IDLE: ToolCall := SimpleCall(ToolResult(false, "", [], None, false))

  const EDIT: ToolCall := SimpleCall(ToolResult(false, "", ["file"], None, false))

  /** The limit on failures, and room under all others. */
  function WithRoom(failures: nat): Config {
    Config(Code, true, true, true,
           Limits(2 * failures + 4, AtLeastOne(failures), 0, None, AtLeastOne(failures), failures))
  }

  const FAILED_CHECK: Turn := SimpleTurn([], Reports([FAILED]))
  const MIXED_CHECK: Turn := SimpleTurn([], Reports([SHOWN, FAILED]))
  const IDLE_TURN: Turn := SimpleTurn([IDLE], NoSteps)
  const EDIT_TURN: Turn := SimpleTurn([EDIT], NoSteps)

  lemma FailedChecksAreSo(failures: nat)
    requires 2 <= failures <= U32_MAX
    ensures var cfg := WithRoom(failures);
            && ValidLimits(cfg) && Configured(cfg, Code, true, true, failures)
            && FailedCheck(cfg, FAILED_CHECK, FAILED) && Progresses(cfg, IDLE_TURN, IDLE)
            && FewReports([FAILED_CHECK, IDLE_TURN])
  {
  }

  lemma MixedChecksAreSo(failures: nat)
    requires failures <= 1
    ensures var cfg := WithRoom(failures);
            && ValidLimits(cfg) && Configured(cfg, Code, true, true, failures)
            && Undisturbed(cfg, MIXED_CHECK) && MixedCheck(MIXED_CHECK, SHOWN, FAILED)
            && Undisturbed(cfg, EDIT_TURN) && EDIT_TURN.model.response.calls == [EDIT] && Edits(EDIT)
  {
  }

  /** From a limit of two upwards one failed check after the other passes it. */
  lemma FailedChecksPassLimit(failures: nat)
    requires 2 <= failures <= U32_MAX
    ensures !KeepsLimitWithFewReports(Code, true, true, failures)
  {
    var cfg := WithRoom(failures);
    var turns := Cycles(FAILED_CHECK, IDLE_TURN, failures) + [FAILED_CHECK];
    UnseenIsValid();
    FailedChecksAreSo(failures);
    OneCheckTooMany(cfg, UNSEEN, FAILED_CHECK, IDLE_TURN, FAILED, IDLE, failures);
    CyclesHaveFewReports(FAILED_CHECK, IDLE_TURN, failures);
    assert RunFromStart(cfg, UNSEEN, turns).state.counted[ReportSignature(FAILED)] == failures + 1;
  }

  lemma {:induction false} CyclesHaveFewReports(check: Turn, work: Turn, k: nat)
    requires FewReports([check, work])
    ensures FewReports(Cycles(check, work, k) + [check])
    decreases k
  {
    if k > 0 {
      CyclesHaveFewReports(check, work, k - 1);
      var turns := Cycles(check, work, k) + [check];
      assert turns == [check, work] + (Cycles(check, work, k - 1) + [check]);
    } else {
      assert [check, work][0] == check;
    }
  }

  /** With a limit of at most one, a failure that comes with the diff passes it. */
  lemma MixedChecksPassLimit(failures: nat)
    requires failures <= 1
    ensures !KeepsLimit(Code, true, true, failures)
  {
    var cfg := WithRoom(failures);
    UnseenIsValid();
    MixedChecksAreSo(failures);
    MixedCheckTwice(cfg, UNSEEN, MIXED_CHECK, EDIT_TURN, SHOWN, FAILED, EDIT);
    assert RunFromStart(cfg, UNSEEN, [MIXED_CHECK, EDIT_TURN, MIXED_CHECK]).state.counted[ReportSignature(FAILED)] == 2;
  }

  /**
   Main result: the documented limit holds of every run exactly when final responses are not inspected
   automatically: outside CODE mode, without Git or without a verifier.
   */
  lemma LimitIsKeptExactlyWhen(mode: Mode, git: bool, verifier: bool, failures: nat)
    requires failures <= U32_MAX
    ensures KeepsLimit(mode, git, verifier, failures) <==> mode != Code || !git || !verifier
  {
    if mode != Code || !git || !verifier {
      forall cfg: Config, stored: Stored, turns: seq<Turn>, sig: Signature
        | Configured(cfg, mode, git, verifier, failures) && ValidLimits(cfg) && ValidStored(stored)
        ensures RunFromStart(cfg, stored, turns).state.counted[sig] <= AtLeastOne(failures)
      {
        LimitHolds(cfg, stored, turns, sig);
      }
    } else if failures <= 1 {
      MixedChecksPassLimit(failures);
    } else {
      FailedChecksPassLimit(failures);
    }
  }

  /**
   The same when every final check has at most one report, as a check with the one step of the code's own
   plan has: then also for a limit of at most one.
   */
  lemma LimitIsKeptWithFewReportsExactlyWhen(mode: Mode, git: bool, verifier: bool, failures: nat)
    requires failures <= U32_MAX
    ensures KeepsLimitWithFewReports(mode, git, verifier, failures)
            <==> mode != Code || !git || !verifier || failures <= 1
  {
    if mode != Code || !git || !verifier || failures <= 1 {
      forall cfg: Config, stored: Stored, turns: seq<Turn>, sig: Signature
        | Configured(cfg, mode, git, verifier, failures) && ValidLimits(cfg) && ValidStored(stored) && FewReports(turns)
        ensures RunFromStart(cfg, stored, turns).state.counted[sig] <= AtLeastOne(failures)
      {
        LimitHolds(cfg, stored, turns, sig);
      }
    } else {
      FailedChecksPassLimit(failures);
    }
  }

}
