/**
 How many plan revisions a task can have: three where no planning answer is installed, which is the case
 in every mode but PLAN, and six in PLAN mode.
 */
module AgentRevisions {
  import opened Wrappers
  import opened Text
  import opened AgentMachine
  import opened AgentSafety
  import opened AgentResume
  import opened AgentRuns
  import opened AgentCompletion
  import opened AgentStorage
  import opened AgentReview
  import opened AgentFailures
  import opened AgentLimits
  import Plan = ExecutionPlan

  // ----- outside PLAN mode nothing is installed -----

  /** From s to t the plan got operations that install no planning answer. */
  ghost predicate InstallsNothing(s: State, t: State) { Plan.Installs(t.planOps) == Plan.Installs(s.planOps) }

  lemma PlanStepInstallsNothing(s: State, op: Plan.Op)
    requires !op.Install?
    ensures InstallsNothing(s, PlanStep(s, op))
  {
    Plan.InstallsInTurn(s.planOps, [op]);
    Plan.NoInstalls([op]);
  }

  lemma {:induction false} ReportsKeepPlan(cfg: Config, s: State, reports: seq<Report>)
    ensures ApplyReports(cfg, s, reports).0.planOps == s.planOps
    decreases |reports|
  {
    if reports != [] { ReportsKeepPlan(cfg, ApplyReport(s, reports[0]), reports[1..]); }
  }

  lemma VerificationKeepsPlan(cfg: Config, s: State, changedFiles: seq<string>, v: Verification)
    ensures var r := RunVerification(cfg, s, changedFiles, v); r.Checked? ==> r.state.planOps == s.planOps
  {
    if v.Reports? { ReportsKeepPlan(cfg, s, v.reports); }
  }

  lemma FinishInstallsNothing(s: State, status: Plan.Completion, endHooks: EndHooks)
    ensures InstallsNothing(s, Finish(s, status, endHooks).state)
  {
    PlanStepInstallsNothing(s, Plan.FinishOp(status));
    PlanStepInstallsNothing(s, Plan.FinishOp(Plan.Completion.Stuck));
  }

  lemma EffectsKeepPlan(s: State, c: ToolCall, r: ToolResult)
    ensures BookEffects(s, c, r).planOps == s.planOps
  {
    var s1 := if ValidationOf(c).Some? then BookValidation(s, ValidationOf(c).value, r) else s;
    assert s1.planOps == s.planOps;
    var s2 := BookFiles(s1, r);
    if r.diagnostic.Some? { assert BookDiagnostic(s2, r.diagnostic.value).planOps == s2.planOps; }
  }

  lemma EndCallInstallsNothing(s: State, before: nat, r: ToolResult, repeated: bool, endHooks: EndHooks)
    ensures InstallsNothing(s, EndCall(s, before, r, repeated, endHooks).state)
  {
    var concluded := Conclude(s, before);
    assert concluded.planOps == s.planOps;
    var moved := if Meaningful(r, NewResults(s, before)) then PlanStep(concluded, Plan.ProgressOp) else concluded;
    PlanStepInstallsNothing(concluded, Plan.ProgressOp);
    FinishInstallsNothing(Saved(Listed(moved)), Plan.Completion.Stuck, endHooks);
  }

  lemma VerifyInstallsNothing(cfg: Config, s: State, c: ToolCall, r: ToolResult, endHooks: EndHooks)
    ensures InstallsNothing(s, Verify(cfg, s, c, r, endHooks).state)
  {
    var shown := if ShowsEditDiff(cfg, r) then BookEditDiff(cfg, s) else s;
    VerificationKeepsPlan(cfg, shown, r.changedFiles, c.verification);
    match RunVerification(cfg, shown, r.changedFiles, c.verification)
    case PolicyDenied =>
    case Checked(next, repeated) => EndCallInstallsNothing(next, |shown.results|, r, repeated, endHooks);
  }

  lemma BookingInstallsNothing(cfg: Config, s: State, c: ToolCall, r: ToolResult, endHooks: EndHooks)
    ensures InstallsNothing(s, AfterBooking(cfg, s, c, r, endHooks).state)
  {
    EffectsKeepPlan(s, c, r);
    VerifyInstallsNothing(cfg, BookEffects(s, c, r), c, r, endHooks);
  }

  lemma AfterToolInstallsNothing(cfg: Config, s: State, c: ToolCall, r: ToolResult, endHooks: EndHooks)
    ensures InstallsNothing(s, AfterTool(cfg, s, c, r, endHooks).state)
  {
    var booked := BookResult(NoteEdit(s, r), c, r);
    assert booked.planOps == s.planOps;
    FinishInstallsNothing(booked, Plan.Completion.Stuck, endHooks);
    BookingInstallsNothing(cfg, booked, c, r, endHooks);
  }

  lemma AbortInstallsNothing(s: State, status: Plan.Completion)
    ensures InstallsNothing(s, Abort(s, status).state)
  {
    PlanStepInstallsNothing(s, Plan.FinishOp(status));
  }

  lemma CountedCallInstallsNothing(cfg: Config, s: State, c: ToolCall, endHooks: EndHooks)
    ensures InstallsNothing(s, CountedCall(cfg, s, c, endHooks).state)
  {
    var seen := CountOf(s.budget.repeatedCalls, CallKeyOf(c));
    if seen > AtLeastOne(cfg.limits.maxRepeatedCalls) {
      var guarded := Listed(WithError(s, Guard, RepeatedCall(seen - 1, c.name)));
      FinishInstallsNothing(guarded, Plan.Completion.Stuck, endHooks);
    } else if !ModeAllows(cfg, c) {
      BookingInstallsNothing(cfg, Saved(s), c, Denied(), endHooks);
    } else {
      var executed := Issue(Saved(s), Execution(CallKeyOf(c)));
      match c.outcome
      case ToolError(message) =>
        AbortInstallsNothing(Listed(WithError(executed, Tool(c.name), Summary(message))), Plan.Completion.Stuck);
      case ToolDone(result) => AfterToolInstallsNothing(cfg, executed, c, result, endHooks);
    }
  }

  lemma ToolStepInstallsNothing(cfg: Config, s: State, c: ToolCall, endHooks: EndHooks)
    ensures InstallsNothing(s, ToolStep(cfg, s, c, endHooks).state)
  {
    AbortInstallsNothing(s, Plan.Completion.Cancelled);
    AbortInstallsNothing(s, Plan.Completion.ResourceLimitReached);
    CountedCallInstallsNothing(cfg, CountCall(s, CallKeyOf(c)), c, endHooks);
  }

  lemma {:induction false} ToolStepsInstallNothing(cfg: Config, s: State, calls: seq<ToolCall>, endHooks: EndHooks)
    ensures InstallsNothing(s, ToolSteps(cfg, s, calls, endHooks).state)
    decreases |calls|
  {
    if calls != [] {
      ToolStepInstallsNothing(cfg, s, calls[0], endHooks);
      var p := ToolStep(cfg, s, calls[0], endHooks);
      if p.Running? { ToolStepsInstallNothing(cfg, p.state, calls[1..], endHooks); }
    }
  }

  lemma GateInstallsNothing(cfg: Config, s: State, endHooks: EndHooks)
    ensures InstallsNothing(s, Gate(cfg, s, endHooks).state)
  {
    var checked := Obstacles(cfg, s);
    assert checked.planOps == s.planOps;
    FinishInstallsNothing(checked, Plan.Completion.Done, endHooks);
    FinishInstallsNothing(Waited(checked), Plan.Completion.Stuck, endHooks);
  }

  lemma InspectAndGateInstallsNothing(cfg: Config, s: State, check: Verification, endHooks: EndHooks)
    ensures InstallsNothing(s, InspectAndGate(cfg, s, check, endHooks).state)
  {
    if Uninspected(cfg, s) && cfg.gitAvailable && cfg.hasVerifier {
      VerificationKeepsPlan(cfg, s, s.changed, check);
      match RunVerification(cfg, s, s.changed, check)
      case PolicyDenied =>
      case Checked(next, _) => GateInstallsNothing(cfg, Judged(next, |s.results|), endHooks);
    } else {
      GateInstallsNothing(cfg, s, endHooks);
    }
  }

  lemma {:induction false} WaiversKeepPlan(s: State, waivers: seq<string>)
    ensures WaiveAll(s, waivers).0.planOps == s.planOps
    decreases |waivers|
  {
    if waivers != [] { WaiversKeepPlan(WaiveOne(s, waivers[0]), waivers[1..]); }
  }

  lemma PlanFromTextInstallsNothing(s: State, r: Response)
    ensures InstallsNothing(s, PlanFromText(s, r))
  {
    if r.planText.Some? { PlanStepInstallsNothing(s, Plan.Create(r.planText.value.0, r.planText.value.1)); }
  }

  lemma FinalResponseInstallsNothing(cfg: Config, s: State, r: Response)
    requires cfg.mode != Planning
    ensures InstallsNothing(s, FinalResponse(cfg, s, r).state)
  {
    var planned := PlanFromText(s, r);
    PlanFromTextInstallsNothing(s, r);
    if r.directive.NoDirective? {
      WaiversKeepPlan(planned, r.waivers);
      InspectAndGateInstallsNothing(cfg, ApplyWaivers(planned, r.waivers), r.finalCheck, r.endHooks);
    } else {
      FinishInstallsNothing(planned, StopStatus(r.directive), r.endHooks);
    }
  }

  lemma ReplanInstallsNothing(s: State, r: Response)
    ensures InstallsNothing(s, Replan(s, r))
  {
    if r.revision.Some? { PlanStepInstallsNothing(s, Plan.ReviseOp(r.revision.value.0, r.revision.value.1)); }
    PlanFromTextInstallsNothing(s, r);
  }

  lemma AfterResponseInstallsNothing(cfg: Config, s: State, t: Turn, r: Response)
    requires cfg.mode != Planning
    ensures InstallsNothing(s, AfterResponse(cfg, s, t, r).state)
  {
    match LimitReached(cfg, s.budget, t.cancelledAfter, t.expiredAfter)
    case Some(status) => AbortInstallsNothing(s, status);
    case None =>
      if r.calls == [] {
        FinalResponseInstallsNothing(cfg, s, r);
      } else if s.budget.turns >= cfg.limits.maxTurns {
        AbortInstallsNothing(s, Plan.Completion.ResourceLimitReached);
      } else {
        ToolStepsInstallNothing(cfg, s, r.calls, r.endHooks);
      }
  }

  lemma AfterRequestInstallsNothing(cfg: Config, s: State, t: Turn)
    requires cfg.mode != Planning
    ensures InstallsNothing(s, AfterRequest(cfg, s, t).state)
  {
    match t.model
    case ModelCancelled => AbortInstallsNothing(s, Plan.Completion.Cancelled);
    case ModelFailed(message) => AbortInstallsNothing(Push(s, ProviderFailure(message)), Plan.Completion.Stuck);
    case Answered(r) =>
      var answered := ProviderAnswered(s);
      assert answered.planOps == s.planOps;
      ReplanInstallsNothing(answered, r);
      AfterResponseInstallsNothing(cfg, Absorb(s, r), t, r);
  }

  lemma TurnInstallsNothing(cfg: Config, s: State, t: Turn)
    requires cfg.mode != Planning
    ensures InstallsNothing(s, TurnStep(cfg, s, t).state)
  {
    match LimitReached(cfg, s.budget, t.cancelledBefore, t.expiredBefore)
    case Some(status) => AbortInstallsNothing(s, status);
    case None => AfterRequestInstallsNothing(cfg, Request(s), t);
  }

  lemma {:induction false} RunInstallsNothing(cfg: Config, s: State, turns: seq<Turn>)
    requires cfg.mode != Planning
    ensures InstallsNothing(s, RunFrom(cfg, s, turns).state)
    decreases |turns|
  {
    if turns != [] {
      TurnInstallsNothing(cfg, s, turns[0]);
      var p := TurnStep(cfg, s, turns[0]);
      if p.Running? { RunInstallsNothing(cfg, p.state, turns[1..]); }
    }
  }

  /** In every mode but PLAN, a task in which nothing was installed has at most three accepted revisions. */
  lemma AtMostThreeRevisionsOutsidePlanMode(cfg: Config, stored: Stored, turns: seq<Turn>)
    requires ValidStored(stored) && cfg.mode != Planning && Plan.Installs(stored.planOps) == 0
    ensures Plan.AcceptedRevisions(stored.origin, RunFromStart(cfg, stored, turns).state.planOps)
            <= Plan.MAX_PLAN_REVISIONS
  {
    var start := Start(cfg, stored);
    Plan.InstallsInTurn(stored.planOps, StartOps(stored));
    Plan.NoInstalls(StartOps(stored));
    RunInstallsNothing(cfg, start, turns);
    Plan.AtMostThreeRevisionsPerInstall(stored.origin, RunFrom(cfg, start, turns).state.planOps);
  }

  // ----- a run in PLAN mode with six -----

  /** A permitted call that fails and changes nothing. */
  predicate FailsToRead(c: ToolCall) {
    && !c.cancelled && c.allowed && c.name != "shell" && c.outcome.ToolDone?
    && c.outcome.result.isError && c.outcome.result.changedFiles == []
  }

  /** A turn whose one call fails, whatever its response does to the plan. */
  predicate FailsOnce(cfg: Config, t: Turn, c: ToolCall) {
    && Undisturbed(cfg, t) && t.model.response.calls == [c] && FailsToRead(c)
  }

  /** What reading the response does to the plan. */
  function OpsOf(r: Response): seq<Plan.Op> {
    if r.revision.Some? then [Plan.ReviseOp(r.revision.value.0, r.revision.value.1)]
    else if r.planText.Some? then [Plan.Create(r.planText.value.0, r.planText.value.1)]
    else []
  }

  function TurnOps(t: Turn): seq<Plan.Op> { if t.model.Answered? then OpsOf(t.model.response) else [] }

  function FailureSignature(c: ToolCall): Signature
    requires c.outcome.ToolDone?
  {
    ToolSignature(c, c.outcome.result)
  }

  /** The limits leave room for n more turns of one failing call, and for one response without progress. */
  predicate HasRoom(cfg: Config, s: State, c: ToolCall, n: nat)
    requires c.outcome.ToolDone?
  {
    && s.budget.turns + n < cfg.limits.maxTurns && s.budget.toolCalls + n <= cfg.limits.maxToolCalls
    && CountOf(s.budget.repeatedCalls, CallKeyOf(c)) + n <= AtLeastOne(cfg.limits.maxRepeatedCalls) <= U32_MAX
    && CountOf(s.repeatedFailures, FailureSignature(c)) + n < MaxFailures(cfg) <= U32_MAX
  }

  lemma FailingCall(cfg: Config, s: State, c: ToolCall, endHooks: EndHooks)
    requires FailsToRead(c) && Answers(cfg, s, c)
    requires Increment(CountOf(s.repeatedFailures, FailureSignature(c))) < MaxFailures(cfg)
    ensures var p := ToolStep(cfg, s, c, endHooks);
            && p.Running? && Tool(c.name) in p.state.errors
            && p.state.planOps == s.planOps && p.state.structured == s.structured && p.state.stall == s.stall
            && p.state.repeatedFailures == CountFailure(s, FailureSignature(c)).repeatedFailures
            && p.state.budget == Issue(CountCall(s, CallKeyOf(c)), Execution(CallKeyOf(c))).budget
  {
    RunsTheCall(cfg, s, c, endHooks);
  }

  lemma ReportedPlan(s: State, op: Plan.Op, changed: bool)
    ensures var t := ReportedIf(PlanStep(s, op), changed);
            t.structured == s.structured && t.planOps == s.planOps + [op]
  {
  }

  lemma ReplanPlans(s: State, r: Response)
    ensures Replan(s, r).structured == s.structured && Replan(s, r).planOps == s.planOps + OpsOf(r)
  {
    if r.revision.Some? {
      ReportedPlan(s, OpsOf(r)[0], r.planChanged);
    } else if r.planText.Some? {
      ReportedPlan(s, OpsOf(r)[0], r.planChanged);
    }
  }

  lemma AnswerPlans(s: State, t: Turn)
    requires t.model.Answered?
    ensures Answer(s, t).structured == s.structured && Answer(s, t).planOps == s.planOps + TurnOps(t)
  {
    var answered := ProviderAnswered(Request(s));
    assert answered.planOps == s.planOps && answered.structured == s.structured;
    ReplanPlans(answered, t.model.response);
  }

  /** A turn of a run in PLAN mode: the plan gets its operation, and the failure is one more error. */
  lemma FailingTurn(cfg: Config, s: State, t: Turn, c: ToolCall, n: nat) returns (next: State)
    requires FailsOnce(cfg, t, c) && n > 0 && HasRoom(cfg, s, c, n)
    ensures TurnStep(cfg, s, t) == Running(next) && Tool(c.name) in next.errors
    ensures Follows(s, t, next) && HasRoom(cfg, next, c, n - 1)
  {
    var a := Answer(s, t);
    UndisturbedInTime(cfg, s, t);
    AnswerPlans(s, t);
    AnswerKeepsFailures(s, t);
    AnswerKeepsStall(s, t);
    CallsTurn(cfg, s, t);
    OneCall(cfg, a, c, t.model.response.endHooks);
    FailingCall(cfg, a, c, t.model.response.endHooks);
    next := TurnStep(cfg, s, t).state;
  }

  function AllOps(turns: seq<Turn>): seq<Plan.Op>
    decreases |turns|
  {
    if turns == [] then [] else TurnOps(turns[0]) + AllOps(turns[1..])
  }

  /** A final answer in PLAN mode, as an implementation plan. */
  predicate PlanningAnswer(cfg: Config, t: Turn) {
    && Undisturbed(cfg, t) && PlainAnswer(t) && t.model.response.revision.None? && t.model.response.planText.None?
  }

  function InstallOf(t: Turn): Plan.Op
    requires t.model.Answered?
  {
    Plan.Install(t.model.response.planAnswer.0, t.model.response.planAnswer.1)
  }

  /** The planning answer is installed and, because of the error that is left, refused. */
  lemma RefusedAnswer(cfg: Config, s: State, r: Response)
    requires cfg.mode == Planning && !s.structured && s.errors != map[] && s.stall.count == 0 && MaxFailures(cfg) >= 2
    requires r.waivers == [] && r.endHooks.Passed?
    ensures var p := Complete(cfg, s, r);
            && p.Running? && p.state.budget == s.budget && p.state.repeatedFailures == s.repeatedFailures
            && p.state.planOps == s.planOps + [Plan.Install(r.planAnswer.0, r.planAnswer.1)]
  {
    var waived := ApplyWaivers(PlanAnswer(cfg, s, r), []);
    assert waived.errors == s.errors && waived.listing == Listing(s.errors, []);
    assert Obstacles(cfg, waived) == waived;
    assert Complete(cfg, s, r) == Gate(cfg, waived, Passed);
  }

  lemma RefusedTurn(cfg: Config, s: State, t: Turn, c: ToolCall, n: nat) returns (next: State)
    requires cfg.mode == Planning && PlanningAnswer(cfg, t) && !s.structured && s.stall.count == 0
    requires Tool(c.name) in s.errors && c.outcome.ToolDone? && HasRoom(cfg, s, c, n + 1)
    ensures TurnStep(cfg, s, t) == Running(next) && HasRoom(cfg, next, c, n)
    ensures next.planOps == s.planOps + [InstallOf(t)]
  {
    var a := Answer(s, t);
    UndisturbedInTime(cfg, s, t);
    PlainAnswerTurn(cfg, s, t);
    AnswerPlans(s, t);
    AnswerKeepsFailures(s, t);
    AnswerKeepsStall(s, t);
    AnswerErrors(s, t);
    assert Tool(c.name) in a.errors;
    RefusedAnswer(cfg, a, t.model.response);
    next := TurnStep(cfg, s, t).state;
  }

  // ----- the same for any step, so that runs can be reasoned about without looking into a turn -----

  /** The turn fails once, in any state with room for it. */
  ghost predicate GoesOn(step: (State, Turn) -> Progress, room: (State, nat) -> bool, failed: State -> bool, t: Turn) {
    forall s, n: nat {:trigger step(s, t), room(s, n)} :: n > 0 && room(s, n) ==>
      exists next :: step(s, t) == Running(next) && Follows(s, t, next) && room(next, n - 1) && failed(next)
  }

  predicate Follows(s: State, t: Turn, next: State) {
    next.planOps == s.planOps + TurnOps(t) && next.structured == s.structured && next.stall == s.stall
  }

  /** The answer is installed and refused. */
  ghost predicate Refuses(step: (State, Turn) -> Progress, room: (State, nat) -> bool, failed: State -> bool,
                          t: Turn, install: Plan.Op)
  {
    forall s, n: nat {:trigger step(s, t), room(s, n)} ::
      n > 0 && room(s, n) && failed(s) && !s.structured && s.stall.count == 0 ==>
        exists next ::
          step(s, t) == Running(next) && next.planOps == s.planOps + [install] && room(next, n - 1)
  }

  lemma OpsInTurn(a: seq<Plan.Op>, b: seq<Plan.Op>, c: seq<Plan.Op>)
    ensures (a + b) + c == a + (b + c)
  {
  }

  lemma GoOn(step: (State, Turn) -> Progress, room: (State, nat) -> bool, failed: State -> bool, t: Turn,
             s: State, n: nat)
    returns (next: State)
    requires GoesOn(step, room, failed, t) && n > 0 && room(s, n)
    ensures step(s, t) == Running(next) && Follows(s, t, next) && room(next, n - 1) && failed(next)
  {
    var p := step(s, t);
    next :| p == Running(next) && Follows(s, t, next) && room(next, n - 1) && failed(next);
  }

  lemma {:induction false} FailuresGoOn(step: (State, Turn) -> Progress, room: (State, nat) -> bool,
                                        failed: State -> bool, s: State, turns: seq<Turn>, n: nat)
    returns (next: State)
    requires forall t :: t in turns ==> GoesOn(step, room, failed, t)
    requires room(s, |turns| + n)
    ensures RunWith(step, s, turns) == Running(next) && room(next, n)
    ensures next.planOps == s.planOps + AllOps(turns) && next.structured == s.structured && next.stall == s.stall
    ensures turns != [] ==> failed(next)
    decreases |turns|
  {
    if turns == [] {
      next := s;
    } else {
      var t := turns[0];
      var s1 := GoOn(step, room, failed, t, s, |turns| + n);
      next := FailuresGoOn(step, room, failed, s1, turns[1..], n);
      OpsInTurn(s.planOps, TurnOps(t), AllOps(turns[1..]));
    }
  }

  /** Turns that fail, a planning answer that is refused, and again turns that fail. */
  lemma PlanningRunWith(step: (State, Turn) -> Progress, room: (State, nat) -> bool, failed: State -> bool,
                        s: State, early: seq<Turn>, answer: Turn, late: seq<Turn>, install: Plan.Op)
    requires forall t :: t in early || t in late ==> GoesOn(step, room, failed, t)
    requires Refuses(step, room, failed, answer, install)
    requires early != [] && !s.structured && s.stall.count == 0 && room(s, |early| + (|late| + 1))
    ensures var p := RunWith(step, s, early + ([answer] + late));
            p.Running? && p.state.planOps == s.planOps + AllOps(early) + ([install] + AllOps(late))
  {
    var s1 := FailuresGoOn(step, room, failed, s, early, |late| + 1);
    var s2 :| step(s1, answer) == Running(s2) && s2.planOps == s1.planOps + [install] && room(s2, |late|);
    var s3 := FailuresGoOn(step, room, failed, s2, late, 0);
    OpsInTurn(s1.planOps, [install], AllOps(late));
    RunWithInTurn(step, s, early, [answer] + late);
    assert ([answer] + late)[1..] == late;
  }

  // ----- and for the step of the loop -----

  ghost function RoomFor(cfg: Config, c: ToolCall): (State, nat) -> bool
    requires c.outcome.ToolDone?
  {
    (s, n: nat) => HasRoom(cfg, s, c, n)
  }

  ghost function HasFailed(c: ToolCall): State -> bool { (s: State) => Tool(c.name) in s.errors }

  lemma FailingTurnGoesOn(cfg: Config, t: Turn, c: ToolCall)
    requires FailsOnce(cfg, t, c)
    ensures GoesOn(StepOf(cfg), RoomFor(cfg, c), HasFailed(c), t)
  {
    forall s, n: nat | n > 0 && RoomFor(cfg, c)(s, n)
      ensures exists next ::
                StepOf(cfg)(s, t) == Running(next) && Follows(s, t, next)
                && RoomFor(cfg, c)(next, n - 1) && HasFailed(c)(next)
    {
      var next := FailingTurn(cfg, s, t, c, n);
    }
  }

  lemma AnswerIsRefused(cfg: Config, t: Turn, c: ToolCall)
    requires cfg.mode == Planning && PlanningAnswer(cfg, t) && c.outcome.ToolDone?
    ensures Refuses(StepOf(cfg), RoomFor(cfg, c), HasFailed(c), t, InstallOf(t))
  {
    forall s, n: nat
      | n > 0 && RoomFor(cfg, c)(s, n) && HasFailed(c)(s) && !s.structured && s.stall.count == 0
      ensures exists next ::
                StepOf(cfg)(s, t) == Running(next) && next.planOps == s.planOps + [InstallOf(t)]
                && RoomFor(cfg, c)(next, n - 1)
    {
      var next := RefusedTurn(cfg, s, t, c, n - 1);
    }
  }

  lemma PlanningRun(cfg: Config, s: State, early: seq<Turn>, answer: Turn, late: seq<Turn>, c: ToolCall)
    requires cfg.mode == Planning && !s.structured && s.stall.count == 0 && early != []
    requires forall t :: t in early || t in late ==> FailsOnce(cfg, t, c)
    requires PlanningAnswer(cfg, answer) && c.outcome.ToolDone? && HasRoom(cfg, s, c, |early| + (|late| + 1))
    ensures var p := RunFrom(cfg, s, early + ([answer] + late));
            p.Running? && p.state.planOps == s.planOps + AllOps(early) + ([InstallOf(answer)] + AllOps(late))
  {
    forall t | t in early || t in late ensures GoesOn(StepOf(cfg), RoomFor(cfg, c), HasFailed(c), t) {
      FailingTurnGoesOn(cfg, t, c);
    }
    AnswerIsRefused(cfg, answer, c);
    assert RoomFor(cfg, c)(s, |early| + (|late| + 1));
    PlanningRunWith(StepOf(cfg), RoomFor(cfg, c), HasFailed(c), s, early, answer, late, InstallOf(answer));
    RunWithTurns(cfg, s, early + ([answer] + late));
  }

  // ----- six accepted revisions -----

  predicate Makes(t: Turn, steps: seq<string>, context: Plan.Context) {
    TurnOps(t) == [Plan.Create(steps, context)]
  }

  predicate Revises(t: Turn, reason: string, steps: seq<string>) { TurnOps(t) == [Plan.ReviseOp(reason, steps)] }

  lemma ThreeTurnOps(a: Turn, b: Turn, c: Turn)
    ensures AllOps([a, b, c]) == TurnOps(a) + TurnOps(b) + TurnOps(c)
  {
    assert [a, b, c][1..] == [b, c] && [b, c][1..] == [c] && [c][1..] == [];
    assert AllOps([c]) == TurnOps(c) && AllOps([b, c]) == TurnOps(b) + TurnOps(c);
  }

  /** A task as a session has it before its first run. */
  predicate NewTask(stored: Stored) {
    stored.planOps == [] && !stored.structured && stored.source.None? && stored.origin.plan.None?
  }

  lemma NewTaskOps(cfg: Config, stored: Stored, ops: seq<Plan.Op>)
    requires NewTask(stored)
    ensures Start(cfg, stored).planOps == [Plan.Resume]
    ensures var resumed := Plan.Step(stored.origin, Plan.Resume);
            && resumed.plan.None?
            && Plan.AcceptedRevisions(stored.origin, [Plan.Resume] + ops) == Plan.AcceptedRevisions(resumed, ops)
  {
    Plan.AcceptedInTurn(stored.origin, [Plan.Resume], ops);
    Plan.OneOp(stored.origin, Plan.Resume);
  }

  /**
   Main result on PLAN mode: a plan is made and revised three times while reading fails, a planning answer is
   installed and refused because of the failure, and the new plan is revised three times more.
   */
  lemma SixRevisionsInOneRun(
    cfg: Config, stored: Stored, c: ToolCall, make: Turn, r1: Turn, r2: Turn, r3: Turn, answer: Turn,
    made: seq<string>, context: Plan.Context, reason: string, a: seq<string>, b: seq<string>, d: seq<string>)
    requires cfg.mode == Planning && NewTask(stored)
    requires forall t :: t in [make, r1, r2, r3] ==> FailsOnce(cfg, t, c)
    requires PlanningAnswer(cfg, answer) && c.outcome.ToolDone? && HasRoom(cfg, Start(cfg, stored), c, 8)
    requires Makes(make, made, context) && Revises(r1, reason, a) && Revises(r2, reason, b) && Revises(r3, reason, d)
    requires !IsBlank(reason) && a != [] && b != [] && d != [] && a != b && b != d
    requires answer.model.response.planAnswer.1 == context
    requires Plan.TakenSteps(made) != a && Plan.TakenSteps(answer.model.response.planAnswer.0) != a
    ensures var p := RunFromStart(cfg, stored, [make, r1, r2, r3] + ([answer] + [r1, r2, r3]));
            p.Running? && Plan.AcceptedRevisions(stored.origin, p.state.planOps) == 6
  {
    var late := [r1, r2, r3];
    var early := [make, r1, r2, r3];
    var three := Plan.ThreeRevisions(reason, a, b, d);
    var installed := answer.model.response.planAnswer.0;
    var ops := [Plan.Create(made, context)] + three + ([Plan.Install(installed, context)] + three);
    ThreeTurnOps(r1, r2, r3);
    assert early[1..] == late && AllOps(late) == three && AllOps(early) == [Plan.Create(made, context)] + three;
    PlanningRun(cfg, Start(cfg, stored), early, answer, late, c);
    NewTaskOps(cfg, stored, ops);
    OpsInTurn([Plan.Resume], [Plan.Create(made, context)] + three, [Plan.Install(installed, context)] + three);
    Plan.SixRevisionsOfOneTask(Plan.Step(stored.origin, Plan.Resume), made, installed, context, reason, a, b, d);
  }

  // ----- the modes, exactly -----

  /** Every task in which nothing was installed before has at most three accepted revisions after a run. */
  ghost predicate ThreeAtMost(mode: Mode) {
    forall cfg: Config, stored: Stored, turns: seq<Turn> ::
      cfg.mode == mode && ValidLimits(cfg) && ValidStored(stored) && Plan.Installs(stored.planOps) == 0 ==>
        Plan.AcceptedRevisions(stored.origin, RunFromStart(cfg, stored, turns).state.planOps)
        <= Plan.MAX_PLAN_REVISIONS
  }

  const NEW: Stored := Stored.Stored([], [], [], false, [], false, None, NO_PLAN, [])

  const ROOMY: Config := Config(Planning, false, false, false, Limits(20, 20, 0, None, 20, 20))

  const READ: ToolCall := SimpleCall(ToolResult(true, "", [], None, false))

  const PLAN_TEXT: (seq<string>, Plan.Context) := (["make"], NO_CONTEXT)

  /** A turn that makes or revises the plan and has one failing call. */
  function FailingTurnOf(revision: Option<(string, seq<string>)>, planText: Option<(seq<string>, Plan.Context)>): Turn {
    Turn(false, false, true,
         Answered(Response(0, None, revision, planText, false, NoDirective, [], ([], NO_CONTEXT), NoSteps, Passed,
                           [READ])),
         false, false)
  }

  const MAKE: Turn := FailingTurnOf(None, Some(PLAN_TEXT))

  function RevisionTo(step: string): Turn { FailingTurnOf(Some(("reason", [step])), None) }

  const ANSWER: Turn :=
    Turn(false, false, true,
         Answered(Response(0, None, None, None, false, NoDirective, [], PLAN_TEXT, NoSteps, Passed, [])), false, false)

  lemma NewIsValid()
    ensures ValidStored(NEW) && NewTask(NEW) && Plan.Installs(NEW.planOps) == 0 && ValidLimits(ROOMY)
  {
  }

  lemma RevisionIsSo(step: string)
    ensures FailsOnce(ROOMY, RevisionTo(step), READ) && Revises(RevisionTo(step), "reason", [step])
  {
  }

  lemma MakeAndAnswerAreSo()
    ensures FailsOnce(ROOMY, MAKE, READ) && Makes(MAKE, PLAN_TEXT.0, PLAN_TEXT.1)
    ensures PlanningAnswer(ROOMY, ANSWER) && ANSWER.model.response.planAnswer == PLAN_TEXT
  {
  }

  lemma RoomForEight()
    ensures HasRoom(ROOMY, Start(ROOMY, NEW), READ, 8)
  {
  }

  lemma ThreeOfRun(cfg: Config, stored: Stored, turns: seq<Turn>)
    requires ValidLimits(cfg) && ValidStored(stored) && Plan.Installs(stored.planOps) == 0
    ensures ThreeAtMost(cfg.mode) ==>
              Plan.AcceptedRevisions(stored.origin, RunFromStart(cfg, stored, turns).state.planOps)
              <= Plan.MAX_PLAN_REVISIONS
  {
  }

  lemma TextsAreSo()
    ensures !IsBlank("reason") && Plan.TakenSteps(PLAN_TEXT.0) != ["a"]
  {
    assert "make"[0] != "a"[0] && ["make"][1..] == [];
    assert Plan.NonBlank(["make"]) == [] || Plan.NonBlank(["make"]) == ["make"];
    assert !IsWhitespace("reason"[0]) && !IsWhitespace("reason"[5]);
  }

  /** Any new task and any configuration with room for eight turns show it. */
  lemma SixPassThree(cfg: Config, stored: Stored, c: ToolCall, make: Turn, r1: Turn, r2: Turn, r3: Turn, answer: Turn)
    requires cfg.mode == Planning && ValidLimits(cfg) && NewTask(stored) && ValidStored(stored)
    requires forall t :: t in [make, r1, r2, r3] ==> FailsOnce(cfg, t, c)
    requires PlanningAnswer(cfg, answer) && c.outcome.ToolDone? && HasRoom(cfg, Start(cfg, stored), c, 8)
    requires Makes(make, PLAN_TEXT.0, PLAN_TEXT.1) && answer.model.response.planAnswer == PLAN_TEXT
    requires Revises(r1, "reason", ["a"]) && Revises(r2, "reason", ["b"]) && Revises(r3, "reason", ["c"])
    ensures !ThreeAtMost(Planning)
  {
    TextsAreSo();
    assert ["a"][0] != ["b"][0] && ["b"][0] != ["c"][0];
    SixRevisionsInOneRun(cfg, stored, c, make, r1, r2, r3, answer,
                         PLAN_TEXT.0, PLAN_TEXT.1, "reason", ["a"], ["b"], ["c"]);
    ThreeOfRun(cfg, stored, [make, r1, r2, r3] + ([answer] + [r1, r2, r3]));
  }

  lemma PlanModePassesThree()
    ensures !ThreeAtMost(Planning)
  {
    RevisionIsSo("a");
    RevisionIsSo("b");
    RevisionIsSo("c");
    NewIsValid();
    MakeAndAnswerAreSo();
    RoomForEight();
    SixPassThree(ROOMY, NEW, READ, MAKE, RevisionTo("a"), RevisionTo("b"), RevisionTo("c"), ANSWER);
  }

  /** The documented cap of three revisions holds of every such task exactly in the modes other than PLAN. */
  lemma ThreeRevisionsExactlyWhen(mode: Mode)
    ensures ThreeAtMost(mode) <==> mode != Planning
  {
    if mode == Planning {
      PlanModePassesThree();
    } else {
      forall cfg: Config, stored: Stored, turns: seq<Turn>
        | cfg.mode == mode && ValidLimits(cfg) && ValidStored(stored) && Plan.Installs(stored.planOps) == 0
        ensures Plan.AcceptedRevisions(stored.origin, RunFromStart(cfg, stored, turns).state.planOps)
                <= Plan.MAX_PLAN_REVISIONS
      {
        AtMostThreeRevisionsOutsidePlanMode(cfg, stored, turns);
      }
    }
  }

}
