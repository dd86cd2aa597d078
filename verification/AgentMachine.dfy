/**
 The agent run loop as a step machine (crates/harness-agent/src/lib.rs, `AgentRunner::run`,
 `check_limits`, `run_verification_if_needed` and the functions that finish or abort a run).

 The model, the tools, the verifier, the clock, cancellation, hooks and the checkpoint store are
 inputs: a run is given one `Turn` per pass of the loop.  Results about `RunFrom` therefore hold
 for every behaviour of the environment.  Parsing of model text is an input too: a response
 carries the directive, plan and waivers found in it.
 */
module AgentMachine {
  import opened Wrappers
  import opened Text
  import Plan = ExecutionPlan

  type Completion = Plan.Completion

  datatype Mode = Explore | Planning | Code

  datatype Limits = Limits(
    maxTurns: nat, maxToolCalls: nat, maxModelTokens: nat, maxCost: Option<nat>,
    maxRepeatedCalls: nat, maxRepeatedFailures: nat)

  /** `automatedChecks`: the workspace's verification plan has a step besides the diff inspection. */
  datatype Config = Config(mode: Mode, gitAvailable: bool, hasVerifier: bool, automatedChecks: bool, limits: Limits)

  const U32_MAX: nat := 0xFFFF_FFFF
  const U64_MAX: nat := 0xFFFF_FFFF_FFFF_FFFF
  const WINDOW: nat := 200

  function AtLeastOne(n: nat): nat { if n == 0 then 1 else n }

  function Increment(n: nat): nat { if n < U32_MAX then n + 1 else U32_MAX }

  // ----- unresolved errors -----

  datatype Category = Formatter | Lint | Typecheck | Build | TargetedTest | GeneralTest | GitDiff

  function CategoryName(c: Category): string {
    match c
    case Formatter => "Formatter"
    case Lint => "Lint"
    case Typecheck => "Typecheck"
    case Build => "Build"
    case TargetedTest => "TargetedTest"
    case GeneralTest => "GeneralTest"
    case GitDiff => "GitDiff"
  }

  /** Error keys by their prefix: `Check(x)` is "verification:" followed by x; `Other` has no known prefix. */
  datatype Key = Provider | Guard | Tool(name: string) | Check(suffix: string) | Other(text: string)

  const FINAL_DIFF: Key := Check("final_diff_inspection")
  const AFTER_EDIT: Key := Check("after_last_edit")
  const RUNNER: Key := Check("runner")
  const DIAGNOSTICS: string := "language-server diagnostics "

  function ReportKey(c: Category, command: string): Key { Check(CategoryName(c) + ":" + command) }

  predicate IsDiagnostics(key: Key) { key.Check? && DIAGNOSTICS <= key.suffix }

  /** What the map holds for a key: a message, listed after the key, or text read back from a stored list. */
  datatype Entry =
    | Summary(message: string)
    | RepeatedCall(attempts: nat, tool: string)
    | DiffMissing
    | CheckMissing
    | Bare(text: string)

  type Errors = map<Key, Entry>

  /** A line of the error list that has no place in the map. */
  datatype Line = Stored(text: string) | ProviderFailure(message: string) | HookFailure(error: string)

  /** The task run's own error list: the map it was last rebuilt from, and the lines pushed since. */
  datatype Listing = Listing(rebuilt: Errors, pushed: seq<Line>)

  const NOTHING_LISTED: Listing := Listing(map[], [])

  // ----- inputs -----

  datatype Report = Report(category: Category, command: string, passed: bool, exitCode: Option<int>, output: string)

  /** What the verifier does when it is asked: nothing planned, refused by policy, reports, or a failure to run. */
  datatype Verification =
    | NoSteps
    | Refused
    | Reports(reports: seq<Report>)
    | RunnerError(message: string)

  datatype Diagnostic = Diagnostic(path: string, passed: bool, output: string)

  datatype ToolResult = ToolResult(
    isError: bool, output: string, changedFiles: seq<string>, diagnostic: Option<Diagnostic>, completeDiff: bool)

  datatype ToolOutcome = ToolError(message: string) | ToolDone(result: ToolResult)

  /** A shell command, with what the code finds in its text. */
  datatype ShellCommand = ShellCommand(text: string, validation: bool, gitDiff: bool)

  datatype ToolCall = ToolCall(
    cancelled: bool, name: string, arguments: string, command: Option<ShellCommand>, allowed: bool,
    outcome: ToolOutcome, recorded: bool, verification: Verification)

  datatype EndHooks = Passed | Failed(error: string)

  datatype Directive = NoDirective | AskUser | GiveUp

  /** `planChanged`: the revision was accepted, or the plan found in the text was taken. */
  datatype Response = Response(
    tokens: nat, cost: Option<nat>,
    revision: Option<(string, seq<string>)>, planText: Option<(seq<string>, Plan.Context)>, planChanged: bool,
    directive: Directive, waivers: seq<string>, planAnswer: (seq<string>, Plan.Context),
    finalCheck: Verification, endHooks: EndHooks, calls: seq<ToolCall>)

  datatype ModelOutcome = Answered(response: Response) | ModelCancelled | ModelFailed(message: string)

  /** `prepared`: hooks, compaction and context assembly before the request all succeed. */
  datatype Turn = Turn(
    cancelledBefore: bool, expiredBefore: bool, prepared: bool, model: ModelOutcome,
    cancelledAfter: bool, expiredAfter: bool)

  // ----- state -----

  datatype ResultKind = Reported(category: Category) | AgentCommand | Diagnostics | Runner

  datatype CheckResult = CheckResult(command: string, kind: ResultKind, passed: bool, origin: Option<string>)

  /** What counts as the same failure. */
  datatype Signature =
    | ToolFailure(name: string, arguments: string, output: string)
    | CheckFailure(key: Key, exitCode: int, output: string)
    | RunnerFailure(message: string)

  /** A tool call as the repetition guard sees it. */
  datatype CallKey = CallKey(name: string, arguments: string)

  datatype Issued = ModelRequest | Execution(call: CallKey)

  datatype ReviewEvent = Edited(isError: bool) | DiffInspected

  /** `issued` records every model request and every tool execution. */
  datatype Budget = Budget(
    turns: nat, toolCalls: nat, modelTokens: nat, cost: Option<nat>,
    repeatedCalls: map<CallKey, nat>, issued: multiset<Issued>)

  /**
   Final responses without progress since the count was last reset; `resets` and `finals` record how
   often that happened and how many automatic inspections have been made.
   */
  datatype Stall = Stall(count: nat, resets: nat, finals: nat)

  /** The task run as the session has it: written only where the loop reports it. */
  datatype Snapshot = Snapshot(
    listing: Listing, changed: seq<string>, results: seq<CheckResult>, inspected: bool,
    structured: bool, planOps: seq<Plan.Op>)

  /**
   `counted` records every counted failure, `review` the edits and diff inspections of the task in
   order, and `planOps` the operations applied to its execution plan.
   */
  datatype State = State(
    budget: Budget,
    repeatedFailures: map<Signature, nat>, counted: multiset<Signature>,
    errors: Errors, listing: Listing,
    stall: Stall, validated: bool, inspected: bool, review: seq<ReviewEvent>,
    changed: seq<string>, results: seq<CheckResult>,
    structured: bool, planOps: seq<Plan.Op>,
    saved: Snapshot)

  datatype Exit = Ended(status: Completion) | Aborted(status: Completion)

  datatype Progress = Running(state: State) | Stopped(state: State, exit: Exit)

  function CountOf<K>(m: map<K, nat>, k: K): nat { if k in m then m[k] else 0 }

  function SnapshotOf(s: State): Snapshot {
    Snapshot(s.listing, s.changed, s.results, s.inspected, s.structured, s.planOps)
  }

  /** Reports the task run to the session. */
  function Saved(s: State): State { s.(saved := SnapshotOf(s)) }

  function Progressed(s: State): State { s.(stall := Stall(0, s.stall.resets + 1, s.stall.finals)) }

  function Listed(s: State): State { s.(listing := Listing(s.errors, [])) }

  function WithError(s: State, key: Key, entry: Entry): State { s.(errors := s.errors[key := entry]) }

  function WithoutError(s: State, key: Key): State { s.(errors := s.errors - {key}) }

  function PlanStep(s: State, op: Plan.Op): State { s.(planOps := s.planOps + [op]) }

  function Inspected(s: State): State { s.(inspected := true, review := s.review + [DiffInspected]) }

  function Push(s: State, line: Line): State { s.(listing := s.listing.(pushed := s.listing.pushed + [line])) }

  // ----- finishing -----

  /** Ends the run: a failing end hook turns any outcome into a blocked one. */
  function Finish(s: State, status: Completion, endHooks: EndHooks): Progress {
    match endHooks
    case Passed => Stopped(Saved(PlanStep(s, Plan.FinishOp(status))), Ended(status))
    case Failed(error) =>
      Stopped(Saved(PlanStep(Push(s, HookFailure(error)), Plan.FinishOp(Plan.Completion.Stuck))),
              Ended(Plan.Completion.Stuck))
  }

  function FinishBlocked(s: State, endHooks: EndHooks): Progress {
    Finish(s, Plan.Completion.Stuck, endHooks)
  }

  function Abort(s: State, status: Completion): Progress {
    Stopped(Saved(PlanStep(s, Plan.FinishOp(status))), Aborted(status))
  }

  /** An error that ends the run without an outcome and without a last report. */
  function Broken(s: State): Progress { Stopped(s, Aborted(Plan.Completion.Working)) }

  // ----- limits -----

  /** The status a limit check stops the run with, if any. */
  function LimitReached(cfg: Config, b: Budget, cancelled: bool, expired: bool): Option<Completion> {
    if cancelled then Some(Plan.Completion.Cancelled)
    else if b.turns > cfg.limits.maxTurns
            || b.toolCalls > cfg.limits.maxToolCalls
            || (cfg.limits.maxModelTokens > 0 && b.modelTokens > cfg.limits.maxModelTokens)
            || expired
            || (cfg.limits.maxCost.Some? && b.cost.Some? && b.cost.value > cfg.limits.maxCost.value)
    then Some(Plan.Completion.ResourceLimitReached)
    else None
  }

  // ----- verification -----

  function PushResult(s: State, r: CheckResult): State { s.(results := PushBounded(s.results, r, WINDOW)) }

  function Origin(passed: bool): Option<string> { if passed then None else Some("unknown") }

  function CountFailure(s: State, signature: Signature): State {
    s.(repeatedFailures := s.repeatedFailures[signature := Increment(CountOf(s.repeatedFailures, signature))],
       counted := s.counted + multiset{signature})
  }

  function WithoutDiagnostics(errors: Errors): Errors {
    map key | key in errors && !IsDiagnostics(key) :: errors[key]
  }

  function ReportSignature(r: Report): Signature {
    CheckFailure(ReportKey(r.category, r.command), if r.exitCode.Some? then r.exitCode.value else -1, r.output)
  }

  /** The errors after a report. */
  function ReportErrors(errors: Errors, r: Report): Errors {
    var key := ReportKey(r.category, r.command);
    if !r.passed then errors[key := Summary(r.output)]
    else if r.category == Typecheck || r.category == Build then WithoutDiagnostics(errors - {key})
    else errors - {key}
  }

  predicate ShowsDiff(r: Report) { r.category == GitDiff && r.passed }

  function ResultOf(r: Report): CheckResult { CheckResult(r.command, Reported(r.category), r.passed, Origin(r.passed)) }

  /** Books one report. */
  function ApplyReport(s: State, r: Report): State {
    var seen := if ShowsDiff(r) then Inspected(s) else s;
    var pushed := PushResult(seen, ResultOf(r));
    var booked := pushed.(errors := ReportErrors(pushed.errors, r));
    if r.passed then booked else CountFailure(booked, ReportSignature(r))
  }

  /** The same failure has now been seen as often as the limit allows. */
  predicate AtFailureLimit(cfg: Config, s: State, signature: Signature) {
    CountOf(s.repeatedFailures, signature) >= AtLeastOne(cfg.limits.maxRepeatedFailures)
  }

  /** Books reports in order, stopping at a failure that has reached its limit. */
  function ApplyReports(cfg: Config, s: State, reports: seq<Report>): (State, bool)
    decreases |reports|
  {
    if reports == [] then (Listed(s), false)
    else
      var next := ApplyReport(s, reports[0]);
      if !reports[0].passed && AtFailureLimit(cfg, next, ReportSignature(reports[0])) then (Listed(next), true)
      else ApplyReports(cfg, next, reports[1..])
  }

  function ApplyRunnerError(cfg: Config, s: State, message: string): (State, bool) {
    var failed := PushResult(WithError(s, RUNNER, Summary(message)),
                             CheckResult("verification", Runner, false, Some("unknown")));
    var counted := CountFailure(failed, RunnerFailure(message));
    (Listed(counted), AtFailureLimit(cfg, counted, RunnerFailure(message)))
  }

  datatype Verified = PolicyDenied | Checked(state: State, repeated: bool)

  function RunVerification(cfg: Config, s: State, changedFiles: seq<string>, v: Verification): Verified {
    if changedFiles == [] || !cfg.hasVerifier || v.NoSteps? then Checked(s, false)
    else
      match v
      case Refused => PolicyDenied
      case Reports(reports) => var (next, repeated) := ApplyReports(cfg, s, reports); Checked(next, repeated)
      case RunnerError(message) => var (next, repeated) := ApplyRunnerError(cfg, s, message); Checked(next, repeated)
  }

  // ----- one tool call -----

  predicate ModeAllows(cfg: Config, c: ToolCall) { cfg.mode == Code || c.allowed }

  /** The result of a call the task mode does not allow. */
  function Denied(): ToolResult { ToolResult(true, "read-only task mode", [], None, false) }

  function ToolSignature(c: ToolCall, r: ToolResult): Signature { ToolFailure(c.name, c.arguments, r.output) }

  /** Books the result against the tool's own error key. */
  function BookResult(s: State, c: ToolCall, r: ToolResult): State {
    if r.isError then Listed(CountFailure(WithError(s, Tool(c.name), Summary(r.output)), ToolSignature(c, r)))
    else
      var cleared := Progressed(Listed(WithoutError(s, Tool(c.name))));
      if r.changedFiles != [] then cleared.(inspected := false) else cleared
  }

  /** The shell command of the call, when the call is a validation command. */
  function ValidationOf(c: ToolCall): Option<ShellCommand> {
    if c.name == "shell" && c.command.Some? && c.command.value.validation then c.command else None
  }

  /** Books a validation command the model ran itself. */
  function BookValidation(s: State, command: ShellCommand, r: ToolResult): State {
    var result := CheckResult(BoundedSummary(command.text), AgentCommand, !r.isError, Origin(!r.isError));
    var pushed := PushResult(s, result);
    if !r.isError then
      var passed := pushed.(errors := pushed.errors - {Check(command.text), AFTER_EDIT}, validated := true);
      if command.gitDiff then Inspected(passed) else passed
    else WithError(pushed, Check(command.text), Summary(r.output)).(validated := false)
  }

  function PushFiles(changed: seq<string>, files: seq<string>): (r: seq<string>)
    ensures |changed| <= WINDOW ==> |r| <= WINDOW
    ensures r == [] <==> changed == [] && files == []
    decreases |files|
  {
    if files == [] then changed else PushFiles(PushUniqueBounded(changed, files[0], WINDOW), files[1..])
  }

  function BookFiles(s: State, r: ToolResult): State {
    if r.changedFiles == [] then s
    else s.(changed := PushFiles(s.changed, r.changedFiles), validated := false)
  }

  /** Books the diagnostics that came with an edit. */
  function BookDiagnostic(s: State, d: Diagnostic): State {
    var command := DIAGNOSTICS + d.path;
    var pushed := PushResult(s, CheckResult(command, Diagnostics, d.passed, Origin(d.passed)));
    if d.passed then pushed.(errors := pushed.errors - {Check(command), AFTER_EDIT}, validated := true)
    else WithError(pushed, Check(command), Summary(d.output)).(validated := false)
  }

  /** The complete diff of an edit, shown to the model, counts as an inspection where Git or a verifier is missing. */
  function BookEditDiff(cfg: Config, s: State): State {
    var pushed := PushResult(Inspected(s), CheckResult("inspect final edit diff", Reported(GitDiff), true, None));
    var seen := WithoutError(pushed, FINAL_DIFF);
    if cfg.hasVerifier && cfg.automatedChecks then seen else WithoutError(seen, AFTER_EDIT).(validated := true)
  }

  predicate ShowsEditDiff(cfg: Config, r: ToolResult) {
    (!cfg.gitAvailable || !cfg.hasVerifier) && r.completeDiff && r.changedFiles != []
  }

  /** The check results pushed since the list had `before` entries; none once the window is full. */
  function NewResults(s: State, before: nat): seq<CheckResult> {
    if before < |s.results| then s.results[before..] else []
  }

  predicate AnyPassed(rs: seq<CheckResult>) { exists i :: 0 <= i < |rs| && rs[i].passed }

  predicate AllPassed(rs: seq<CheckResult>) { forall i :: 0 <= i < |rs| ==> rs[i].passed }

  /** Draws the conclusions from the verification that followed the call. */
  function Conclude(s: State, before: nat): State {
    var added := NewResults(s, before);
    if added != [] then
      if AllPassed(added) then Progressed(WithoutError(s, AFTER_EDIT).(validated := true))
      else s.(validated := false)
    else if s.inspected then WithoutError(s, AFTER_EDIT).(validated := true)
    else s
  }

  /** Everything booked between the tool's result and the verification step. */
  function BookEffects(s: State, c: ToolCall, r: ToolResult): State {
    var validation := ValidationOf(c);
    var s1 := if validation.Some? then BookValidation(s, validation.value, r) else s;
    var s2 := BookFiles(s1, r);
    if r.changedFiles != [] && r.diagnostic.Some? then BookDiagnostic(s2, r.diagnostic.value) else s2
  }

  /** The result moved the plan forward. */
  predicate Meaningful(r: ToolResult, added: seq<CheckResult>) {
    || !r.isError
    || (r.changedFiles != [] && r.diagnostic.Some? && r.diagnostic.value.passed)
    || AnyPassed(added)
  }

  /** The end of a call, after its verification: `s` had `before` results when that began. */
  function EndCall(s: State, before: nat, r: ToolResult, repeated: bool, endHooks: EndHooks): Progress {
    var concluded := Conclude(s, before);
    var moved := if Meaningful(r, NewResults(s, before)) then PlanStep(concluded, Plan.ProgressOp) else concluded;
    var reported := Saved(Listed(moved));
    if repeated then FinishBlocked(reported, endHooks) else Running(reported)
  }

  /** From the edit's own diff to the end of the call. */
  function Verify(cfg: Config, s: State, c: ToolCall, r: ToolResult, endHooks: EndHooks): Progress {
    var shown := if ShowsEditDiff(cfg, r) then BookEditDiff(cfg, s) else s;
    match RunVerification(cfg, shown, r.changedFiles, c.verification)
    case PolicyDenied => Broken(shown)
    case Checked(next, repeated) => EndCall(next, |shown.results|, r, repeated, endHooks)
  }

  function NoteEdit(s: State, r: ToolResult): State {
    if r.changedFiles != [] then s.(review := s.review + [Edited(r.isError)]) else s
  }

  /** What follows booking the result. */
  function AfterBooking(cfg: Config, s: State, c: ToolCall, r: ToolResult, endHooks: EndHooks): Progress {
    var effects := BookEffects(s, c, r);
    if r.changedFiles != [] && !c.recorded then Broken(effects)
    else Verify(cfg, effects, c, r, endHooks)
  }

  /** What follows the tool's answer. */
  function AfterTool(cfg: Config, s: State, c: ToolCall, r: ToolResult, endHooks: EndHooks): Progress {
    var booked := BookResult(NoteEdit(s, r), c, r);
    if r.isError && AtFailureLimit(cfg, booked, ToolSignature(c, r)) then FinishBlocked(booked, endHooks)
    else AfterBooking(cfg, booked, c, r, endHooks)
  }

  function CallKeyOf(c: ToolCall): CallKey { CallKey(c.name, c.arguments) }

  function CountCall(s: State, key: CallKey): State {
    s.(budget := s.budget.(
         toolCalls := s.budget.toolCalls + 1,
         repeatedCalls := s.budget.repeatedCalls[key := Increment(CountOf(s.budget.repeatedCalls, key))]))
  }

  function Issue(s: State, i: Issued): State { s.(budget := s.budget.(issued := s.budget.issued + multiset{i})) }

  /** The tool call itself, once counted and not over its limit. */
  function Execute(cfg: Config, s: State, c: ToolCall, endHooks: EndHooks): Progress {
    match c.outcome
    case ToolError(message) =>
      Abort(Listed(WithError(s, Tool(c.name), Summary(message))), Plan.Completion.Stuck)
    case ToolDone(result) => AfterTool(cfg, s, c, result, endHooks)
  }

  /** A call that has just been counted: stopped as a repetition, refused by the mode, or executed. */
  function CountedCall(cfg: Config, s: State, c: ToolCall, endHooks: EndHooks): Progress {
    var seen := CountOf(s.budget.repeatedCalls, CallKeyOf(c));
    if seen > AtLeastOne(cfg.limits.maxRepeatedCalls) then
      FinishBlocked(Listed(WithError(s, Guard, RepeatedCall(seen - 1, c.name))), endHooks)
    else if !ModeAllows(cfg, c) then AfterBooking(cfg, Saved(s), c, Denied(), endHooks)
    else Execute(cfg, Issue(Saved(s), Execution(CallKeyOf(c))), c, endHooks)
  }

  function ToolStep(cfg: Config, s: State, c: ToolCall, endHooks: EndHooks): Progress {
    if c.cancelled then Abort(s, Plan.Completion.Cancelled)
    else if s.budget.toolCalls >= cfg.limits.maxToolCalls then Abort(s, Plan.Completion.ResourceLimitReached)
    else CountedCall(cfg, CountCall(s, CallKeyOf(c)), c, endHooks)
  }

  function ToolSteps(cfg: Config, s: State, calls: seq<ToolCall>, endHooks: EndHooks): Progress
    decreases |calls|
  {
    if calls == [] then Running(s)
    else
      match ToolStep(cfg, s, calls[0], endHooks)
      case Running(next) => ToolSteps(cfg, next, calls[1..], endHooks)
      case Stopped(next, exit) => Stopped(next, exit)
  }

  // ----- a final response -----

  /** The index of the first ':' or the length. */
  function ColonIndex(s: string): (i: nat)
    ensures i <= |s|
    decreases |s|
  {
    if s == "" || s[0] == ':' then 0 else 1 + ColonIndex(s[1..])
  }

  /** The waiver's command names the failed check, with or without the check's category. */
  predicate Waives(command: string, key: Key) {
    && key.Check?
    && (key.suffix == command
        || (ColonIndex(key.suffix) < |key.suffix|
            && key.suffix[..ColonIndex(key.suffix)] != "GitDiff"
            && key.suffix[ColonIndex(key.suffix) + 1..] == command))
  }

  function WaivedKeys(errors: Errors, command: string): set<Key> {
    set key | key in errors && Waives(command, key)
  }

  /** Marks the latest failed result of the command as unrelated. */
  function MarkUnrelated(rs: seq<CheckResult>, command: string): (r: seq<CheckResult>)
    ensures |r| == |rs|
    decreases |rs|
  {
    if rs == [] then []
    else
      var last := rs[|rs| - 1];
      if last.command == command && !last.passed then rs[..|rs| - 1] + [last.(origin := Some("unrelated"))]
      else MarkUnrelated(rs[..|rs| - 1], command) + [last]
  }

  function WaiveOne(s: State, command: string): State {
    if WaivedKeys(s.errors, command) == {} then s
    else s.(errors := s.errors - WaivedKeys(s.errors, command), results := MarkUnrelated(s.results, command))
  }

  /** Applies the waivers in order, and says whether any of them named a listed check. */
  function WaiveAll(s: State, waivers: seq<string>): (State, bool)
    decreases |waivers|
  {
    if waivers == [] then (s, false)
    else
      var (next, later) := WaiveAll(WaiveOne(s, waivers[0]), waivers[1..]);
      (next, WaivedKeys(s.errors, waivers[0]) != {} || later)
  }

  function ApplyWaivers(s: State, waivers: seq<string>): State {
    var (waived, any) := WaiveAll(s, waivers);
    Listed(if any then WithoutError(waived, AFTER_EDIT).(validated := true) else waived)
  }

  function OrInsert(errors: Errors, key: Key, entry: Entry): Errors {
    if key in errors then errors else errors[key := entry]
  }

  predicate Uninspected(cfg: Config, s: State) { cfg.mode == Code && s.changed != [] && !s.inspected }

  /** Records what still stands in the way of completion. */
  function Obstacles(cfg: Config, s: State): State {
    if !Uninspected(cfg, s) then s
    else
      var first := OrInsert(s.errors, FINAL_DIFF, DiffMissing);
      Listed(s.(errors := if s.validated then first else OrInsert(first, AFTER_EDIT, CheckMissing)))
  }

  function Waited(s: State): State { s.(stall := s.stall.(count := Increment(s.stall.count))) }

  /** The completion gate. */
  function Gate(cfg: Config, s: State, endHooks: EndHooks): Progress {
    var checked := Obstacles(cfg, s);
    if checked.listing != NOTHING_LISTED then
      var waiting := Waited(checked);
      if waiting.stall.count >= AtLeastOne(cfg.limits.maxRepeatedFailures) then FinishBlocked(waiting, endHooks)
      else Running(Saved(waiting))
    else Finish(checked, Plan.Completion.Done, endHooks)
  }

  predicate DiffPassed(rs: seq<CheckResult>) {
    exists i :: 0 <= i < |rs| && rs[i].kind == Reported(GitDiff) && rs[i].passed
  }

  /** What the automatic inspection concludes from the results behind the old length, reported. */
  function Judged(s: State, before: nat): State {
    Saved(s.(inspected := DiffPassed(NewResults(s, before)),
             stall := s.stall.(finals := s.stall.finals + 1)))
  }

  /** The automatic diff inspection before the gate. */
  function InspectAndGate(cfg: Config, s: State, check: Verification, endHooks: EndHooks): Progress {
    if Uninspected(cfg, s) && cfg.gitAvailable && cfg.hasVerifier then
      match RunVerification(cfg, s, s.changed, check)
      case PolicyDenied => Broken(s)
      case Checked(next, _) =>
        var judged := Judged(next, |s.results|);
        if judged.inspected then Running(judged) else Gate(cfg, judged, endHooks)
    else Gate(cfg, s, endHooks)
  }

  /** A plan found in the text becomes the plan where there is none. */
  function PlanFromText(s: State, r: Response): State {
    if r.planText.Some? then PlanStep(s, Plan.Create(r.planText.value.0, r.planText.value.1)) else s
  }

  /** In PLAN mode the task's first answer replaces the plan, and every answer is reported. */
  function PlanAnswer(cfg: Config, s: State, r: Response): State {
    if cfg.mode != Planning then s
    else if s.structured then Saved(s)
    else Saved(PlanStep(s, Plan.Install(r.planAnswer.0, r.planAnswer.1)).(structured := true))
  }

  /** A final response that claims completion. */
  function Complete(cfg: Config, s: State, r: Response): Progress {
    InspectAndGate(cfg, ApplyWaivers(PlanAnswer(cfg, s, r), r.waivers), r.finalCheck, r.endHooks)
  }

  /** How a response that gives up, or asks the user, ends the run. */
  function StopStatus(d: Directive): Completion {
    if d == AskUser then Plan.Completion.UserInputRequired else Plan.Completion.Stuck
  }

  function FinalResponse(cfg: Config, s: State, r: Response): Progress {
    if r.directive.NoDirective? then Complete(cfg, PlanFromText(s, r), r)
    else Finish(PlanFromText(s, r), StopStatus(r.directive), r.endHooks)
  }

  // ----- a turn and a run -----

  function AddCost(total: Option<nat>, cost: Option<nat>): Option<nat> {
    if total.None? || cost.None? then None
    else if total.value + cost.value <= U64_MAX then Some(total.value + cost.value)
    else Some(U64_MAX)
  }

  /** The provider has answered, so its last failure is resolved. */
  function ProviderAnswered(s: State): State {
    if Provider in s.errors then Listed(WithoutError(s, Provider)) else s
  }

  /** The response revises the plan, or makes one where there is none. */
  function Replan(s: State, r: Response): State {
    match r.revision
    case Some((reason, steps)) => ReportedIf(PlanStep(s, Plan.ReviseOp(reason, steps)), r.planChanged)
    case None => if r.planText.Some? then ReportedIf(PlanFromText(s, r), r.planChanged) else s
  }

  function ReportedIf(s: State, changed: bool): State { if changed then Saved(s) else s }

  function Spend(s: State, r: Response): State {
    s.(budget := s.budget.(modelTokens := s.budget.modelTokens + r.tokens, cost := AddCost(s.budget.cost, r.cost)))
  }

  /** Books a response before the limits are checked again. */
  function Absorb(s: State, r: Response): State { Spend(Replan(ProviderAnswered(s), r), r) }

  function AfterResponse(cfg: Config, s: State, t: Turn, r: Response): Progress {
    match LimitReached(cfg, s.budget, t.cancelledAfter, t.expiredAfter)
    case Some(status) => Abort(s, status)
    case None =>
      if r.calls == [] then FinalResponse(cfg, s, r)
      else if s.budget.turns >= cfg.limits.maxTurns then Abort(s, Plan.Completion.ResourceLimitReached)
      else ToolSteps(cfg, s, r.calls, r.endHooks)
  }

  function BeginTurn(s: State): State { s.(budget := s.budget.(turns := s.budget.turns + 1)) }

  /** The turn is counted, reported and its request sent. */
  function Request(s: State): State { Issue(Saved(BeginTurn(s)), ModelRequest) }

  /** What follows sending the request. */
  function AfterRequest(cfg: Config, s: State, t: Turn): Progress {
    match t.model
    case ModelCancelled => Abort(s, Plan.Completion.Cancelled)
    case ModelFailed(message) =>
      Abort(Push(s, ProviderFailure(message)), Plan.Completion.Stuck)
    case Answered(response) => AfterResponse(cfg, Absorb(s, response), t, response)
  }

  function TurnStep(cfg: Config, s: State, t: Turn): Progress {
    match LimitReached(cfg, s.budget, t.cancelledBefore, t.expiredBefore)
    case Some(status) => Abort(s, status)
    case None =>
      if !t.prepared then Broken(BeginTurn(s)) else AfterRequest(cfg, Request(s), t)
  }

  function RunFrom(cfg: Config, s: State, turns: seq<Turn>): Progress
    decreases |turns|
  {
    if turns == [] then Running(s)
    else
      match TurnStep(cfg, s, turns[0])
      case Running(next) => RunFrom(cfg, next, turns[1..])
      case Stopped(next, exit) => Stopped(next, exit)
  }

}
