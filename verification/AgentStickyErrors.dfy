/**
 Errors that no success removes.  A verifier that failed to start is recorded under a key of its own,
 and, when Git and a verifier are available, so is a diff that could not be inspected; nothing but a
 waiver of that very name removes either, so the task can no longer end Done.
 */
module AgentStickyErrors {
  import opened Wrappers
  import opened AgentMachine
  import opened AgentSafety
  import opened AgentCompletion
  import Plan = ExecutionPlan

  const NAME: string := "final_diff_inspection"
  const RUNNER_NAME: string := "runner"

  /** The errors in question. */
  predicate Sticky(cfg: Config, key: Key) {
    key == RUNNER || (key == FINAL_DIFF && cfg.gitAvailable && cfg.hasVerifier)
  }

  predicate Holds(s: State, key: Key) { key in s.errors }

  /** The outcome of a step from a state with the error. */
  predicate StillHolds(p: Progress, key: Key) {
    match p
    case Running(s) => Holds(s, key)
    case Stopped(_, exit) => exit != Ended(Plan.Completion.Done)
  }

  // ----- validation commands -----

  const VALIDATION_WORDS: seq<string> :=
    ["test", "tests", "check", "lint", "build", "format", "fmt", "typecheck", "verify", "compile", "pytest", "vitest",
     "jest"]

  predicate InWord(c: char) { 'a' <= c <= 'z' || 'A' <= c <= 'Z' || '0' <= c <= '9' || c == '_' }

  function WordEnd(s: string): (i: nat)
    ensures i <= |s|
    ensures (forall k :: 0 <= k < |s| ==> InWord(s[k])) ==> i == |s|
    decreases |s|
  {
    if s == "" || !InWord(s[0]) then 0 else 1 + WordEnd(s[1..])
  }

  /** The text split at every character that belongs to no word. */
  function Words(s: string): seq<string>
    decreases |s|
  {
    var i := WordEnd(s);
    if i == |s| then [s] else [s[..i]] + Words(s[i + 1..])
  }

  function Lower(s: string): (t: string)
    ensures |t| == |s| && forall i :: 0 <= i < |s| && !('A' <= s[i] <= 'Z') ==> t[i] == s[i]
  {
    seq(|s|, i requires 0 <= i < |s| => if 'A' <= s[i] <= 'Z' then s[i] - 'A' + 'a' else s[i])
  }

  /** One of the first five words is a word for checking something. */
  predicate IsValidationText(s: string) {
    exists i :: 0 <= i < |Words(s)| && i < 5 && Lower(Words(s)[i]) in VALIDATION_WORDS
  }

  lemma WordsAreShort(i: nat)
    requires i < |VALIDATION_WORDS|
    ensures 0 < |VALIDATION_WORDS[i]| <= 9 && VALIDATION_WORDS[i][0] != 'r'
  {
  }

  /** A single word that is no such word is no such text. */
  lemma OtherWordIsNoCommand(s: string)
    requires forall k :: 0 <= k < |s| ==> InWord(s[k])
    requires |s| > 9 || (s != "" && s[0] == 'r')
    ensures !IsValidationText(s)
  {
    assert Words(s) == [s];
    var word := Lower(s);
    if word in VALIDATION_WORDS {
      var i: nat :| i < |VALIDATION_WORDS| && VALIDATION_WORDS[i] == word;
      WordsAreShort(i);
    }
  }

  /** Neither name is a text the code takes for a validation command. */
  lemma NamesAreNoCommands()
    ensures !IsValidationText(NAME) && !IsValidationText(RUNNER_NAME)
  {
    OtherWordIsNoCommand(NAME);
    OtherWordIsNoCommand(RUNNER_NAME);
  }

  /** The call's command is a validation command only as the code finds one. */
  predicate CommandAsFound(c: ToolCall) {
    c.command.Some? && c.command.value.validation ==> IsValidationText(c.command.value.text)
  }

  /** No response of the turn waives the error. */
  predicate Unwaived(t: Turn, key: Key)
    requires key.Check?
  {
    t.model.Answered? ==>
      key.suffix !in t.model.response.waivers
      && forall i :: 0 <= i < |t.model.response.calls| ==> CommandAsFound(t.model.response.calls[i])
  }

  lemma UnwaivedLeavesIt(cfg: Config, t: Turn, key: Key)
    requires Sticky(cfg, key) && Unwaived(t, key)
    ensures TurnLeavesIt(t, key)
  {
    NamesAreNoCommands();
  }

  /** No validation command has its name, and no response waives it. */
  predicate CallLeavesIt(c: ToolCall, key: Key)
    requires key.Check?
  {
    ValidationOf(c).Some? ==> ValidationOf(c).value.text != key.suffix
  }

  predicate ResponseLeavesIt(r: Response, key: Key)
    requires key.Check?
  {
    key.suffix !in r.waivers && forall i :: 0 <= i < |r.calls| ==> CallLeavesIt(r.calls[i], key)
  }

  predicate TurnLeavesIt(t: Turn, key: Key)
    requires key.Check?
  {
    t.model.Answered? ==> ResponseLeavesIt(t.model.response, key)
  }

  // ----- other keys -----

  lemma StickyStart(cfg: Config, key: Key)
    requires Sticky(cfg, key)
    ensures key.Check? && key.suffix != "" && (key.suffix[0] == 'f' || key.suffix[0] == 'r')
    ensures forall i :: 0 <= i < |key.suffix| ==> key.suffix[i] != ':'
  {
    assert NAME[0] == 'f' && forall i :: 0 <= i < |NAME| ==> NAME[i] != ':';
    assert RUNNER_NAME[0] == 'r' && forall i :: 0 <= i < |RUNNER_NAME| ==> RUNNER_NAME[i] != ':';
  }

  lemma ReportKeysDiffer(cfg: Config, key: Key, c: Category, command: string)
    requires Sticky(cfg, key)
    ensures ReportKey(c, command) != key
  {
    StickyStart(cfg, key);
    assert (CategoryName(c) + ":" + command)[0] == CategoryName(c)[0];
  }

  lemma DiagnosticKeysDiffer(cfg: Config, key: Key, path: string)
    requires Sticky(cfg, key)
    ensures Check(DIAGNOSTICS + path) != key && !IsDiagnostics(key) && AFTER_EDIT != key
  {
    StickyStart(cfg, key);
    assert (DIAGNOSTICS + path)[0] == DIAGNOSTICS[0] == 'l';
    assert "after_last_edit"[0] == 'a';
  }

  lemma {:induction false} NoColon(s: string)
    requires forall i :: 0 <= i < |s| ==> s[i] != ':'
    ensures ColonIndex(s) == |s|
    decreases |s|
  {
    if s != "" { NoColon(s[1..]); }
  }

  lemma OnlyItsNameWaives(cfg: Config, key: Key, command: string)
    requires Sticky(cfg, key)
    ensures key.Check? && (Waives(command, key) <==> command == key.suffix)
  {
    StickyStart(cfg, key);
    NoColon(key.suffix);
  }

  // ----- steps -----

  lemma ReportKeepsIt(cfg: Config, key: Key, s: State, r: Report)
    requires Sticky(cfg, key) && Holds(s, key)
    ensures Holds(ApplyReport(s, r), key)
  {
    ReportKeysDiffer(cfg, key, r.category, r.command);
    DiagnosticKeysDiffer(cfg, key, "");
  }

  lemma {:induction false} ReportsKeepIt(cfg: Config, key: Key, s: State, reports: seq<Report>)
    requires Sticky(cfg, key) && Holds(s, key)
    ensures Holds(ApplyReports(cfg, s, reports).0, key)
    decreases |reports|
  {
    if reports != [] {
      ReportKeepsIt(cfg, key, s, reports[0]);
      ReportsKeepIt(cfg, key, ApplyReport(s, reports[0]), reports[1..]);
    }
  }

  lemma VerificationKeepsIt(cfg: Config, key: Key, s: State, changedFiles: seq<string>, v: Verification)
    requires Sticky(cfg, key) && Holds(s, key)
    ensures var r := RunVerification(cfg, s, changedFiles, v); r.Checked? ==> Holds(r.state, key)
  {
    if v.Reports? { ReportsKeepIt(cfg, key, s, v.reports); }
  }

  lemma ValidationKeepsIt(cfg: Config, key: Key, s: State, command: ShellCommand, r: ToolResult)
    requires Sticky(cfg, key) && Holds(s, key) && key.Check? && command.text != key.suffix
    ensures Holds(BookValidation(s, command, r), key)
  {
    DiagnosticKeysDiffer(cfg, key, "");
  }

  lemma DiagnosticKeepsIt(cfg: Config, key: Key, s: State, d: Diagnostic)
    requires Sticky(cfg, key) && Holds(s, key)
    ensures Holds(BookDiagnostic(s, d), key)
  {
    DiagnosticKeysDiffer(cfg, key, d.path);
  }

  lemma EffectsKeepIt(cfg: Config, key: Key, s: State, c: ToolCall, r: ToolResult)
    requires Sticky(cfg, key) && Holds(s, key) && key.Check? && CallLeavesIt(c, key)
    ensures Holds(BookEffects(s, c, r), key)
  {
    var validation := ValidationOf(c);
    if validation.Some? { ValidationKeepsIt(cfg, key, s, validation.value, r); }
    var s1 := if validation.Some? then BookValidation(s, validation.value, r) else s;
    if r.diagnostic.Some? { DiagnosticKeepsIt(cfg, key, BookFiles(s1, r), r.diagnostic.value); }
  }

  lemma EndCallKeepsIt(cfg: Config, key: Key, s: State, before: nat, r: ToolResult, repeated: bool, endHooks: EndHooks)
    requires Sticky(cfg, key) && Holds(s, key)
    ensures StillHolds(EndCall(s, before, r, repeated, endHooks), key)
  {
    DiagnosticKeysDiffer(cfg, key, "");
    assert Holds(Conclude(s, before), key);
  }

  lemma EditDiffKeepsIt(cfg: Config, key: Key, s: State, r: ToolResult)
    requires Sticky(cfg, key) && Holds(s, key)
    ensures Holds(if ShowsEditDiff(cfg, r) then BookEditDiff(cfg, s) else s, key)
  {
    DiagnosticKeysDiffer(cfg, key, "");
    assert key == RUNNER ==> RUNNER_NAME != NAME by { assert RUNNER_NAME[0] != NAME[0]; }
  }

  lemma AfterBookingKeepsIt(cfg: Config, key: Key, s: State, c: ToolCall, r: ToolResult, endHooks: EndHooks)
    requires Sticky(cfg, key) && Holds(s, key) && key.Check? && CallLeavesIt(c, key)
    ensures StillHolds(AfterBooking(cfg, s, c, r, endHooks), key)
  {
    var effects := BookEffects(s, c, r);
    EffectsKeepIt(cfg, key, s, c, r);
    var shown := if ShowsEditDiff(cfg, r) then BookEditDiff(cfg, effects) else effects;
    EditDiffKeepsIt(cfg, key, effects, r);
    VerificationKeepsIt(cfg, key, shown, r.changedFiles, c.verification);
    match RunVerification(cfg, shown, r.changedFiles, c.verification)
    case PolicyDenied =>
    case Checked(next, repeated) => EndCallKeepsIt(cfg, key, next, |shown.results|, r, repeated, endHooks);
  }

  lemma BookingKeepsIt(cfg: Config, key: Key, s: State, c: ToolCall, r: ToolResult)
    requires Sticky(cfg, key) && Holds(s, key)
    ensures Holds(BookResult(NoteEdit(s, r), c, r), key)
  {
  }

  lemma AfterToolKeepsIt(cfg: Config, key: Key, s: State, c: ToolCall, r: ToolResult, endHooks: EndHooks)
    requires Sticky(cfg, key) && Holds(s, key) && key.Check? && CallLeavesIt(c, key)
    ensures StillHolds(AfterTool(cfg, s, c, r, endHooks), key)
  {
    BookingKeepsIt(cfg, key, s, c, r);
    AfterBookingKeepsIt(cfg, key, BookResult(NoteEdit(s, r), c, r), c, r, endHooks);
  }

  lemma CountedCallKeepsIt(cfg: Config, key: Key, s: State, c: ToolCall, endHooks: EndHooks)
    requires Sticky(cfg, key) && Holds(s, key) && key.Check? && CallLeavesIt(c, key)
    ensures StillHolds(CountedCall(cfg, s, c, endHooks), key)
  {
    if !ModeAllows(cfg, c) {
      AfterBookingKeepsIt(cfg, key, Saved(s), c, Denied(), endHooks);
    } else if c.outcome.ToolDone? {
      AfterToolKeepsIt(cfg, key, Issue(Saved(s), Execution(CallKeyOf(c))), c, c.outcome.result, endHooks);
    }
  }

  lemma ToolStepKeepsIt(cfg: Config, key: Key, s: State, c: ToolCall, endHooks: EndHooks)
    requires Sticky(cfg, key) && Holds(s, key) && key.Check? && CallLeavesIt(c, key)
    ensures StillHolds(ToolStep(cfg, s, c, endHooks), key)
  {
    CountedCallKeepsIt(cfg, key, CountCall(s, CallKeyOf(c)), c, endHooks);
  }

  lemma {:induction false} ToolStepsKeepIt(cfg: Config, key: Key, s: State, calls: seq<ToolCall>, endHooks: EndHooks)
    requires Sticky(cfg, key) && Holds(s, key) && key.Check?
    requires forall i :: 0 <= i < |calls| ==> CallLeavesIt(calls[i], key)
    ensures StillHolds(ToolSteps(cfg, s, calls, endHooks), key)
    decreases |calls|
  {
    if calls != [] {
      ToolStepKeepsIt(cfg, key, s, calls[0], endHooks);
      var p := ToolStep(cfg, s, calls[0], endHooks);
      if p.Running? { ToolStepsKeepIt(cfg, key, p.state, calls[1..], endHooks); }
    }
  }

  // ----- final responses -----

  lemma {:induction false} WaiversKeepIt(cfg: Config, key: Key, s: State, waivers: seq<string>)
    requires Sticky(cfg, key) && Holds(s, key) && key.Check? && key.suffix !in waivers
    ensures Holds(WaiveAll(s, waivers).0, key)
    decreases |waivers|
  {
    if waivers != [] {
      OnlyItsNameWaives(cfg, key, waivers[0]);
      WaiversKeepIt(cfg, key, WaiveOne(s, waivers[0]), waivers[1..]);
    }
  }

  lemma GateKeepsIt(cfg: Config, key: Key, s: State, endHooks: EndHooks)
    requires Holds(s, key) && s.listing == Listing(s.errors, [])
    ensures StillHolds(Gate(cfg, s, endHooks), key)
  {
    GateOpensExactlyWhen(cfg, s, endHooks);
    assert Holds(Obstacles(cfg, s), key);
  }

  lemma InspectAndGateKeepsIt(cfg: Config, key: Key, s: State, check: Verification, endHooks: EndHooks)
    requires Sticky(cfg, key) && Holds(s, key) && Bounded(s) && s.listing == Listing(s.errors, [])
    ensures StillHolds(InspectAndGate(cfg, s, check, endHooks), key)
  {
    if Uninspected(cfg, s) && cfg.gitAvailable && cfg.hasVerifier {
      VerificationIsQuiet(cfg, s, s.changed, check);
      VerificationKeepsIt(cfg, key, s, s.changed, check);
      match RunVerification(cfg, s, s.changed, check)
      case PolicyDenied =>
      case Checked(next, _) =>
        var judged := Judged(next, |s.results|);
        if !judged.inspected { GateKeepsIt(cfg, key, judged, endHooks); }
    } else {
      GateKeepsIt(cfg, key, s, endHooks);
    }
  }

  lemma CompleteKeepsIt(cfg: Config, key: Key, s: State, r: Response)
    requires Sticky(cfg, key) && Holds(s, key) && Bounded(s) && key.Check? && key.suffix !in r.waivers
    ensures StillHolds(Complete(cfg, s, r), key)
  {
    var answered := PlanAnswer(cfg, s, r);
    var waived := ApplyWaivers(answered, r.waivers);
    WaiversKeepIt(cfg, key, answered, r.waivers);
    DiagnosticKeysDiffer(cfg, key, "");
    assert Holds(waived, key);
    ApplyWaiversIsQuiet(answered, r.waivers);
    InspectAndGateKeepsIt(cfg, key, waived, r.finalCheck, r.endHooks);
  }

  // ----- turns and runs -----

  lemma AfterResponseKeepsIt(cfg: Config, key: Key, s: State, t: Turn, r: Response)
    requires Sticky(cfg, key) && Holds(s, key) && Bounded(s) && key.Check? && ResponseLeavesIt(r, key)
    ensures StillHolds(AfterResponse(cfg, s, t, r), key)
  {
    if LimitReached(cfg, s.budget, t.cancelledAfter, t.expiredAfter).None? {
      if r.calls != [] {
        ToolStepsKeepIt(cfg, key, s, r.calls, r.endHooks);
      } else if r.directive.NoDirective? {
        ReplanKeepsWork(s, r);
        CompleteKeepsIt(cfg, key, PlanFromText(s, r), r);
      }
    }
  }

  lemma AnswerKeepsIt(cfg: Config, key: Key, s: State, t: Turn)
    requires Sticky(cfg, key) && t.model.Answered? && Holds(s, key) && Bounded(s)
    ensures Holds(Answer(s, t), key) && Bounded(Answer(s, t))
  {
    var answered := ProviderAnswered(Request(s));
    RequestKeepsWork(s);
    ReplanKeepsWork(answered, t.model.response);
    SpendKeepsWork(Replan(answered, t.model.response), t.model.response);
  }

  lemma TurnKeepsIt(cfg: Config, key: Key, s: State, t: Turn)
    requires Sticky(cfg, key) && Holds(s, key) && Bounded(s) && key.Check? && TurnLeavesIt(t, key)
    ensures StillHolds(TurnStep(cfg, s, t), key)
  {
    if t.model.Answered? {
      AnswerKeepsIt(cfg, key, s, t);
      AfterResponseKeepsIt(cfg, key, Answer(s, t), t, t.model.response);
    }
  }

  /**
   Main result: from a state with such an error, no run without a waiver of its name ends Done, whatever
   it does, and however many checks and inspections succeed.
   */
  lemma {:induction false} StickyErrorBlocksForever(cfg: Config, key: Key, s: State, turns: seq<Turn>)
    requires ValidLimits(cfg) && Sticky(cfg, key) && Live(cfg, s) && Holds(s, key) && key.Check?
    requires forall i :: 0 <= i < |turns| ==> Unwaived(turns[i], key)
    ensures StillHolds(RunFrom(cfg, s, turns), key)
    decreases |turns|
  {
    if turns != [] {
      UnwaivedLeavesIt(cfg, turns[0], key);
      TurnKeepsIt(cfg, key, s, turns[0]);
      TurnIsGood(cfg, s, turns[0]);
      var p := TurnStep(cfg, s, turns[0]);
      if p.Running? { StickyErrorBlocksForever(cfg, key, p.state, turns[1..]); }
    }
  }

  // ----- where the errors come from -----

  /** An automatic inspection after which the run goes on has found the diff or recorded the error. */
  lemma UnseenDiffIsRecorded(cfg: Config, s: State, check: Verification, endHooks: EndHooks)
    requires Uninspected(cfg, s) && Bounded(s) && s.listing == Listing(s.errors, [])
    requires cfg.gitAvailable && cfg.hasVerifier
    requires InspectAndGate(cfg, s, check, endHooks).Running?
    ensures var next := InspectAndGate(cfg, s, check, endHooks).state; next.inspected || Holds(next, FINAL_DIFF)
  {
    VerificationIsQuiet(cfg, s, s.changed, check);
    VerificationKeepsChanged(cfg, s, s.changed, check);
    var next := RunVerification(cfg, s, s.changed, check).state;
    var judged := Judged(next, |s.results|);
    if !judged.inspected { ObstaclesAreQuiet(cfg, judged); }
  }

  /** A verifier that could not run is recorded, with or without Git, by every verification that asks it. */
  lemma FailedVerifierIsRecorded(cfg: Config, s: State, changedFiles: seq<string>, message: string)
    requires changedFiles != [] && cfg.hasVerifier
    ensures var r := RunVerification(cfg, s, changedFiles, RunnerError(message)); r.Checked? && Holds(r.state, RUNNER)
  {
  }

}
