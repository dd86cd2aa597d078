/**
 The run loop as it is written: counters, maps and flags updated step by step, with loops over turns,
 tool calls, reports, waivers and files.  Every method is proved against the step machine, and `Run`
 against the results about whole runs.
 */
module AgentRunner {
  import opened Wrappers
  import opened Text
  import opened AgentMachine
  import opened AgentSafety
  import opened AgentResume
  import opened AgentRuns
  import Plan = ExecutionPlan

  /** What a method's exit means for the state it leaves. */
  function Outcome(s: State, exit: Option<Exit>): Progress {
    if exit.None? then Running(s) else Stopped(s, exit.value)
  }

  /** What booking a report changes before a failure is counted. */
  function Observed(s: State, r: Report): State {
    s.(inspected := s.inspected || ShowsDiff(r),
       review := if ShowsDiff(r) then s.review + [DiffInspected] else s.review,
       results := PushBounded(s.results, ResultOf(r), WINDOW),
       errors := ReportErrors(s.errors, r))
  }

  lemma ReportIsObserved(s: State, r: Report)
    ensures ApplyReport(s, r) == if r.passed then Observed(s, r) else CountFailure(Observed(s, r), ReportSignature(r))
  {
  }

  class TaskRunner {
    const cfg: Config
    const stored: Stored

    var turns: nat
    var toolCalls: nat
    var modelTokens: nat
    var cost: Option<nat>
    var repeatedCalls: map<CallKey, nat>
    var repeatedFailures: map<Signature, nat>
    var errors: Errors
    var listing: Listing
    var noProgress: nat
    var validated: bool
    var inspected: bool
    var changed: seq<string>
    var results: seq<CheckResult>
    var structured: bool
    var plan: Plan.State
    var planOps: seq<Plan.Op>
    var saved: Snapshot

    ghost var resets: nat
    ghost var finals: nat
    ghost var issued: multiset<Issued>
    ghost var counted: multiset<Signature>
    ghost var review: seq<ReviewEvent>

    ghost function View(): State
      reads this
    {
      State(Budget(turns, toolCalls, modelTokens, cost, repeatedCalls, issued),
            repeatedFailures, counted, errors, listing, Stall(noProgress, resets, finals), validated, inspected, review,
            changed, results, structured, planOps, saved)
    }

    ghost predicate Valid()
      reads this
    {
      plan == Plan.Run(stored.origin, planOps)
    }

    /** Begins a run from what the session has stored. */
    constructor (cfg: Config, stored: Stored)
      ensures this.cfg == cfg && this.stored == stored && Valid() && View() == Start(cfg, stored)
    {
      this.cfg, this.stored := cfg, stored;
      turns, toolCalls, modelTokens, cost := 0, 0, 0, Some(0);
      repeatedCalls, repeatedFailures := map[], map[];
      errors, listing := ReadErrors(stored.errors), StartListing(stored);
      noProgress, validated := 0, cfg.mode != Code || stored.changed == [];
      inspected, review := stored.inspected, stored.review;
      changed, results, structured := stored.changed, stored.results, stored.structured;
      plan := Plan.Run(Plan.Run(stored.origin, stored.planOps), StartOps(stored));
      planOps := stored.planOps + StartOps(stored);
      saved := Start(cfg, stored).saved;
      issued, counted, resets, finals := multiset{}, multiset{}, 0, 0;
      Plan.AcceptedInTurn(stored.origin, stored.planOps, StartOps(stored));
    }

    // ----- small updates -----

    method UpdatePlan(op: Plan.Op)
      requires Valid()
      modifies this`plan, this`planOps
      ensures Valid() && View() == PlanStep(old(View()), op)
    {
      RunOfAppended(stored.origin, planOps, op);
      plan := Plan.Step(plan, op);
      planOps := planOps + [op];
    }

    method Count(signature: Signature) returns (atLimit: bool)
      modifies this`repeatedFailures, this`counted
      ensures repeatedFailures
              == old(repeatedFailures)[signature := Increment(CountOf(old(repeatedFailures), signature))]
      ensures counted == old(counted) + multiset{signature}
      ensures atLimit <==> CountOf(repeatedFailures, signature) >= AtLeastOne(cfg.limits.maxRepeatedFailures)
    {
      var failures := Increment(CountOf(repeatedFailures, signature));
      repeatedFailures := repeatedFailures[signature := failures];
      counted := counted + multiset{signature};
      atLimit := failures >= AtLeastOne(cfg.limits.maxRepeatedFailures);
    }

    method MarkInspected()
      modifies this`inspected, this`review
      ensures inspected && review == old(review) + [DiffInspected]
    {
      inspected := true;
      review := review + [DiffInspected];
    }

    method ListErrors()
      modifies this`listing
      ensures listing == Listing(errors, [])
    {
      listing := Listing(errors, []);
    }

    method NoteError(key: Key, entry: Entry)
      modifies this`errors, this`listing
      ensures View() == Listed(WithError(old(View()), key, entry))
    {
      errors := errors[key := entry];
      ListErrors();
    }

    method RelistErrors()
      modifies this`listing
      ensures View() == Listed(old(View()))
    {
      ListErrors();
    }

    method ReportTaskRun()
      modifies this`saved
      ensures View() == Saved(old(View()))
    {
      saved := Snapshot(listing, changed, results, inspected, structured, planOps);
    }

    method Issuing(i: Issued)
      modifies this`issued
      ensures View() == Issue(old(View()), i)
    {
      issued := issued + multiset{i};
    }

    // ----- ends of a run -----

    method FinishTask(status: Completion, endHooks: EndHooks) returns (exit: Option<Exit>)
      requires Valid()
      modifies this`plan, this`planOps, this`listing, this`saved
      ensures Valid() && exit.Some? && Outcome(View(), exit) == Finish(old(View()), status, endHooks)
    {
      var final := status;
      match endHooks {
        case Passed =>
        case Failed(error) =>
          final := Plan.Completion.Stuck;
          PushLine(HookFailure(error));
      }
      UpdatePlan(Plan.FinishOp(final));
      ReportTaskRun();
      exit := Some(Ended(final));
    }

    method PushLine(line: Line)
      modifies this`listing
      ensures View() == Push(old(View()), line)
    {
      listing := listing.(pushed := listing.pushed + [line]);
    }

    method AbortTask(status: Completion) returns (exit: Option<Exit>)
      requires Valid()
      modifies this`plan, this`planOps, this`saved
      ensures Valid() && exit.Some? && Outcome(View(), exit) == Abort(old(View()), status)
    {
      UpdatePlan(Plan.FinishOp(status));
      ReportTaskRun();
      exit := Some(Aborted(status));
    }

    method CheckLimits(cancelled: bool, expired: bool) returns (status: Option<Completion>)
      ensures status == LimitReached(cfg, View().budget, cancelled, expired)
    {
      if cancelled {
        return Some(Plan.Completion.Cancelled);
      }
      if turns > cfg.limits.maxTurns
         || toolCalls > cfg.limits.maxToolCalls
         || (cfg.limits.maxModelTokens > 0 && modelTokens > cfg.limits.maxModelTokens)
         || expired
         || (cfg.limits.maxCost.Some? && cost.Some? && cost.value > cfg.limits.maxCost.value) {
        return Some(Plan.Completion.ResourceLimitReached);
      }
      return None;
    }

    // ----- verification -----

    method NoteReport(r: Report)
      modifies this`inspected, this`review, this`results, this`errors
      ensures inspected == (old(inspected) || ShowsDiff(r))
      ensures review == if ShowsDiff(r) then old(review) + [DiffInspected] else old(review)
      ensures results == PushBounded(old(results), ResultOf(r), WINDOW)
      ensures errors == ReportErrors(old(errors), r)
    {
      if r.category == GitDiff && r.passed { MarkInspected(); }
      results := PushBounded(results, ResultOf(r), WINDOW);
      var key := ReportKey(r.category, r.command);
      if r.passed {
        errors := errors - {key};
        if r.category == Typecheck || r.category == Build { errors := WithoutDiagnostics(errors); }
      } else {
        errors := errors[key := Summary(r.output)];
      }
    }

    method ObserveReport(r: Report)
      modifies this`inspected, this`review, this`results, this`errors
      ensures View() == Observed(old(View()), r)
    {
      NoteReport(r);
    }

    method CountReport(r: Report) returns (atLimit: bool)
      modifies this`repeatedFailures, this`counted
      ensures View() == if r.passed then old(View()) else CountFailure(old(View()), ReportSignature(r))
      ensures atLimit <==> !r.passed && AtFailureLimit(cfg, View(), ReportSignature(r))
    {
      atLimit := false;
      if !r.passed { atLimit := Count(ReportSignature(r)); }
    }

    method BookReport(r: Report) returns (atLimit: bool)
      modifies this`inspected, this`review, this`results, this`errors, this`repeatedFailures, this`counted
      ensures View() == ApplyReport(old(View()), r)
      ensures atLimit <==> !r.passed && AtFailureLimit(cfg, View(), ReportSignature(r))
    {
      ReportIsObserved(View(), r);
      ObserveReport(r);
      atLimit := CountReport(r);
    }

    /** Books the reports in order; true as soon as a failure has reached its limit. */
    method BookReports(reports: seq<Report>) returns (repeated: bool)
      modifies this`inspected, this`review, this`results, this`errors, this`repeatedFailures, this`counted, this`listing
      ensures (View(), repeated) == ApplyReports(cfg, old(View()), reports)
    {
      var i := 0;
      while i < |reports|
        invariant 0 <= i <= |reports|
        invariant ApplyReports(cfg, View(), reports[i..]) == ApplyReports(cfg, old(View()), reports)
      {
        assert reports[i..][1..] == reports[i + 1..];
        var atLimit := BookReport(reports[i]);
        if atLimit {
          ListErrors();
          return true;
        }
        i := i + 1;
      }
      ListErrors();
      return false;
    }

    method NoteRunnerError(message: string) returns (repeated: bool)
      modifies this`results, this`errors, this`repeatedFailures, this`counted, this`listing
      ensures errors == old(errors)[RUNNER := Summary(message)] && listing == Listing(errors, [])
      ensures results == PushBounded(old(results), CheckResult("verification", Runner, false, Some("unknown")), WINDOW)
      ensures var signature := RunnerFailure(message);
              && repeatedFailures
                 == old(repeatedFailures)[signature := Increment(CountOf(old(repeatedFailures), signature))]
              && counted == old(counted) + multiset{signature}
              && (repeated <==> CountOf(repeatedFailures, signature) >= AtLeastOne(cfg.limits.maxRepeatedFailures))
    {
      errors := errors[RUNNER := Summary(message)];
      results := PushBounded(results, CheckResult("verification", Runner, false, Some("unknown")), WINDOW);
      repeated := Count(RunnerFailure(message));
      ListErrors();
    }

    method BookRunnerError(message: string) returns (repeated: bool)
      modifies this`results, this`errors, this`repeatedFailures, this`counted, this`listing
      ensures (View(), repeated) == ApplyRunnerError(cfg, old(View()), message)
    {
      repeated := NoteRunnerError(message);
    }

    method RunVerificationIfNeeded(changedFiles: seq<string>, v: Verification) returns (denied: bool, repeated: bool)
      modifies this`inspected, this`review, this`results, this`errors, this`repeatedFailures, this`counted, this`listing
      ensures RunVerification(cfg, old(View()), changedFiles, v)
              == if denied then PolicyDenied else Checked(View(), repeated)
      ensures denied ==> View() == old(View())
    {
      denied, repeated := false, false;
      if changedFiles == [] || !cfg.hasVerifier || v.NoSteps? {
        return;
      }
      match v {
        case Refused => denied := true;
        case Reports(reports) => repeated := BookReports(reports);
        case RunnerError(message) => repeated := BookRunnerError(message);
      }
    }

    // ----- one tool call -----

    method BookToolFailure(c: ToolCall, r: ToolResult) returns (atLimit: bool)
      modifies this`errors, this`listing, this`repeatedFailures, this`counted
      ensures errors == old(errors)[Tool(c.name) := Summary(r.output)] && listing == Listing(errors, [])
      ensures var signature := ToolSignature(c, r);
              && repeatedFailures
                 == old(repeatedFailures)[signature := Increment(CountOf(old(repeatedFailures), signature))]
              && counted == old(counted) + multiset{signature}
              && (atLimit <==> CountOf(repeatedFailures, signature) >= AtLeastOne(cfg.limits.maxRepeatedFailures))
    {
      errors := errors[Tool(c.name) := Summary(r.output)];
      atLimit := Count(ToolSignature(c, r));
      ListErrors();
    }

    method BookToolSuccess(c: ToolCall, r: ToolResult)
      modifies this`errors, this`listing, this`noProgress, this`resets, this`inspected
      ensures errors == old(errors) - {Tool(c.name)} && listing == Listing(errors, [])
      ensures noProgress == 0 && resets == old(resets) + 1
      ensures inspected == (old(inspected) && r.changedFiles == [])
    {
      errors := errors - {Tool(c.name)};
      ListErrors();
      noProgress, resets := 0, resets + 1;
      if r.changedFiles != [] { inspected := false; }
    }

    method NoteChange(r: ToolResult)
      modifies this`review
      ensures View() == NoteEdit(old(View()), r)
    {
      if r.changedFiles != [] { review := review + [Edited(r.isError)]; }
    }

    method BookFailure(c: ToolCall, r: ToolResult) returns (atLimit: bool)
      requires r.isError
      modifies this`errors, this`listing, this`repeatedFailures, this`counted
      ensures View() == BookResult(old(View()), c, r)
      ensures atLimit <==> AtFailureLimit(cfg, View(), ToolSignature(c, r))
    {
      atLimit := BookToolFailure(c, r);
    }

    method BookSuccess(c: ToolCall, r: ToolResult)
      requires !r.isError
      modifies this`errors, this`listing, this`noProgress, this`resets, this`inspected
      ensures View() == BookResult(old(View()), c, r)
    {
      BookToolSuccess(c, r);
    }

    method BookToolResult(c: ToolCall, r: ToolResult) returns (atLimit: bool)
      modifies this`errors, this`listing, this`noProgress, this`resets, this`inspected, this`review
      modifies this`repeatedFailures, this`counted
      ensures View() == BookResult(NoteEdit(old(View()), r), c, r)
      ensures atLimit <==> r.isError && AtFailureLimit(cfg, View(), ToolSignature(c, r))
    {
      NoteChange(r);
      atLimit := false;
      if r.isError {
        atLimit := BookFailure(c, r);
      } else {
        BookSuccess(c, r);
      }
    }

    /** Books a check the model or an edit brought with it. */
    method BookCheck(result: CheckResult, key: Key, showsDiff: bool, output: string)
      modifies this`errors, this`results, this`validated, this`inspected, this`review
      ensures results == PushBounded(old(results), result, WINDOW) && validated == result.passed
      ensures errors == if result.passed then old(errors) - {key, AFTER_EDIT} else old(errors)[key := Summary(output)]
      ensures inspected == (old(inspected) || (result.passed && showsDiff))
      ensures review == if result.passed && showsDiff then old(review) + [DiffInspected] else old(review)
    {
      results := PushBounded(results, result, WINDOW);
      if result.passed {
        errors := errors - {key, AFTER_EDIT};
        validated := true;
        if showsDiff { MarkInspected(); }
      } else {
        errors := errors[key := Summary(output)];
        validated := false;
      }
    }

    method BookValidationCommand(command: ShellCommand, r: ToolResult)
      modifies this`errors, this`results, this`validated, this`inspected, this`review
      ensures View() == BookValidation(old(View()), command, r)
    {
      var result := CheckResult(BoundedSummary(command.text), AgentCommand, !r.isError, Origin(!r.isError));
      BookCheck(result, Check(command.text), command.gitDiff, r.output);
    }

    method AddChangedFiles(files: seq<string>)
      modifies this`changed
      ensures changed == PushFiles(old(changed), files)
    {
      var i := 0;
      while i < |files|
        invariant 0 <= i <= |files|
        invariant PushFiles(changed, files[i..]) == PushFiles(old(changed), files)
      {
        assert files[i..][1..] == files[i + 1..];
        changed := PushUniqueBounded(changed, files[i], WINDOW);
        i := i + 1;
      }
    }

    method BookChangedFiles(r: ToolResult)
      modifies this`changed, this`validated
      ensures View() == BookFiles(old(View()), r)
    {
      AddChangedFiles(r.changedFiles);
      if r.changedFiles != [] { validated := false; }
    }

    method BookQuickDiagnostic(d: Diagnostic)
      modifies this`errors, this`results, this`validated, this`inspected, this`review
      ensures View() == BookDiagnostic(old(View()), d)
    {
      var command := DIAGNOSTICS + d.path;
      BookCheck(CheckResult(command, Diagnostics, d.passed, Origin(d.passed)), Check(command), false, d.output);
    }

    method BookCallEffects(c: ToolCall, r: ToolResult)
      modifies this`errors, this`results, this`validated, this`inspected, this`review, this`changed
      ensures View() == BookEffects(old(View()), c, r)
    {
      var validation := ValidationOf(c);
      if validation.Some? { BookValidationCommand(validation.value, r); }
      BookChangedFiles(r);
      if r.changedFiles != [] && r.diagnostic.Some? { BookQuickDiagnostic(r.diagnostic.value); }
    }

    method NoteEditDiff()
      modifies this`errors, this`results, this`validated, this`inspected, this`review
      ensures inspected && review == old(review) + [DiffInspected]
      ensures results == PushBounded(
                old(results), CheckResult("inspect final edit diff", Reported(GitDiff), true, None), WINDOW)
      ensures if cfg.hasVerifier && cfg.automatedChecks
              then errors == old(errors) - {FINAL_DIFF} && validated == old(validated)
              else errors == old(errors) - {FINAL_DIFF} - {AFTER_EDIT} && validated
    {
      MarkInspected();
      results := PushBounded(results, CheckResult("inspect final edit diff", Reported(GitDiff), true, None), WINDOW);
      errors := errors - {FINAL_DIFF};
      if !(cfg.hasVerifier && cfg.automatedChecks) {
        validated := true;
        errors := errors - {AFTER_EDIT};
      }
    }

    method BookFinalEditDiff()
      modifies this`errors, this`results, this`validated, this`inspected, this`review
      ensures View() == BookEditDiff(cfg, old(View()))
    {
      NoteEditDiff();
    }

    method NoteConclusion(before: nat)
      modifies this`errors, this`validated, this`noProgress, this`resets
      ensures var added := if before < |results| then results[before..] else [];
              var passed := added != [] && AllPassed(added);
              && validated == (passed || (added == [] && (inspected || old(validated))))
              && errors == (if passed || (added == [] && inspected) then old(errors) - {AFTER_EDIT} else old(errors))
              && noProgress == (if passed then 0 else old(noProgress))
              && resets == (if passed then old(resets) + 1 else old(resets))
    {
      if |results| > before {
        validated := AllPassed(results[before..]);
        if validated {
          errors := errors - {AFTER_EDIT};
          noProgress, resets := 0, resets + 1;
        }
      } else if inspected {
        validated := true;
        errors := errors - {AFTER_EDIT};
      }
    }

    method ConcludeVerification(before: nat)
      modifies this`errors, this`validated, this`noProgress, this`resets
      ensures View() == Conclude(old(View()), before)
    {
      NoteConclusion(before);
    }

    method EndToolCall(before: nat, r: ToolResult, repeated: bool, endHooks: EndHooks) returns (exit: Option<Exit>)
      requires Valid()
      modifies this`errors, this`validated, this`noProgress, this`resets
      modifies this`plan, this`planOps, this`listing, this`saved
      ensures Valid() && Outcome(View(), exit) == EndCall(old(View()), before, r, repeated, endHooks)
    {
      var meaningful := Meaningful(r, if before < |results| then results[before..] else []);
      ConcludeVerification(before);
      if meaningful { UpdatePlan(Plan.ProgressOp); }
      RelistErrors();
      ReportTaskRun();
      exit := None;
      if repeated { exit := FinishTask(Plan.Completion.Stuck, endHooks); }
    }

    method VerifyEdit(c: ToolCall, r: ToolResult, endHooks: EndHooks) returns (exit: Option<Exit>)
      requires Valid()
      modifies this
      ensures Valid() && Outcome(View(), exit) == Verify(cfg, old(View()), c, r, endHooks)
    {
      if ShowsEditDiff(cfg, r) { BookFinalEditDiff(); }
      var before := |results|;
      var denied, repeated := RunVerificationIfNeeded(r.changedFiles, c.verification);
      if denied {
        return Some(Aborted(Plan.Completion.Working));
      }
      exit := EndToolCall(before, r, repeated, endHooks);
    }

    method VerifyToolCall(c: ToolCall, r: ToolResult, endHooks: EndHooks) returns (exit: Option<Exit>)
      requires Valid()
      modifies this
      ensures Valid() && Outcome(View(), exit) == AfterBooking(cfg, old(View()), c, r, endHooks)
    {
      BookCallEffects(c, r);
      if r.changedFiles != [] && !c.recorded {
        return Some(Aborted(Plan.Completion.Working));
      }
      exit := VerifyEdit(c, r, endHooks);
    }

    method CountToolCall(key: CallKey) returns (seen: nat)
      modifies this`toolCalls, this`repeatedCalls
      ensures View() == CountCall(old(View()), key) && seen == CountOf(repeatedCalls, key)
    {
      toolCalls := toolCalls + 1;
      seen := Increment(CountOf(repeatedCalls, key));
      repeatedCalls := repeatedCalls[key := seen];
    }

    method ExecuteTool(c: ToolCall, endHooks: EndHooks) returns (exit: Option<Exit>)
      requires Valid()
      modifies this
      ensures Valid() && Outcome(View(), exit) == Execute(cfg, old(View()), c, endHooks)
    {
      match c.outcome {
        case ToolError(message) =>
          NoteError(Tool(c.name), Summary(message));
          exit := AbortTask(Plan.Completion.Stuck);
        case ToolDone(result) =>
          var atLimit := BookToolResult(c, result);
          if atLimit {
            exit := FinishTask(Plan.Completion.Stuck, endHooks);
          } else {
            exit := VerifyToolCall(c, result, endHooks);
          }
      }
    }

    method StopRepeatedCall(c: ToolCall, attempts: nat, endHooks: EndHooks) returns (exit: Option<Exit>)
      requires Valid()
      modifies this
      ensures Valid() && exit.Some?
      ensures Outcome(View(), exit)
              == FinishBlocked(Listed(WithError(old(View()), Guard, RepeatedCall(attempts, c.name))), endHooks)
    {
      NoteError(Guard, RepeatedCall(attempts, c.name));
      exit := FinishTask(Plan.Completion.Stuck, endHooks);
    }

    method RunCountedCall(c: ToolCall, seen: nat, endHooks: EndHooks) returns (exit: Option<Exit>)
      requires Valid() && seen == CountOf(repeatedCalls, CallKeyOf(c))
      modifies this
      ensures Valid() && Outcome(View(), exit) == CountedCall(cfg, old(View()), c, endHooks)
    {
      if seen > AtLeastOne(cfg.limits.maxRepeatedCalls) {
        exit := StopRepeatedCall(c, seen - 1, endHooks);
        return;
      }
      ReportTaskRun();
      if !ModeAllows(cfg, c) {
        exit := VerifyToolCall(c, Denied(), endHooks);
      } else {
        Issuing(Execution(CallKeyOf(c)));
        exit := ExecuteTool(c, endHooks);
      }
    }

    method RunToolCall(c: ToolCall, endHooks: EndHooks) returns (exit: Option<Exit>)
      requires Valid()
      modifies this
      ensures Valid() && Outcome(View(), exit) == ToolStep(cfg, old(View()), c, endHooks)
    {
      if c.cancelled {
        exit := AbortTask(Plan.Completion.Cancelled);
      } else if toolCalls >= cfg.limits.maxToolCalls {
        exit := AbortTask(Plan.Completion.ResourceLimitReached);
      } else {
        var seen := CountToolCall(CallKeyOf(c));
        exit := RunCountedCall(c, seen, endHooks);
      }
    }

    method RunToolCalls(calls: seq<ToolCall>, endHooks: EndHooks) returns (exit: Option<Exit>)
      requires Valid()
      modifies this
      ensures Valid() && Outcome(View(), exit) == ToolSteps(cfg, old(View()), calls, endHooks)
    {
      var i := 0;
      while i < |calls|
        invariant 0 <= i <= |calls| && Valid()
        invariant ToolSteps(cfg, View(), calls[i..], endHooks) == ToolSteps(cfg, old(View()), calls, endHooks)
      {
        assert calls[i..][1..] == calls[i + 1..];
        exit := RunToolCall(calls[i], endHooks);
        if exit.Some? { return; }
        i := i + 1;
      }
      exit := None;
    }

    // ----- a final response -----

    /** Marks the latest failed result of the command, looking from the end. */
    method MarkLatestUnrelated(command: string)
      modifies this`results
      ensures results == MarkUnrelated(old(results), command)
    {
      var i := |results|;
      assert results[..i] == results && results[..i] + results[i..] == results;
      assert MarkUnrelated(results[..i], command) + results[i..] == MarkUnrelated(results, command);
      while i > 0
        invariant 0 <= i <= |results| && results == old(results)
        invariant MarkUnrelated(results, command) == MarkUnrelated(results[..i], command) + results[i..]
      {
        var last := results[i - 1];
        assert results[..i][..i - 1] == results[..i - 1];
        if last.command == command && !last.passed {
          results := results[i - 1 := last.(origin := Some("unrelated"))];
          assert results == old(results)[..i - 1] + [last.(origin := Some("unrelated"))] + old(results)[i..];
          return;
        }
        assert MarkUnrelated(results[..i], command) == MarkUnrelated(results[..i - 1], command) + [last];
        assert [last] + results[i..] == results[i - 1..];
        i := i - 1;
      }
      assert results[..0] == [] && results[0..] == results;
    }

    method WaiveCommand(command: string) returns (applied: bool)
      modifies this`errors, this`results
      ensures View() == WaiveOne(old(View()), command) && applied == (WaivedKeys(old(errors), command) != {})
    {
      var keys := WaivedKeys(errors, command);
      applied := keys != {};
      if applied {
        errors := errors - keys;
        MarkLatestUnrelated(command);
      }
    }

    method WaiveCommands(waivers: seq<string>) returns (applied: bool)
      modifies this`errors, this`results
      ensures (View(), applied) == WaiveAll(old(View()), waivers)
    {
      applied := false;
      var i := 0;
      while i < |waivers|
        invariant 0 <= i <= |waivers|
        invariant var rest := WaiveAll(View(), waivers[i..]);
                  (rest.0, applied || rest.1) == WaiveAll(old(View()), waivers)
      {
        assert waivers[i..][1..] == waivers[i + 1..];
        var one := WaiveCommand(waivers[i]);
        applied := applied || one;
        i := i + 1;
      }
    }

    method ApplyUnrelatedDispositions(waivers: seq<string>)
      modifies this`errors, this`results, this`validated, this`listing
      ensures View() == ApplyWaivers(old(View()), waivers)
    {
      var applied := WaiveCommands(waivers);
      if applied {
        errors := errors - {AFTER_EDIT};
        validated := true;
      }
      ListErrors();
    }

    method RecordObstacles()
      modifies this`errors, this`listing
      ensures View() == Obstacles(cfg, old(View()))
    {
      NoteObstacles();
    }

    method NoteObstacles()
      modifies this`errors, this`listing
      ensures var uninspected := cfg.mode == Code && changed != [] && !inspected;
              var first := OrInsert(old(errors), FINAL_DIFF, DiffMissing);
              if !uninspected then errors == old(errors) && listing == old(listing)
              else listing == Listing(errors, [])
                   && errors == if validated then first else OrInsert(first, AFTER_EDIT, CheckMissing)
    {
      if cfg.mode == Code && changed != [] && !inspected {
        errors := OrInsert(errors, FINAL_DIFF, DiffMissing);
        ListErrors();
      }
      if cfg.mode == Code && changed != [] && !validated && !inspected {
        errors := OrInsert(errors, AFTER_EDIT, CheckMissing);
        ListErrors();
      }
    }

    method CountResponse()
      modifies this`noProgress
      ensures View() == Waited(old(View()))
    {
      noProgress := Increment(noProgress);
    }

    method PassGate(endHooks: EndHooks) returns (exit: Option<Exit>)
      requires Valid()
      modifies this
      ensures Valid() && Outcome(View(), exit) == Gate(cfg, old(View()), endHooks)
    {
      RecordObstacles();
      if listing != NOTHING_LISTED {
        CountResponse();
        if noProgress >= AtLeastOne(cfg.limits.maxRepeatedFailures) {
          exit := FinishTask(Plan.Completion.Stuck, endHooks);
        } else {
          ReportTaskRun();
          exit := None;
        }
      } else {
        exit := FinishTask(Plan.Completion.Done, endHooks);
      }
    }

    method NoteInspection(before: nat)
      modifies this`inspected, this`finals
      ensures inspected == DiffPassed(if before < |results| then results[before..] else []) && finals == old(finals) + 1
    {
      inspected := DiffPassed(if before < |results| then results[before..] else []);
      finals := finals + 1;
    }

    method JudgeInspection(before: nat)
      modifies this`inspected, this`finals, this`saved
      ensures View() == Judged(old(View()), before)
    {
      NoteInspection(before);
      ReportTaskRun();
    }

    /** The automatic inspection of a final response that is due one. */
    method InspectAutomatically(check: Verification) returns (denied: bool)
      requires Uninspected(cfg, View()) && cfg.gitAvailable && cfg.hasVerifier
      modifies this`inspected, this`review, this`results, this`errors, this`repeatedFailures, this`counted, this`listing
      modifies this`finals, this`saved
      ensures match RunVerification(cfg, old(View()), old(changed), check)
              case PolicyDenied => denied && View() == old(View())
              case Checked(next, _) => !denied && View() == Judged(next, |old(results)|)
    {
      var before := |results|;
      var repeated: bool;
      denied, repeated := RunVerificationIfNeeded(changed, check);
      if !denied { JudgeInspection(before); }
    }

    method InspectDue(check: Verification, endHooks: EndHooks) returns (exit: Option<Exit>)
      requires Valid() && Uninspected(cfg, View()) && cfg.gitAvailable && cfg.hasVerifier
      modifies this
      ensures Valid() && Outcome(View(), exit) == InspectAndGate(cfg, old(View()), check, endHooks)
    {
      var denied := InspectAutomatically(check);
      if denied {
        return Some(Aborted(Plan.Completion.Working));
      }
      if inspected {
        return None;
      }
      exit := PassGate(endHooks);
    }

    method InspectFinalDiff(check: Verification, endHooks: EndHooks) returns (exit: Option<Exit>)
      requires Valid()
      modifies this
      ensures Valid() && Outcome(View(), exit) == InspectAndGate(cfg, old(View()), check, endHooks)
    {
      if cfg.mode == Code && changed != [] && !inspected && cfg.gitAvailable && cfg.hasVerifier {
        exit := InspectDue(check, endHooks);
      } else {
        exit := PassGate(endHooks);
      }
    }

    method InstallPlanAnswer(r: Response)
      requires Valid()
      modifies this`plan, this`planOps, this`structured, this`saved
      ensures Valid() && View() == PlanAnswer(cfg, old(View()), r)
    {
      if cfg.mode == Planning {
        if !structured {
          UpdatePlan(Plan.Install(r.planAnswer.0, r.planAnswer.1));
          structured := true;
        }
        ReportTaskRun();
      }
    }

    method CompleteTask(r: Response) returns (exit: Option<Exit>)
      requires Valid()
      modifies this
      ensures Valid() && Outcome(View(), exit) == Complete(cfg, old(View()), r)
    {
      InstallPlanAnswer(r);
      ApplyUnrelatedDispositions(r.waivers);
      exit := InspectFinalDiff(r.finalCheck, r.endHooks);
    }

    method PlanFromResponse(r: Response)
      requires Valid()
      modifies this`plan, this`planOps
      ensures Valid() && View() == PlanFromText(old(View()), r)
    {
      if r.planText.Some? { UpdatePlan(Plan.Create(r.planText.value.0, r.planText.value.1)); }
    }

    method HandleFinalResponse(r: Response) returns (exit: Option<Exit>)
      requires Valid()
      modifies this
      ensures Valid() && Outcome(View(), exit) == FinalResponse(cfg, old(View()), r)
    {
      PlanFromResponse(r);
      match r.directive {
        case AskUser => exit := FinishTask(Plan.Completion.UserInputRequired, r.endHooks);
        case GiveUp => exit := FinishTask(Plan.Completion.Stuck, r.endHooks);
        case NoDirective => exit := CompleteTask(r);
      }
    }

    // ----- turns -----

    method ClearProviderError()
      modifies this`errors, this`listing
      ensures View() == ProviderAnswered(old(View()))
    {
      if Provider in errors {
        errors := errors - {Provider};
        ListErrors();
      }
    }

    method UpdatePlanFrom(r: Response)
      requires Valid()
      modifies this`plan, this`planOps, this`saved
      ensures Valid() && View() == Replan(old(View()), r)
    {
      if r.revision.Some? {
        UpdatePlan(Plan.ReviseOp(r.revision.value.0, r.revision.value.1));
      } else {
        PlanFromResponse(r);
      }
      if (r.revision.Some? || r.planText.Some?) && r.planChanged { ReportTaskRun(); }
    }

    method BookUsage(r: Response)
      modifies this`modelTokens, this`cost
      ensures View() == Spend(old(View()), r)
    {
      modelTokens := modelTokens + r.tokens;
      cost := AddCost(cost, r.cost);
    }

    method BookResponse(r: Response)
      requires Valid()
      modifies this`errors, this`listing, this`plan, this`planOps, this`saved, this`modelTokens, this`cost
      ensures Valid() && View() == Absorb(old(View()), r)
    {
      ClearProviderError();
      UpdatePlanFrom(r);
      BookUsage(r);
    }

    method HandleResponse(t: Turn, r: Response) returns (exit: Option<Exit>)
      requires Valid()
      modifies this
      ensures Valid() && Outcome(View(), exit) == AfterResponse(cfg, old(View()), t, r)
    {
      var status := CheckLimits(t.cancelledAfter, t.expiredAfter);
      if status.Some? {
        exit := AbortTask(status.value);
      } else if r.calls == [] {
        exit := HandleFinalResponse(r);
      } else if turns >= cfg.limits.maxTurns {
        exit := AbortTask(Plan.Completion.ResourceLimitReached);
      } else {
        exit := RunToolCalls(r.calls, r.endHooks);
      }
    }

    method RequestModel(t: Turn) returns (exit: Option<Exit>)
      requires Valid()
      modifies this
      ensures Valid() && Outcome(View(), exit) == AfterRequest(cfg, old(View()), t)
    {
      match t.model {
        case ModelCancelled => exit := AbortTask(Plan.Completion.Cancelled);
        case ModelFailed(message) =>
          PushLine(ProviderFailure(message));
          exit := AbortTask(Plan.Completion.Stuck);
        case Answered(response) =>
          BookResponse(response);
          exit := HandleResponse(t, response);
      }
    }

    method NextTurn()
      modifies this`turns
      ensures View() == BeginTurn(old(View()))
    {
      turns := turns + 1;
    }

    method RunTurn(t: Turn) returns (exit: Option<Exit>)
      requires Valid()
      modifies this
      ensures Valid() && Outcome(View(), exit) == TurnStep(cfg, old(View()), t)
    {
      var status := CheckLimits(t.cancelledBefore, t.expiredBefore);
      if status.Some? {
        exit := AbortTask(status.value);
        return;
      }
      NextTurn();
      if !t.prepared {
        return Some(Aborted(Plan.Completion.Working));
      }
      ReportTaskRun();
      Issuing(ModelRequest);
      exit := RequestModel(t);
    }

    /** Runs until a turn stops the run or the environment has no more turns. */
    method RunTurns(turnInputs: seq<Turn>) returns (exit: Option<Exit>)
      requires Valid()
      modifies this
      ensures Valid() && Outcome(View(), exit) == RunFrom(cfg, old(View()), turnInputs)
    {
      var i := 0;
      while i < |turnInputs|
        invariant 0 <= i <= |turnInputs| && Valid()
        invariant RunFrom(cfg, View(), turnInputs[i..]) == RunFrom(cfg, old(View()), turnInputs)
      {
        assert turnInputs[i..][1..] == turnInputs[i + 1..];
        exit := RunTurn(turnInputs[i]);
        if exit.Some? { return; }
        i := i + 1;
      }
      exit := None;
    }

    /**
     A whole run: it always stops, it never exceeds its ceilings, and when it ends Done no error is
     left, every successful edit has been reviewed, and the execution plan is completed.
     */
    method Run(turnInputs: seq<Turn>) returns (exit: Option<Exit>)
      requires Valid() && View() == Start(cfg, stored) && ValidLimits(cfg) && ValidStored(stored)
      modifies this
      ensures Outcome(View(), exit) == RunFromStart(cfg, stored, turnInputs)
      ensures |turnInputs| > cfg.limits.maxTurns ==> exit.Some?
      ensures turns <= cfg.limits.maxTurns + 1 && toolCalls <= cfg.limits.maxToolCalls
      ensures issued[ModelRequest] <= cfg.limits.maxTurns + 1 && |results| <= WINDOW && |changed| <= WINDOW
      ensures exit == Some(Ended(Plan.Completion.Done)) ==>
                && errors == map[] && listing == NOTHING_LISTED
                && (cfg.mode == Code && changed != [] ==> Reviewed(review))
                && PlanDone(plan)
    {
      exit := RunTurns(turnInputs);
      ResourcesStayBounded(cfg, stored, turnInputs);
      StartIsLive(cfg, stored);
      RunIsGood(cfg, Start(cfg, stored), turnInputs);
      if |turnInputs| > cfg.limits.maxTurns { EveryRunEnds(cfg, stored, turnInputs); }
      if exit == Some(Ended(Plan.Completion.Done)) { DoneMeansDone(cfg, stored, turnInputs); }
    }
  }

}
