/**
 What the session has of a run that broke off.  The task run is reported before a tool is executed and
 again at the end of the call; an error in between, a change that cannot be recorded or a verification
 command that is refused, ends the run without a report.  A successful edit of such a call is then
 missing from what the session has, and a stored inspection covers an edit it never saw.
 */
module AgentStorage {
  import opened Wrappers
  import opened AgentMachine
  import opened AgentSafety
  import opened AgentResume
  import opened AgentRuns
  import opened AgentCompletion
  import Plan = ExecutionPlan

  /** An inspection the session has was made after the last successful edit there has been. */
  ghost predicate SavedHonest(s: State) { s.saved.inspected ==> Reviewed(s.review) }

  predicate BrokeOff(p: Progress) { p.Stopped? && p.exit == Aborted(Plan.Completion.Working) }

  lemma ReportedIsHonest(cfg: Config, turn: nat, p: Progress)
    requires Good(cfg, turn, p) && !BrokeOff(p)
    ensures SavedHonest(p.state)
  {
  }

  // ----- one call -----

  /** The tool is executed and answers. */
  predicate Answers(cfg: Config, s: State, c: ToolCall) {
    && !c.cancelled && s.budget.toolCalls < cfg.limits.maxToolCalls
    && CountOf(CountCall(s, CallKeyOf(c)).budget.repeatedCalls, CallKeyOf(c)) <= AtLeastOne(cfg.limits.maxRepeatedCalls)
    && ModeAllows(cfg, c) && c.outcome.ToolDone?
  }

  /** After its edit the call cannot be recorded, or its verification is refused. */
  predicate Breaks(cfg: Config, c: ToolCall, r: ToolResult) {
    r.changedFiles != [] && (!c.recorded || (cfg.hasVerifier && c.verification.Refused?))
  }

  /** The call was a passed validation command that shows the diff. */
  predicate ValidationShowsDiff(c: ToolCall, r: ToolResult) {
    ValidationOf(c).Some? && !r.isError && ValidationOf(c).value.gitDiff
  }

  /** Before that, the call has inspected the diff itself. */
  predicate InspectsItself(cfg: Config, c: ToolCall, r: ToolResult) {
    || ValidationShowsDiff(c, r)
    || (c.recorded && ShowsEditDiff(cfg, r))
  }

  /** The guard that fails: a successful, uninspected edit on an inspected state in a call that breaks off. */
  predicate LosesEdit(cfg: Config, s: State, c: ToolCall) {
    && Answers(cfg, s, c) && s.inspected
    && !c.outcome.result.isError && Breaks(cfg, c, c.outcome.result) && !InspectsItself(cfg, c, c.outcome.result)
  }

  lemma EditUnreviews(log: seq<ReviewEvent>)
    ensures !Reviewed(log + [Edited(false)])
  {
    var longer := log + [Edited(false)];
    forall i | 0 <= i < |longer| && longer[i] == DiffInspected ensures !NoEditAfter(longer, i) {
      assert i < |log| && longer[|log|] == Edited(false);
    }
  }

  /** The two states agree on inspections, on what the session has, and on failures counted. */
  predicate SameReview(s: State, t: State) {
    && t.review == s.review && t.inspected == s.inspected
    && t.saved == s.saved && t.repeatedFailures == s.repeatedFailures
  }

  lemma ValidationReview(s: State, command: ShellCommand, r: ToolResult)
    ensures SameReview(if !r.isError && command.gitDiff then Inspected(s) else s, BookValidation(s, command, r))
  {
  }

  lemma FilesKeepReview(s: State, r: ToolResult)
    ensures SameReview(s, BookFiles(s, r))
  {
  }

  lemma DiagnosticKeepsReview(s: State, d: Diagnostic)
    ensures SameReview(s, BookDiagnostic(s, d))
  {
  }

  /** The effects of a call inspect the diff once more if it was a passed validation that shows it. */
  lemma EffectsReview(s: State, c: ToolCall, r: ToolResult)
    ensures SameReview(if ValidationShowsDiff(c, r) then Inspected(s) else s, BookEffects(s, c, r))
  {
    var s1 := if ValidationOf(c).Some? then BookValidation(s, ValidationOf(c).value, r) else s;
    if ValidationOf(c).Some? { ValidationReview(s, ValidationOf(c).value, r); }
    FilesKeepReview(s1, r);
    if r.diagnostic.Some? { DiagnosticKeepsReview(BookFiles(s1, r), r.diagnostic.value); }
  }

  lemma EndCallReports(s: State, before: nat, r: ToolResult, repeated: bool, endHooks: EndHooks)
    ensures !BrokeOff(EndCall(s, before, r, repeated, endHooks))
  {
  }

  lemma VerifyBreaks(cfg: Config, s: State, c: ToolCall, r: ToolResult, endHooks: EndHooks)
    requires r.changedFiles != [] && c.recorded
    ensures var p := Verify(cfg, s, c, r, endHooks);
            && (BrokeOff(p) <==> cfg.hasVerifier && c.verification.Refused?)
            && (BrokeOff(p) ==>
                  p.state.saved == s.saved
                  && p.state.review == if ShowsEditDiff(cfg, r) then s.review + [DiffInspected] else s.review)
  {
    var shown := if ShowsEditDiff(cfg, r) then BookEditDiff(cfg, s) else s;
    match RunVerification(cfg, shown, r.changedFiles, c.verification)
    case PolicyDenied =>
    case Checked(next, repeated) => EndCallReports(next, |shown.results|, r, repeated, endHooks);
  }

  lemma BookingBreaks(cfg: Config, s: State, c: ToolCall, r: ToolResult, endHooks: EndHooks)
    requires r.changedFiles != []
    ensures var p := AfterBooking(cfg, s, c, r, endHooks);
            && (BrokeOff(p) <==> Breaks(cfg, c, r))
            && (BrokeOff(p) ==>
                  p.state.saved == s.saved
                  && (Reviewed(p.state.review) <==> Reviewed(s.review) || InspectsItself(cfg, c, r)))
  {
    var effects := BookEffects(s, c, r);
    EffectsReview(s, c, r);
    InspectionReviews(s.review);
    if c.recorded {
      VerifyBreaks(cfg, effects, c, r, endHooks);
      InspectionReviews(effects.review);
    }
  }

  lemma UneditedNeverBreaks(cfg: Config, s: State, c: ToolCall, r: ToolResult, endHooks: EndHooks)
    requires r.changedFiles == []
    ensures !BrokeOff(AfterBooking(cfg, s, c, r, endHooks))
  {
    var effects := BookEffects(s, c, r);
    EndCallReports(effects, |effects.results|, r, false, endHooks);
  }

  lemma BookedReview(s: State, c: ToolCall, r: ToolResult)
    ensures var t := BookResult(NoteEdit(s, r), c, r);
            && t.saved == s.saved
            && t.review == if r.changedFiles != [] then s.review + [Edited(r.isError)] else s.review
  {
  }

  lemma BookedIsReviewed(s: State, c: ToolCall, r: ToolResult)
    requires r.changedFiles != []
    ensures var t := BookResult(NoteEdit(s, r), c, r);
            if r.isError then Reviewed(s.review) ==> Reviewed(t.review) else !Reviewed(t.review)
  {
    BookedReview(s, c, r);
    EditUnreviews(s.review);
    if Reviewed(s.review) { FailedEditKeepsReview(s.review); }
  }

  lemma AnswerBreaks(cfg: Config, s: State, c: ToolCall, r: ToolResult, endHooks: EndHooks)
    requires Honest(s) && (s.saved.inspected ==> s.inspected)
    ensures var p := AfterTool(cfg, s, c, r, endHooks);
            && (BrokeOff(p) ==> Breaks(cfg, c, r))
            && (!r.isError ==> (BrokeOff(p) <==> Breaks(cfg, c, r)))
            && (BrokeOff(p) ==>
                  (SavedHonest(p.state) <==> !s.saved.inspected || r.isError || InspectsItself(cfg, c, r)))
  {
    var booked := BookResult(NoteEdit(s, r), c, r);
    BookedReview(s, c, r);
    if !(r.isError && AtFailureLimit(cfg, booked, ToolSignature(c, r))) {
      assert AfterTool(cfg, s, c, r, endHooks) == AfterBooking(cfg, booked, c, r, endHooks);
      if r.changedFiles == [] {
        UneditedNeverBreaks(cfg, booked, c, r, endHooks);
      } else {
        BookingBreaks(cfg, booked, c, r, endHooks);
        BookedIsReviewed(s, c, r);
      }
    }
  }

  lemma CountedCallBreaks(cfg: Config, s: State, c: ToolCall, endHooks: EndHooks)
    requires Honest(s)
    ensures var p := CountedCall(cfg, s, c, endHooks);
            var answered := CountOf(s.budget.repeatedCalls, CallKeyOf(c)) <= AtLeastOne(cfg.limits.maxRepeatedCalls)
                            && ModeAllows(cfg, c) && c.outcome.ToolDone?;
            && (BrokeOff(p) ==> answered)
            && (answered && !c.outcome.result.isError ==> (BrokeOff(p) <==> Breaks(cfg, c, c.outcome.result)))
            && (BrokeOff(p) ==>
                  (SavedHonest(p.state)
                   <==> !s.inspected || c.outcome.result.isError || InspectsItself(cfg, c, c.outcome.result)))
  {
    if CountOf(s.budget.repeatedCalls, CallKeyOf(c)) <= AtLeastOne(cfg.limits.maxRepeatedCalls) {
      if !ModeAllows(cfg, c) {
        UneditedNeverBreaks(cfg, Saved(s), c, Denied(), endHooks);
      } else if c.outcome.ToolDone? {
        AnswerBreaks(cfg, Issue(Saved(s), Execution(CallKeyOf(c))), c, c.outcome.result, endHooks);
      }
    }
  }

  /** After one call the session's inspection is honest if and only if the call did not lose an edit. */
  lemma CallKeepsSnapshotHonestExactlyWhen(cfg: Config, s: State, c: ToolCall, endHooks: EndHooks)
    requires ValidLimits(cfg) && Ready(cfg, s)
    ensures SavedHonest(ToolStep(cfg, s, c, endHooks).state) <==> !LosesEdit(cfg, s, c)
  {
    var p := ToolStep(cfg, s, c, endHooks);
    ToolStepIsGood(cfg, s, c, endHooks);
    if !BrokeOff(p) { ReportedIsHonest(cfg, s.budget.turns, p); }
    if !c.cancelled && s.budget.toolCalls < cfg.limits.maxToolCalls {
      CountedCallBreaks(cfg, CountCall(s, CallKeyOf(c)), c, endHooks);
    }
  }

  // ----- a run -----

  predicate CallsLoseEdit(cfg: Config, s: State, calls: seq<ToolCall>, endHooks: EndHooks)
    decreases |calls|
  {
    calls != []
    && (LosesEdit(cfg, s, calls[0])
        || match ToolStep(cfg, s, calls[0], endHooks)
           case Running(next) => CallsLoseEdit(cfg, next, calls[1..], endHooks)
           case Stopped(_, _) => false)
  }

  predicate TurnLosesEdit(cfg: Config, s: State, t: Turn) {
    ReachesCalls(cfg, s, t)
    && CallsLoseEdit(cfg, Answer(s, t), t.model.response.calls, t.model.response.endHooks)
  }

  /** Some call of the run loses an edit. */
  predicate RunLosesEdit(cfg: Config, s: State, turns: seq<Turn>)
    decreases |turns|
  {
    turns != []
    && (TurnLosesEdit(cfg, s, turns[0])
        || match TurnStep(cfg, s, turns[0])
           case Running(next) => RunLosesEdit(cfg, next, turns[1..])
           case Stopped(_, _) => false)
  }

  lemma {:induction false} CallsKeepSnapshotHonestExactlyWhen(
    cfg: Config, s: State, calls: seq<ToolCall>, endHooks: EndHooks)
    requires ValidLimits(cfg) && Ready(cfg, s) && calls != []
    ensures SavedHonest(ToolSteps(cfg, s, calls, endHooks).state) <==> !CallsLoseEdit(cfg, s, calls, endHooks)
    decreases |calls|
  {
    CallKeepsSnapshotHonestExactlyWhen(cfg, s, calls[0], endHooks);
    ToolStepIsGood(cfg, s, calls[0], endHooks);
    var p := ToolStep(cfg, s, calls[0], endHooks);
    if p.Running? {
      ReportedIsHonest(cfg, s.budget.turns, p);
      if calls[1..] == [] {
        assert ToolSteps(cfg, p.state, calls[1..], endHooks) == p;
      } else {
        CallsKeepSnapshotHonestExactlyWhen(cfg, p.state, calls[1..], endHooks);
      }
    }
  }

  // ----- turns without calls -----

  /** What the session has of the inspection is what the run has. */
  predicate SameInspection(s: State) { s.saved.inspected == s.inspected }

  lemma AnswerKeepsInspection(s: State, t: Turn)
    requires t.model.Answered?
    ensures var u := PlanFromText(Answer(s, t), t.model.response); SameInspection(u) && u.inspected == s.inspected
    ensures SameInspection(Answer(s, t)) && Answer(s, t).inspected == s.inspected
  {
    AnswerKeepsWork(s, t);
    assert SameInspection(ProviderAnswered(Request(s)));
    assert SameInspection(Replan(ProviderAnswered(Request(s)), t.model.response));
  }

  lemma WaiversKeepInspection(s: State, waivers: seq<string>)
    ensures var t := ApplyWaivers(s, waivers); t.inspected == s.inspected && t.saved == s.saved
  {
    WaiversKeepFiles(s, waivers);
    WaiversAreQuiet(s, waivers);
  }

  /** A final response that breaks off does so before its inspection: nothing was claimed. */
  lemma FinalBreakIsHonest(cfg: Config, s: State, r: Response)
    requires SameInspection(s) && BrokeOff(FinalResponse(cfg, s, r))
    ensures SavedHonest(FinalResponse(cfg, s, r).state)
  {
    var planned := PlanFromText(s, r);
    var answered := PlanAnswer(cfg, planned, r);
    var waived := ApplyWaivers(answered, r.waivers);
    WaiversKeepInspection(answered, r.waivers);
    assert FinalResponse(cfg, s, r) == Complete(cfg, planned, r);
    GateReports(cfg, waived, r.endHooks);
    if Uninspected(cfg, waived) && cfg.gitAvailable && cfg.hasVerifier {
      match RunVerification(cfg, waived, waived.changed, r.finalCheck)
      case PolicyDenied =>
      case Checked(next, _) => GateReports(cfg, Judged(next, |waived.results|), r.endHooks);
    }
  }

  lemma GateReports(cfg: Config, s: State, endHooks: EndHooks)
    ensures !BrokeOff(Gate(cfg, s, endHooks))
  {
  }

  lemma TurnKeepsSnapshotHonestExactlyWhen(cfg: Config, s: State, t: Turn)
    requires ValidLimits(cfg) && Live(cfg, s) && Current(s)
    ensures SavedHonest(TurnStep(cfg, s, t).state) <==> !TurnLosesEdit(cfg, s, t)
  {
    var p := TurnStep(cfg, s, t);
    TurnIsGood(cfg, s, t);
    if ReachesCalls(cfg, s, t) {
      CallsTurn(cfg, s, t);
      RequestKeepsLive(cfg, s);
      AbsorbKeepsLive(cfg, Request(s), t.model.response);
      CallsKeepSnapshotHonestExactlyWhen(cfg, Answer(s, t), t.model.response.calls, t.model.response.endHooks);
    } else if BrokeOff(p) {
      BreaksWithoutCalls(cfg, s, t);
    } else {
      ReportedIsHonest(cfg, s.budget.turns + 1, p);
    }
  }

  lemma BreaksWithoutCalls(cfg: Config, s: State, t: Turn)
    requires Honest(s) && Current(s) && !ReachesCalls(cfg, s, t) && BrokeOff(TurnStep(cfg, s, t))
    ensures SavedHonest(TurnStep(cfg, s, t).state)
  {
    if t.prepared && t.model.Answered? {
      var r := t.model.response;
      AnswerKeepsInspection(s, t);
      assert TurnStep(cfg, s, t) == FinalResponse(cfg, Answer(s, t), r);
      FinalBreakIsHonest(cfg, Answer(s, t), r);
    }
  }

  lemma {:induction false} RunKeepsSnapshotHonestExactlyWhen(cfg: Config, s: State, turns: seq<Turn>)
    requires ValidLimits(cfg) && Live(cfg, s) && Current(s)
    ensures SavedHonest(RunFrom(cfg, s, turns).state) <==> !RunLosesEdit(cfg, s, turns)
    decreases |turns|
  {
    if turns != [] {
      TurnKeepsSnapshotHonestExactlyWhen(cfg, s, turns[0]);
      TurnIsGood(cfg, s, turns[0]);
      var p := TurnStep(cfg, s, turns[0]);
      if p.Running? {
        ReportedIsHonest(cfg, s.budget.turns + 1, p);
        RunKeepsSnapshotHonestExactlyWhen(cfg, p.state, turns[1..]);
      }
    }
  }

  /**
   Main result on storage: what a run leaves behind is a valid start for the next run if and only if no
   call of it lost an edit.
   */
  lemma RunLeavesValidStartExactlyWhen(stored: Stored, session: Session)
    requires ValidLimits(session.cfg) && ValidStored(stored)
    ensures ValidStored(StoredAfter(stored, session))
            <==> !RunLosesEdit(session.cfg, Start(session.cfg, stored), session.turns)
  {
    StartIsLive(session.cfg, stored);
    RunKeepsSnapshotHonestExactlyWhen(session.cfg, Start(session.cfg, stored), session.turns);
    SessionFits(stored, session);
  }

  // ----- chains of runs -----

  function StoredAfterAll(stored: Stored, sessions: seq<Session>): Stored
    decreases |sessions|
  {
    if sessions == [] then stored else StoredAfterAll(StoredAfter(stored, sessions[0]), sessions[1..])
  }

  /** Each run lists its errors as reported, and none loses an edit. */
  ghost predicate KeepsEdits(stored: Stored, sessions: seq<Session>)
    decreases |sessions|
  {
    sessions != [] ==>
      && ValidLimits(sessions[0].cfg) && ListsErrors(stored, sessions[0])
      && !RunLosesEdit(sessions[0].cfg, Start(sessions[0].cfg, stored), sessions[0].turns)
      && KeepsEdits(StoredAfter(stored, sessions[0]), sessions[1..])
  }

  /** Over a chain of such runs the stored state stays valid, so the results on runs hold for the next one. */
  lemma {:induction false} SessionsKeepValid(stored: Stored, sessions: seq<Session>)
    requires ValidStored(stored) && KeepsEdits(stored, sessions)
    ensures ValidStored(StoredAfterAll(stored, sessions))
    decreases |sessions|
  {
    if sessions != [] {
      RunLeavesValidStartExactlyWhen(stored, sessions[0]);
      SessionsKeepValid(StoredAfter(stored, sessions[0]), sessions[1..]);
    }
  }

  // ----- an edit that is lost -----

  lemma LosingCallEnds(cfg: Config, s: State, c: ToolCall, endHooks: EndHooks)
    requires Honest(s) && LosesEdit(cfg, s, c)
    ensures var p := ToolStep(cfg, s, c, endHooks);
            BrokeOff(p) && p.state.saved == SnapshotOf(s) && !SavedHonest(p.state)
  {
    var r := c.outcome.result;
    var counted := CountCall(s, CallKeyOf(c));
    var executed := Issue(Saved(counted), Execution(CallKeyOf(c)));
    assert executed.saved == SnapshotOf(s);
    AnswerBreaks(cfg, executed, c, r, endHooks);
    BookedReview(executed, c, r);
    BookingBreaks(cfg, BookResult(NoteEdit(executed, r), c, r), c, r, endHooks);
    assert ToolStep(cfg, s, c, endHooks) == AfterTool(cfg, executed, c, r, endHooks);
  }

  lemma AnswerKeepsListing(s: State, t: Turn)
    requires t.model.Answered? && Provider !in s.errors
    ensures Answer(s, t).listing == s.listing && Answer(s, t).changed == s.changed
  {
    AnswerKeepsWork(s, t);
    assert ProviderAnswered(Request(s)).listing == s.listing;
    assert Replan(ProviderAnswered(Request(s)), t.model.response).listing == s.listing;
  }

  lemma NothingRendered(lines: seq<string>, keys: seq<Key>)
    requires RendersListing(lines, keys, NOTHING_LISTED)
    ensures lines == []
  {
    assert multiset(keys) == multiset{};
    assert |keys| == |multiset(keys)|;
  }

  lemma CleanStart(cfg: Config, stored: Stored)
    requires stored.errors == []
    ensures Start(cfg, stored).errors == map[] && Start(cfg, stored).listing == NOTHING_LISTED
  {
    assert AsLines([]) == [];
  }

  /** The one call of the turn loses its edit on a start without errors. */
  predicate LosesItsEdit(cfg: Config, start: State, t: Turn, edit: ToolCall) {
    ReachesCalls(cfg, start, t) && t.model.response.calls == [edit] && LosesEdit(cfg, Answer(start, t), edit)
  }

  lemma LosingTurn(cfg: Config, start: State, t: Turn, edit: ToolCall)
    requires LosesItsEdit(cfg, start, t, edit) && Honest(start) && start.errors == map[]
    ensures var end := TurnStep(cfg, start, t).state;
            && end.saved.listing == start.listing && end.saved.changed == start.changed && end.saved.inspected
            && !Reviewed(end.review)
  {
    var s := Answer(start, t);
    CallsTurn(cfg, start, t);
    OneCall(cfg, s, edit, t.model.response.endHooks);
    AnswerKeepsInspection(start, t);
    AnswerKeepsWork(start, t);
    AnswerKeepsListing(start, t);
    LosingCallEnds(cfg, s, edit, t.model.response.endHooks);
  }

  /** What is stored of a run whose one call loses its edit: the state before the call, and a longer history. */
  lemma LosingRunLeaves(stored: Stored, session: Session, t: Turn, edit: ToolCall)
    requires ValidStored(stored) && stored.errors == [] && ListsErrors(stored, session)
    requires session.turns == [t] && LosesItsEdit(session.cfg, Start(session.cfg, stored), t, edit)
    ensures var after := StoredAfter(stored, session);
            after.errors == [] && after.changed == stored.changed && after.inspected && !Reviewed(after.review)
  {
    OneTurnSession(stored, session, t);
    CleanStart(session.cfg, stored);
    LosingTurn(session.cfg, Start(session.cfg, stored), t, edit);
    NothingRendered(session.listed, session.keys);
  }

  lemma BareAnswerTurn(cfg: Config, s: State, t: Turn)
    requires Bounded(s) && s.errors == map[] && s.inspected && PlainAnswer(t) && InTime(cfg, s, t)
    ensures var p := TurnStep(cfg, s, t);
            IsDone(p) && p.state.changed == s.changed && p.state.review == s.review
  {
    assert s.errors - {Provider} == map[] && !Uninspected(cfg, s);
    PlainAnswerCompletesExactlyWhen(cfg, s, t);
    PlainAnswerRelists(cfg, s, t);
  }

  lemma BareAnswerIsDone(cfg: Config, stored: Stored, t: Turn)
    requires FitsSession(stored) && stored.errors == [] && stored.inspected
    requires PlainAnswer(t) && InTime(cfg, Start(cfg, stored), t)
    ensures var end := RunFromStart(cfg, stored, [t]);
            IsDone(end) && end.state.changed == stored.changed && end.state.review == stored.review
  {
    CleanStart(cfg, stored);
    BareAnswerTurn(cfg, Start(cfg, stored), t);
    OneTurn(cfg, Start(cfg, stored), t);
  }

  /**
   So after a refused verification Done does not mean that the last successful edit was inspected: one
   run edits a file and is refused its check, the next one just answers.
   */
  lemma LostEditGoesUnreviewed(stored: Stored, session: Session, t: Turn, edit: ToolCall, cfg: Config, answer: Turn)
    requires ValidStored(stored) && stored.errors == [] && stored.changed != [] && ListsErrors(stored, session)
    requires ValidLimits(session.cfg) && session.turns == [t]
    requires LosesItsEdit(session.cfg, Start(session.cfg, stored), t, edit)
    requires PlainAnswer(answer) && InTime(cfg, Start(cfg, StoredAfter(stored, session)), answer)
    ensures var end := RunFromStart(cfg, StoredAfter(stored, session), [answer]);
            IsDone(end) && end.state.changed != [] && !Reviewed(end.state.review)
  {
    LosingRunLeaves(stored, session, t, edit);
    SessionFits(stored, session);
    BareAnswerIsDone(cfg, StoredAfter(stored, session), answer);
  }

}
