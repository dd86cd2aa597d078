/**
 When exactly a final response completes a task, and what a bare answer does to a resumed one: errors
 are stored without their keys when they are listed again, so a later resume forgets them.
 */
module AgentCompletion {
  import opened Wrappers
  import opened AgentMachine
  import opened AgentSafety
  import opened AgentResume
  import opened AgentRuns
  import Plan = ExecutionPlan

  predicate IsDone(p: Progress) { p.Stopped? && p.exit == Ended(Plan.Completion.Done) }

  // ----- the exact condition -----

  lemma {:induction false} ReportsKeepChanged(cfg: Config, s: State, reports: seq<Report>)
    ensures ApplyReports(cfg, s, reports).0.changed == s.changed
    decreases |reports|
  {
    if reports != [] {
      ReportsKeepChanged(cfg, ApplyReport(s, reports[0]), reports[1..]);
    }
  }

  lemma VerificationKeepsChanged(cfg: Config, s: State, changedFiles: seq<string>, v: Verification)
    ensures var r := RunVerification(cfg, s, changedFiles, v); r.Checked? ==> r.state.changed == s.changed
  {
    if v.Reports? { ReportsKeepChanged(cfg, s, v.reports); }
  }

  lemma InspectionCompletesExactlyWhen(cfg: Config, s: State, check: Verification, endHooks: EndHooks)
    requires Bounded(s) && s.listing == Listing(s.errors, [])
    ensures IsDone(InspectAndGate(cfg, s, check, endHooks))
            <==> s.errors == map[] && !Uninspected(cfg, s) && endHooks.Passed?
  {
    if Uninspected(cfg, s) && cfg.gitAvailable && cfg.hasVerifier {
      VerificationIsQuiet(cfg, s, s.changed, check);
      VerificationKeepsChanged(cfg, s, s.changed, check);
      match RunVerification(cfg, s, s.changed, check)
      case PolicyDenied =>
      case Checked(next, _) =>
        var judged := Judged(next, |s.results|);
        if !judged.inspected { GateOpensExactlyWhen(cfg, judged, endHooks); }
    } else {
      GateOpensExactlyWhen(cfg, s, endHooks);
    }
  }

  lemma {:induction false} WaiversKeepFiles(s: State, waivers: seq<string>)
    ensures var t := WaiveAll(s, waivers).0;
            t.changed == s.changed && t.inspected == s.inspected && |t.results| == |s.results|
    decreases |waivers|
  {
    if waivers != [] { WaiversKeepFiles(WaiveOne(s, waivers[0]), waivers[1..]); }
  }

  /**
   Main result: a final response without a directive completes the task if and only if its waivers
   leave no unresolved error, in CODE mode the changed files have already been inspected, and the end
   hooks pass.  Whether any validation has passed since the last edit plays no part.
   */
  lemma CompletesExactlyWhen(cfg: Config, s: State, r: Response)
    requires Bounded(s)
    ensures IsDone(Complete(cfg, s, r))
            <==> ApplyWaivers(s, r.waivers).errors == map[] && !Uninspected(cfg, s) && r.endHooks.Passed?
  {
    var answered := PlanAnswer(cfg, s, r);
    var waived := ApplyWaivers(answered, r.waivers);
    ApplyWaiversIsQuiet(answered, r.waivers);
    WaiversKeepFiles(answered, r.waivers);
    WaiversIgnorePlan(s, answered, r.waivers);
    InspectionCompletesExactlyWhen(cfg, waived, r.finalCheck, r.endHooks);
  }

  lemma {:induction false} WaiversIgnorePlan(s: State, t: State, waivers: seq<string>)
    requires t.errors == s.errors
    ensures WaiveAll(t, waivers).0.errors == WaiveAll(s, waivers).0.errors
    ensures WaiveAll(t, waivers).1 == WaiveAll(s, waivers).1
    decreases |waivers|
  {
    if waivers != [] { WaiversIgnorePlan(WaiveOne(s, waivers[0]), WaiveOne(t, waivers[0]), waivers[1..]); }
  }

  // ----- plain answers -----

  /** A turn in which nothing is interrupted and the model just answers. */
  predicate PlainAnswer(t: Turn) {
    && t.prepared && t.model.Answered? && t.model.response.calls == [] && t.model.response.directive.NoDirective?
    && t.model.response.waivers == [] && t.model.response.endHooks.Passed?
  }

  /** The state in which the response's directive is looked at. */
  function Answer(s: State, t: Turn): State
    requires t.model.Answered?
  {
    Absorb(Request(s), t.model.response)
  }

  /** No limit stops the turn. */
  predicate InTime(cfg: Config, s: State, t: Turn)
    requires t.model.Answered?
  {
    && LimitReached(cfg, s.budget, t.cancelledBefore, t.expiredBefore).None?
    && LimitReached(cfg, Answer(s, t).budget, t.cancelledAfter, t.expiredAfter).None?
  }

  predicate SameWork(s: State, t: State) {
    && t.errors == s.errors && t.changed == s.changed && t.inspected == s.inspected && t.results == s.results
    && t.review == s.review
  }

  lemma PlanStepKeepsWork(s: State, op: Plan.Op, changed: bool)
    ensures SameWork(s, PlanStep(s, op)) && SameWork(s, ReportedIf(PlanStep(s, op), changed))
  {
  }

  lemma ReplanKeepsWork(s: State, r: Response)
    ensures SameWork(s, Replan(s, r)) && SameWork(s, PlanFromText(s, r))
  {
    if r.revision.Some? { PlanStepKeepsWork(s, Plan.ReviseOp(r.revision.value.0, r.revision.value.1), r.planChanged); }
    if r.planText.Some? {
      PlanStepKeepsWork(s, Plan.Create(r.planText.value.0, r.planText.value.1), r.planChanged);
    }
  }

  lemma SpendKeepsWork(s: State, r: Response)
    ensures SameWork(s, Spend(s, r))
  {
  }

  lemma RequestKeepsWork(s: State)
    ensures SameWork(s, Request(s))
  {
  }

  lemma AnswerKeepsWork(s: State, t: Turn)
    requires t.model.Answered?
    ensures SameWork(WithoutError(s, Provider), PlanFromText(Answer(s, t), t.model.response))
  {
    var r := t.model.response;
    var requested := Request(s);
    var answered := ProviderAnswered(requested);
    var replanned := Replan(answered, r);
    RequestKeepsWork(s);
    assert SameWork(WithoutError(s, Provider), answered);
    ReplanKeepsWork(answered, r);
    SpendKeepsWork(replanned, r);
    ReplanKeepsWork(Spend(replanned, r), r);
  }

  lemma PlainAnswerTurn(cfg: Config, s: State, t: Turn)
    requires PlainAnswer(t) && InTime(cfg, s, t)
    ensures TurnStep(cfg, s, t) == Complete(cfg, PlanFromText(Answer(s, t), t.model.response), t.model.response)
  {
  }

  lemma PlainAnswerCompletesExactlyWhen(cfg: Config, s: State, t: Turn)
    requires Bounded(s) && PlainAnswer(t) && InTime(cfg, s, t)
    ensures IsDone(TurnStep(cfg, s, t)) <==> s.errors - {Provider} == map[] && !Uninspected(cfg, s)
  {
    var planned := PlanFromText(Answer(s, t), t.model.response);
    AnswerKeepsWork(s, t);
    CompletesExactlyWhen(cfg, planned, t.model.response);
    PlainAnswerTurn(cfg, s, t);
    NoWaivers(planned);
  }

  lemma NoWaivers(s: State)
    ensures ApplyWaivers(s, []).errors == s.errors
  {
  }

  lemma OneTurn(cfg: Config, s: State, t: Turn)
    ensures RunFrom(cfg, s, [t]) == TurnStep(cfg, s, t)
  {
  }

  lemma OnlyKey(errors: Errors, key: Key)
    ensures errors - {key} == map[] <==> errors.Keys <= {key}
  {
    if errors - {key} == map[] {
      forall k | k in errors && k != key ensures k in errors - {key} {}
    }
  }

  /** Nothing stands uninspected in what the session has. */
  predicate NothingUninspected(cfg: Config, stored: Stored) {
    cfg.mode != Code || stored.changed == [] || stored.inspected
  }

  /**
   A resumed task in which nothing is left uninspected is completed by a bare answer, without any
   work, if and only if no stored error line is read back under a key other than the provider's.
   */
  lemma BareAnswerCompletesResumedTaskExactlyWhen(cfg: Config, stored: Stored, t: Turn)
    requires ValidStored(stored) && NothingUninspected(cfg, stored)
    requires PlainAnswer(t) && InTime(cfg, Start(cfg, stored), t)
    ensures IsDone(RunFromStart(cfg, stored, [t]))
            <==> ReadErrors(stored.errors).Keys <= {Provider}
  {
    var s := Start(cfg, stored);
    PlainAnswerCompletesExactlyWhen(cfg, s, t);
    OnlyKey(s.errors, Provider);
    OneTurn(cfg, s, t);
  }

  // ----- turns that call tools -----

  /** A turn whose response gets as far as its tool calls. */
  predicate ReachesCalls(cfg: Config, s: State, t: Turn) {
    && t.prepared && t.model.Answered? && t.model.response.calls != []
    && InTime(cfg, s, t) && Answer(s, t).budget.turns < cfg.limits.maxTurns
  }

  lemma CallsTurn(cfg: Config, s: State, t: Turn)
    requires ReachesCalls(cfg, s, t)
    ensures TurnStep(cfg, s, t) == ToolSteps(cfg, Answer(s, t), t.model.response.calls, t.model.response.endHooks)
  {
  }

  lemma OneCall(cfg: Config, s: State, c: ToolCall, endHooks: EndHooks)
    ensures ToolSteps(cfg, s, [c], endHooks) == ToolStep(cfg, s, c, endHooks)
  {
    var p := ToolStep(cfg, s, c, endHooks);
    assert [c][1..] == [];
    if p.Running? { assert ToolSteps(cfg, p.state, [], endHooks) == p; }
  }

  // ----- three runs of one task -----

  /** What the gate leaves behind when nothing is uninspected: the listed errors, reported. */
  lemma GateRelists(cfg: Config, s: State)
    requires s.listing == Listing(s.errors, []) && !Uninspected(cfg, s)
    ensures var end := Gate(cfg, s, Passed).state;
            end.saved.listing == Listing(s.errors, []) && end.review == s.review && end.changed == s.changed
            && end.saved.changed == s.changed && end.saved.inspected == s.inspected
  {
    assert Obstacles(cfg, s) == s;
  }

  lemma CompleteRelists(cfg: Config, s: State, r: Response)
    requires !Uninspected(cfg, s) && r.waivers == [] && r.endHooks.Passed?
    ensures var end := Complete(cfg, s, r).state;
            end.saved.listing == Listing(s.errors, []) && end.review == s.review && end.changed == s.changed
            && end.saved.changed == s.changed && end.saved.inspected == s.inspected
  {
    var waived := ApplyWaivers(PlanAnswer(cfg, s, r), []);
    assert waived.listing == Listing(s.errors, []) && waived.errors == s.errors && SameWork(s, waived);
    GateRelists(cfg, waived);
    assert Complete(cfg, s, r) == Gate(cfg, waived, Passed);
  }

  /** A bare answer lists the map again, whether or not it completes the task. */
  lemma PlainAnswerRelists(cfg: Config, s: State, t: Turn)
    requires PlainAnswer(t) && InTime(cfg, s, t) && !Uninspected(cfg, s)
    ensures var end := TurnStep(cfg, s, t).state;
            && end.saved.listing == Listing(s.errors - {Provider}, [])
            && end.review == s.review && end.changed == s.changed
            && end.saved.changed == s.changed && end.saved.inspected == s.inspected
  {
    AnswerKeepsWork(s, t);
    PlainAnswerTurn(cfg, s, t);
    CompleteRelists(cfg, PlanFromText(Answer(s, t), t.model.response), t.model.response);
  }

  lemma OneTurnSession(stored: Stored, session: Session, t: Turn)
    requires session.turns == [t]
    ensures EndOf(stored, session) == TurnStep(session.cfg, Start(session.cfg, stored), t).state
    ensures RunFromStart(session.cfg, stored, [t]) == TurnStep(session.cfg, Start(session.cfg, stored), t)
  {
    OneTurn(session.cfg, Start(session.cfg, stored), t);
  }

  /** The second run finds every error of the first, does not complete the task, and lists the bare messages. */
  lemma SecondRunStillRefuses(stored: Stored, second: Session, t: Turn, keys: seq<Key>, errors: Errors)
    requires ValidStored(stored) && NothingUninspected(second.cfg, stored)
    requires RendersListing(stored.errors, keys, Listing(errors, []))
    requires forall key :: key in errors ==> Fresh(key, errors[key])
    requires second.turns == [t] && PlainAnswer(t) && InTime(second.cfg, Start(second.cfg, stored), t)
    ensures var left := errors - {Guard} - {Provider};
            && EndOf(stored, second).saved.listing == Listing(ReadBack(left), [])
            && (left != map[] ==> !IsDone(RunFromStart(second.cfg, stored, [t])))
            && StoredAfter(stored, second).changed == stored.changed
            && StoredAfter(stored, second).inspected == stored.inspected
            && StoredAfter(stored, second).review == stored.review
  {
    var s := Start(second.cfg, stored);
    ErrorsAtTheSecondStart(second.cfg, stored, keys, errors);
    OneTurnSession(stored, second, t);
    PlainAnswerRelists(second.cfg, s, t);
    PlainAnswerCompletesExactlyWhen(second.cfg, s, t);
  }

  lemma ErrorsAtTheSecondStart(cfg: Config, stored: Stored, keys: seq<Key>, errors: Errors)
    requires RendersListing(stored.errors, keys, Listing(errors, []))
    requires forall key :: key in errors ==> Fresh(key, errors[key])
    ensures var left := errors - {Guard} - {Provider};
            && Start(cfg, stored).errors - {Provider} == ReadBack(left)
            && (left != map[] ==> ReadBack(left) != map[])
  {
    var left := errors - {Guard} - {Provider};
    assert stored.errors[..|keys|] == stored.errors;
    FirstResumeKeepsEveryKey(stored.errors, keys, errors);
    ReadBackWithout(errors, Guard, Provider);
    NothingReadBack(left);
  }

  /**
   Main result on resuming: a first run ends with errors; a second one answers and is refused because of
   them; a third one gives the same bare answer and is Done, when no message has a separator in it.
   */
  lemma ErrorsForgottenByTheThirdRun(stored: Stored, first: Session, second: Session, cfg: Config,
                                     answer: Turn, again: Turn, errors: Errors)
    requires ValidStored(StoredAfter(stored, first)) && ListsErrors(stored, first)
    requires EndOf(stored, first).saved.listing == Listing(errors, [])
    requires forall key :: key in errors ==> Fresh(key, errors[key])
    requires var s1 := StoredAfter(stored, first);
             && ListsErrors(s1, second) && NothingUninspected(second.cfg, s1) && NothingUninspected(cfg, s1)
             && second.turns == [answer] && PlainAnswer(answer) && InTime(second.cfg, Start(second.cfg, s1), answer)
             && ValidLimits(second.cfg)
             && PlainAnswer(again) && InTime(cfg, Start(cfg, StoredAfter(s1, second)), again)
    ensures var s1 := StoredAfter(stored, first);
            var s2 := StoredAfter(s1, second);
            var left := errors - {Guard} - {Provider};
            && (left != map[] ==> !IsDone(RunFromStart(second.cfg, s1, [answer])))
            && ((forall key :: key in left ==> Lost(MessageOf(errors[key]))) ==>
                  IsDone(RunFromStart(cfg, s2, [again])))
  {
    var s1 := StoredAfter(stored, first);
    var s2 := StoredAfter(s1, second);
    var left := errors - {Guard} - {Provider};
    SecondRunStillRefuses(s1, second, answer, first.keys, errors);
    if forall key :: key in left ==> Lost(MessageOf(errors[key])) {
      assert second.listed[..|second.keys|] == second.listed;
      SecondResumeForgetsExactlyWhen(second.listed, second.keys, left);
      SessionFits(s1, second);
      BareAnswerCompletesResumedTaskExactlyWhen(cfg, s2, again);
    }
  }

}
