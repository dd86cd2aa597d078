/**
 Whole runs of the agent loop, from what a session has stored: what Done means, where every
 resource stops, and that every run ends.
 */
module AgentRuns {
  import opened Wrappers
  import opened AgentMachine
  import opened AgentSafety
  import opened AgentResume
  import Plan = ExecutionPlan

  /** The stored task run fits its windows, its plan began sound, and a planning answer was installed at most once. */
  ghost predicate FitsSession(stored: Stored) {
    && |stored.results| <= WINDOW && |stored.changed| <= WINDOW
    && Plan.Inv(stored.origin) && PlanOnce(stored.planOps, stored.structured)
  }

  /** And an inspection it claims was made after the last edit that was not an error. */
  ghost predicate ValidStored(stored: Stored) {
    FitsSession(stored) && (stored.inspected ==> Reviewed(stored.review))
  }

  function RunFromStart(cfg: Config, stored: Stored, turns: seq<Turn>): Progress {
    RunFrom(cfg, Start(cfg, stored), turns)
  }

  /** The execution plan a state stands for. */
  function PlanOf(stored: Stored, s: State): Plan.State { Plan.Run(stored.origin, s.planOps) }

  lemma StartIsLive(cfg: Config, stored: Stored)
    requires ValidStored(stored)
    ensures Live(cfg, Start(cfg, stored)) && Current(Start(cfg, stored))
  {
    Plan.InstallsInTurn(stored.planOps, StartOps(stored));
    Plan.NoInstalls(StartOps(stored));
  }

  lemma {:induction false} RunOfAppended(s: Plan.State, ops: seq<Plan.Op>, op: Plan.Op)
    ensures Plan.Run(s, ops + [op]) == Plan.Step(Plan.Run(s, ops), op)
    decreases |ops|
  {
    if ops == [] {
      assert [op][1..] == [];
    } else {
      assert (ops + [op])[1..] == ops[1..] + [op];
      RunOfAppended(Plan.Step(s, ops[0]), ops[1..], op);
    }
  }

  /** Finishing Done completes the plan and every milestone of it. */
  ghost predicate PlanDone(after: Plan.State) {
    && after.completion == Plan.Completion.Done
    && after.current == None
    && (after.plan.Some? ==>
          && after.plan.value.status == Plan.Completed
          && forall i :: 0 <= i < |after.plan.value.milestones| ==>
               after.plan.value.milestones[i].status == Plan.Completed)
  }

  lemma DoneCompletesPlan(before: Plan.State)
    requires Plan.Inv(before)
    ensures PlanDone(Plan.Step(before, Plan.FinishOp(Plan.Completion.Done)))
  {
  }

  lemma PlanAfterDone(plan: Plan.State, ops: seq<Plan.Op>)
    requires Plan.Inv(plan) && ops != [] && ops[|ops| - 1] == Plan.FinishOp(Plan.Completion.Done)
    ensures PlanDone(Plan.Run(plan, ops))
  {
    var n := |ops| - 1;
    assert ops == ops[..n] + [ops[n]];
    RunOfAppended(plan, ops[..n], ops[n]);
    Plan.RunKeepsInv(plan, ops[..n]);
    DoneCompletesPlan(Plan.Run(plan, ops[..n]));
  }

  /**
   Main result: whatever the model, the tools, the verifier and the hooks do, a run that ends Done
   has no unresolved error and an empty error list; in CODE mode with changed files a diff inspection
   stands at or after the last edit that was not an error; and the execution plan is completed.
   */
  lemma DoneMeansDone(cfg: Config, stored: Stored, turns: seq<Turn>)
    requires ValidLimits(cfg) && ValidStored(stored)
    requires RunFromStart(cfg, stored, turns).Stopped?
    requires RunFromStart(cfg, stored, turns).exit == Ended(Plan.Completion.Done)
    ensures var s := RunFromStart(cfg, stored, turns).state;
            && s.errors == map[] && s.listing == NOTHING_LISTED
            && (cfg.mode == Code && s.changed != [] ==> Reviewed(s.review))
            && PlanDone(PlanOf(stored, s))
  {
    StartIsLive(cfg, stored);
    RunIsGood(cfg, Start(cfg, stored), turns);
    PlanAfterDone(stored.origin, RunFromStart(cfg, stored, turns).state.planOps);
  }

  /**
   Main result: every state of every run keeps its resources under their ceilings, and a run that
   returns an outcome has its turns, tokens and known cost within their limits.
   */
  lemma ResourcesStayBounded(cfg: Config, stored: Stored, turns: seq<Turn>)
    requires ValidLimits(cfg) && ValidStored(stored)
    ensures var p := RunFromStart(cfg, stored, turns);
            && p.state.budget.issued[ModelRequest] <= cfg.limits.maxTurns + 1
            && Executions(p.state.budget) <= p.state.budget.toolCalls <= cfg.limits.maxToolCalls
            && (forall key :: p.state.budget.issued[Execution(key)] <= MaxExecutions(cfg))
            && (forall sig: Signature :: sig.ToolFailure? ==> p.state.counted[sig] <= MaxFailures(cfg))
            && |p.state.results| <= WINDOW && |p.state.changed| <= WINDOW
            && (p.Stopped? && p.exit.Ended? ==> WithinLimits(cfg, p.state.budget))
  {
    StartIsLive(cfg, stored);
    RunIsGood(cfg, Start(cfg, stored), turns);
  }

  /** Main result: a run ends within maxTurns + 1 passes of the loop. */
  lemma EveryRunEnds(cfg: Config, stored: Stored, turns: seq<Turn>)
    requires ValidLimits(cfg) && ValidStored(stored) && |turns| > cfg.limits.maxTurns
    ensures RunFromStart(cfg, stored, turns).Stopped?
  {
    StartIsLive(cfg, stored);
    RunIsGood(cfg, Start(cfg, stored), turns);
  }

  /** The plan of every state of every run is the plan machine's own run, so it keeps its invariant. */
  lemma PlanStaysSound(cfg: Config, stored: Stored, turns: seq<Turn>)
    requires ValidStored(stored)
    ensures Plan.Inv(PlanOf(stored, RunFromStart(cfg, stored, turns).state))
  {
    Plan.RunKeepsInv(stored.origin, RunFromStart(cfg, stored, turns).state.planOps);
  }

  // ----- what a run leaves behind -----

  /** A run of a task, and the error list stored after it with the keys of its first entries. */
  datatype Session = Session(cfg: Config, turns: seq<Turn>, keys: seq<Key>, listed: seq<string>)

  function EndOf(stored: Stored, session: Session): State {
    RunFromStart(session.cfg, stored, session.turns).state
  }

  /** The stored list is the one the run reported last. */
  ghost predicate ListsErrors(stored: Stored, session: Session) {
    RendersListing(session.listed, session.keys, EndOf(stored, session).saved.listing)
  }

  /** The session keeps the task run as last reported; what happened to the files is history. */
  function StoredAfter(stored: Stored, session: Session): Stored {
    var s := EndOf(stored, session);
    Stored.Stored(session.listed, s.saved.changed, s.saved.results, s.saved.inspected, s.review,
                  s.saved.structured, stored.source, stored.origin, s.saved.planOps)
  }

  lemma SessionFits(stored: Stored, session: Session)
    requires ValidLimits(session.cfg) && ValidStored(stored)
    ensures FitsSession(StoredAfter(stored, session))
  {
    StartIsLive(session.cfg, stored);
    RunIsGood(session.cfg, Start(session.cfg, stored), session.turns);
  }

  /**
   Over the whole history of a task, three revisions are accepted at most for the first plan and three
   for the one a planning answer installs.
   */
  lemma AtMostSixRevisionsOfOneTask(cfg: Config, stored: Stored, turns: seq<Turn>)
    requires ValidLimits(cfg) && ValidStored(stored)
    ensures Plan.AcceptedRevisions(stored.origin, RunFromStart(cfg, stored, turns).state.planOps)
            <= 2 * Plan.MAX_PLAN_REVISIONS
  {
    StartIsLive(cfg, stored);
    RunIsGood(cfg, Start(cfg, stored), turns);
    Plan.AtMostThreeRevisionsPerInstall(stored.origin, RunFromStart(cfg, stored, turns).state.planOps);
  }

}
