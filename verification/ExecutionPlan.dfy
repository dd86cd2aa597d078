/**
 The execution-plan machine (crates/harness-agent/src/lib.rs): creating a plan from its steps,
 advancing it, recording progress, finishing and revising it, and the runs these make.
 */
module ExecutionPlan {
  import opened Wrappers
  import opened Text

  datatype Status = Pending | InProgress | Completed | Blocked

  datatype Task = Task(description: string, status: Status)

  datatype Milestone = Milestone(
    title: string, tasks: seq<Task>, architecture: seq<string>, validation: seq<string>,
    criteria: seq<string>, status: Status)

  datatype Plan = Plan(revision: nat, milestones: seq<Milestone>, notes: seq<string>, status: Status)

  datatype Completion = Working | Done | Stuck | UserInputRequired | ResourceLimitReached | Cancelled

  const MAX_STEPS: nat := 32
  const CHUNK: nat := 4
  const MAX_PLAN_REVISIONS: nat := 3

  // ----- searching -----

  /** The index of the first task with the status, or the number of tasks. */
  function FirstTask(tasks: seq<Task>, status: Status): (i: nat)
    ensures i <= |tasks|
    ensures i < |tasks| ==> tasks[i].status == status
    ensures forall k :: 0 <= k < i ==> tasks[k].status != status
    decreases |tasks|
  {
    if tasks == [] || tasks[0].status == status then 0 else 1 + FirstTask(tasks[1..], status)
  }

  /** The index of the first milestone that is not Completed, or the number of milestones. */
  function FirstOpen(ms: seq<Milestone>): (i: nat)
    ensures i <= |ms|
    ensures i < |ms| ==> ms[i].status != Completed
    ensures forall k :: 0 <= k < i ==> ms[k].status == Completed
    decreases |ms|
  {
    if ms == [] || ms[0].status != Completed then 0 else 1 + FirstOpen(ms[1..])
  }

  function CurrentTitle(plan: Option<Plan>): Option<string> {
    match plan
    case None => None
    case Some(p) =>
      if FirstOpen(p.milestones) < |p.milestones| then Some(p.milestones[FirstOpen(p.milestones)].title)
      else None
  }

  /** Gives the first task with status `from` the status `to`. */
  function SetFirst(tasks: seq<Task>, from: Status, to: Status): (r: seq<Task>)
    ensures |r| == |tasks|
  {
    var i := FirstTask(tasks, from);
    if i < |tasks| then tasks[i := tasks[i].(status := to)] else tasks
  }

  predicate HasTask(tasks: seq<Task>, status: Status) {
    FirstTask(tasks, status) < |tasks|
  }

  // ----- the four operations on a plan -----

  function AdvanceMilestone(m: Milestone): Milestone {
    m.(status := InProgress, tasks := SetFirst(m.tasks, Pending, InProgress))
  }

  function Advance(plan: Plan): Plan {
    var i := FirstOpen(plan.milestones);
    Plan(plan.revision,
         if i < |plan.milestones| then plan.milestones[i := AdvanceMilestone(plan.milestones[i])]
         else plan.milestones,
         plan.notes, InProgress)
  }

  function ProgressMilestone(m: Milestone): Milestone {
    var tasks := SetFirst(m.tasks, InProgress, Completed);
    if HasTask(tasks, Pending) then m.(tasks := SetFirst(tasks, Pending, InProgress))
    else m.(tasks := tasks, status := Completed)
  }

  function Progress(plan: Plan): Plan {
    var i := FirstOpen(plan.milestones);
    if i == |plan.milestones| then plan
    else
      var ms := plan.milestones[i := ProgressMilestone(plan.milestones[i])];
      Plan(plan.revision, ms, plan.notes, if FirstOpen(ms) == |ms| then Completed else plan.status)
  }

  function CompleteTasks(tasks: seq<Task>): (r: seq<Task>)
    ensures |r| == |tasks|
    ensures forall i :: 0 <= i < |r| ==> r[i] == Task(tasks[i].description, Completed)
  {
    seq(|tasks|, i requires 0 <= i < |tasks| => tasks[i].(status := Completed))
  }

  function CompleteAll(ms: seq<Milestone>): (r: seq<Milestone>)
    ensures |r| == |ms|
    ensures forall i :: 0 <= i < |r| ==> r[i] == ms[i].(status := Completed, tasks := CompleteTasks(ms[i].tasks))
  {
    seq(|ms|, i requires 0 <= i < |ms| => ms[i].(status := Completed, tasks := CompleteTasks(ms[i].tasks)))
  }

  function BlockMilestone(m: Milestone): Milestone {
    m.(status := Blocked, tasks := SetFirst(m.tasks, InProgress, Blocked))
  }

  function Finish(plan: Plan, completion: Completion): Plan {
    match completion
    case Done => plan.(milestones := CompleteAll(plan.milestones), status := Completed)
    case Stuck | UserInputRequired | ResourceLimitReached =>
      var i := FirstOpen(plan.milestones);
      Plan(plan.revision,
           if i < |plan.milestones| then plan.milestones[i := BlockMilestone(plan.milestones[i])]
           else plan.milestones,
           plan.notes, Blocked)
    case Working | Cancelled => plan
  }

  // ----- creating and revising -----

  function PendingTasks(steps: seq<string>): (r: seq<Task>)
    ensures |r| == |steps|
    ensures forall i :: 0 <= i < |r| ==> r[i] == Task(steps[i], Pending)
  {
    seq(|steps|, i requires 0 <= i < |steps| => Task(steps[i], Pending))
  }

  /** What an implementation plan contributes to every milestone. */
  datatype Context = Context(
    architecture: seq<string>, validation: seq<string>, criteria: seq<string>, risks: seq<string>)

  function FreshMilestone(tasks: seq<Task>, index: nat, total: nat, context: Context): Milestone
    requires tasks != []
  {
    Milestone(
      if total <= CHUNK then "Implementation"
      else "Milestone " + Decimal(index + 1) + " \U{B7} " + BoundedSummary(tasks[0].description),
      tasks, context.architecture, context.validation, context.criteria, Pending)
  }

  /** One milestone per chunk of four tasks, the last one possibly shorter. */
  function Chunks(tasks: seq<Task>, index: nat, total: nat, context: Context): seq<Milestone>
    decreases |tasks|
  {
    if tasks == [] then []
    else if |tasks| <= CHUNK then [FreshMilestone(tasks, index, total, context)]
    else [FreshMilestone(tasks[..CHUNK], index, total, context)] + Chunks(tasks[CHUNK..], index + 1, total, context)
  }

  function NonBlank(steps: seq<string>): seq<string>
    decreases |steps|
  {
    if steps == [] then []
    else (if IsBlank(steps[0]) then [] else [steps[0]]) + NonBlank(steps[1..])
  }

  /** The steps that become tasks: the first 32 that are not blank. */
  function TakenSteps(steps: seq<string>): seq<string> {
    var kept := NonBlank(steps);
    if |kept| <= MAX_STEPS then kept else kept[..MAX_STEPS]
  }

  function Criteria(acceptance: seq<string>): seq<string> {
    if acceptance == [] then ["Complete the planned changes and inspect the final diff."] else acceptance
  }

  function Fresh(steps: seq<string>, context: Context): Plan {
    var taken := TakenSteps(steps);
    Plan(1, Chunks(PendingTasks(taken), 0, |taken|, context), context.risks, Pending)
  }

  /** The descriptions of all tasks, milestone by milestone. */
  function Steps(ms: seq<Milestone>): seq<string>
    decreases |ms|
  {
    if ms == [] then [] else Descriptions(ms[0].tasks) + Steps(ms[1..])
  }

  function Descriptions(tasks: seq<Task>): (r: seq<string>)
    ensures |r| == |tasks|
    ensures forall i :: 0 <= i < |r| ==> r[i] == tasks[i].description
  {
    seq(|tasks|, i requires 0 <= i < |tasks| => tasks[i].description)
  }

  /** The descriptions of the Completed tasks. */
  function CompletedSteps(ms: seq<Milestone>): set<string> {
    set m, t | m in ms && t in m.tasks && t.status == Completed :: t.description
  }

  function RevisedTasks(steps: seq<string>, completed: set<string>): (r: seq<Task>)
    ensures |r| == |steps|
    ensures forall i :: 0 <= i < |r| ==> r[i] == Task(steps[i], if steps[i] in completed then Completed else Pending)
  {
    seq(|steps|, i requires 0 <= i < |steps| => Task(steps[i], if steps[i] in completed then Completed else Pending))
  }

  function MergedArchitecture(into: seq<string>, ms: seq<Milestone>): seq<string>
    decreases |ms|
  {
    if ms == [] then into else MergedArchitecture(PushAllUnique(into, ms[0].architecture, 32), ms[1..])
  }

  function MergedValidation(into: seq<string>, ms: seq<Milestone>): seq<string>
    decreases |ms|
  {
    if ms == [] then into else MergedValidation(PushAllUnique(into, ms[0].validation, 32), ms[1..])
  }

  function MergedCriteria(into: seq<string>, ms: seq<Milestone>): seq<string>
    decreases |ms|
  {
    if ms == [] then into else MergedCriteria(PushAllUnique(into, ms[0].criteria, 32), ms[1..])
  }

  predicate MayRevise(plan: Plan, reason: string, steps: seq<string>) {
    !IsBlank(reason) && steps != [] && plan.revision < MAX_PLAN_REVISIONS + 1 && Steps(plan.milestones) != steps
  }

  function RevisedMilestone(plan: Plan, steps: seq<string>, acceptance: seq<string>): Milestone {
    Milestone("Implementation",
              RevisedTasks(steps, CompletedSteps(plan.milestones)),
              MergedArchitecture([], plan.milestones),
              MergedValidation([], plan.milestones),
              MergedCriteria(acceptance, plan.milestones),
              Pending)
  }

  function Revise(plan: Plan, reason: string, steps: seq<string>, acceptance: seq<string>): Plan {
    if MayRevise(plan, reason, steps) then
      Advance(Plan(plan.revision + 1, [RevisedMilestone(plan, steps, acceptance)],
                   PushUniqueBounded(plan.notes, BoundedSummary(reason), 16), InProgress))
    else plan
  }

  // ----- the exact number of progress calls -----

  function PendingCount(tasks: seq<Task>): nat
    decreases |tasks|
  {
    if tasks == [] then 0 else (if tasks[0].status == Pending then 1 else 0) + PendingCount(tasks[1..])
  }

  /** An open milestone takes one call per pending task and one to close. */
  function MilestoneWork(m: Milestone): nat {
    if m.status == Completed then 0 else PendingCount(m.tasks) + 1
  }

  function Work(ms: seq<Milestone>): nat
    decreases |ms|
  {
    if ms == [] then 0 else MilestoneWork(ms[0]) + Work(ms[1..])
  }

  lemma {:induction false} PendingMeansTask(tasks: seq<Task>)
    ensures PendingCount(tasks) > 0 <==> HasTask(tasks, Pending)
    decreases |tasks|
  {
    if tasks != [] {
      PendingMeansTask(tasks[1..]);
      assert forall i :: 0 < i < |tasks| ==> tasks[i] == tasks[1..][i - 1];
    }
  }

  lemma {:induction false} SetFirstPendingCount(tasks: seq<Task>, from: Status, to: Status)
    requires from != to && to != Pending
    ensures PendingCount(SetFirst(tasks, from, to))
            == PendingCount(tasks) - (if from == Pending && HasTask(tasks, from) then 1 else 0)
    ensures PendingCount(tasks) > 0 <==> HasTask(tasks, Pending)
    decreases |tasks|
  {
    PendingMeansTask(tasks);
    if tasks != [] {
      SetFirstPendingCount(tasks[1..], from, to);
      if tasks[0].status == from {
        assert SetFirst(tasks, from, to)[1..] == tasks[1..];
      } else {
        assert HasTask(tasks, from) <==> HasTask(tasks[1..], from);
        assert SetFirst(tasks, from, to)[1..] == SetFirst(tasks[1..], from, to);
      }
    }
  }

  lemma ProgressMilestoneWork(m: Milestone)
    requires m.status != Completed
    ensures MilestoneWork(ProgressMilestone(m)) == MilestoneWork(m) - 1
    ensures ProgressMilestone(m).status == Completed <==> !HasTask(m.tasks, Pending)
  {
    var tasks := SetFirst(m.tasks, InProgress, Completed);
    SetFirstPendingCount(m.tasks, InProgress, Completed);
    SetFirstPendingCount(tasks, Pending, InProgress);
  }

  lemma {:induction false} WorkOfUpdate(ms: seq<Milestone>, i: nat, m: Milestone)
    requires i < |ms|
    ensures Work(ms[i := m]) == Work(ms) - MilestoneWork(ms[i]) + MilestoneWork(m)
    decreases |ms|
  {
    if i == 0 {
      assert ms[i := m][1..] == ms[1..];
    } else {
      WorkOfUpdate(ms[1..], i - 1, m);
      assert ms[i := m][1..] == ms[1..][i - 1 := m];
    }
  }

  lemma {:induction false} WorkIsZeroWhenAllCompleted(ms: seq<Milestone>)
    ensures Work(ms) == 0 <==> FirstOpen(ms) == |ms|
    decreases |ms|
  {
    if ms != [] { WorkIsZeroWhenAllCompleted(ms[1..]); }
  }

  /** Every progress call does exactly one unit of work, whatever the plan looks like. */
  lemma ProgressDoesOneUnit(plan: Plan)
    ensures Work(Progress(plan).milestones) == if Work(plan.milestones) == 0 then 0 else Work(plan.milestones) - 1
    ensures Work(plan.milestones) > 0 ==>
              (Progress(plan).status == Completed <==>
                 plan.status == Completed || Work(Progress(plan).milestones) == 0)
  {
    var i := FirstOpen(plan.milestones);
    WorkIsZeroWhenAllCompleted(plan.milestones);
    if i < |plan.milestones| {
      ProgressMilestoneWork(plan.milestones[i]);
      WorkOfUpdate(plan.milestones, i, ProgressMilestone(plan.milestones[i]));
      WorkIsZeroWhenAllCompleted(Progress(plan).milestones);
    }
  }

  function ProgressTimes(plan: Plan, k: nat): Plan
    decreases k
  {
    if k == 0 then plan else ProgressTimes(Progress(plan), k - 1)
  }

  /** Any open plan becomes Completed after exactly as many progress calls as it has work. */
  lemma {:induction false} CompletedExactlyAfterItsWork(plan: Plan, k: nat)
    requires plan.status != Completed && Work(plan.milestones) > 0
    ensures ProgressTimes(plan, k).status == Completed <==> k >= Work(plan.milestones)
    decreases k
  {
    if k > 0 {
      ProgressDoesOneUnit(plan);
      if Work(plan.milestones) > 1 {
        CompletedExactlyAfterItsWork(Progress(plan), k - 1);
      } else {
        FinishedPlanStays(Progress(plan), k - 1);
      }
    }
  }

  lemma {:induction false} FinishedPlanStays(plan: Plan, k: nat)
    requires Work(plan.milestones) == 0
    ensures ProgressTimes(plan, k) == plan
    decreases k
  {
    WorkIsZeroWhenAllCompleted(plan.milestones);
    if k > 0 { FinishedPlanStays(plan, k - 1); }
  }

  lemma {:induction false} AllPending(tasks: seq<Task>)
    requires forall i :: 0 <= i < |tasks| ==> tasks[i].status == Pending
    ensures PendingCount(tasks) == |tasks|
    decreases |tasks|
  {
    if tasks != [] { AllPending(tasks[1..]); }
  }

  lemma {:induction false} ChunksWork(tasks: seq<Task>, index: nat, total: nat, context: Context)
    requires forall i :: 0 <= i < |tasks| ==> tasks[i].status == Pending
    ensures Work(Chunks(tasks, index, total, context)) == |tasks| + (|tasks| + 3) / 4
    decreases |tasks|
  {
    var ms := Chunks(tasks, index, total, context);
    if |tasks| > CHUNK {
      var rest := Chunks(tasks[CHUNK..], index + 1, total, context);
      AllPending(tasks[..CHUNK]);
      ChunksWork(tasks[CHUNK..], index + 1, total, context);
      assert ms[1..] == rest;
    } else if tasks != [] {
      AllPending(tasks);
      assert ms[1..] == [];
    }
  }

  lemma {:induction false} ChunksHoldSteps(tasks: seq<Task>, index: nat, total: nat, context: Context)
    ensures Steps(Chunks(tasks, index, total, context)) == Descriptions(tasks)
    decreases |tasks|
  {
    var ms := Chunks(tasks, index, total, context);
    if |tasks| > CHUNK {
      var rest := Chunks(tasks[CHUNK..], index + 1, total, context);
      ChunksHoldSteps(tasks[CHUNK..], index + 1, total, context);
      assert ms[1..] == rest && ms[0].tasks == tasks[..CHUNK];
      assert Steps(ms) == Descriptions(tasks[..CHUNK]) + Steps(rest);
      assert Descriptions(tasks) == Descriptions(tasks[..CHUNK]) + Descriptions(tasks[CHUNK..]);
    } else if tasks != [] {
      assert ms[1..] == [];
      assert Steps(ms) == Descriptions(tasks) + Steps([]);
    }
  }

  lemma {:induction false} ChunksArePending(tasks: seq<Task>, index: nat, total: nat, context: Context)
    ensures forall i :: 0 <= i < |Chunks(tasks, index, total, context)| ==>
              Chunks(tasks, index, total, context)[i].status == Pending
    decreases |tasks|
  {
    if |tasks| > CHUNK {
      ChunksArePending(tasks[CHUNK..], index + 1, total, context);
      assert Chunks(tasks, index, total, context)[1..] == Chunks(tasks[CHUNK..], index + 1, total, context);
    }
  }

  /**
   Main result on progress: a fresh plan of n taken steps, advanced once, becomes Completed after
   exactly n + ceil(n / 4) - 1 progress calls and not before; its milestones hold the steps in order.
   */
  lemma FreshPlanProgress(steps: seq<string>, context: Context, k: nat)
    requires TakenSteps(steps) != []
    ensures var n := |TakenSteps(steps)|;
            && n <= MAX_STEPS
            && Steps(Fresh(steps, context).milestones) == TakenSteps(steps)
            && (ProgressTimes(Advance(Fresh(steps, context)), k).status == Completed
                <==> k >= n + (n + 3) / 4 - 1)
  {
    var plan := Fresh(steps, context);
    var tasks := PendingTasks(TakenSteps(steps));
    ChunksWork(tasks, 0, |tasks|, context);
    ChunksHoldSteps(tasks, 0, |tasks|, context);
    ChunksArePending(tasks, 0, |tasks|, context);
    assert plan.milestones != [] && plan.milestones[0].tasks[0].status == Pending;
    assert FirstOpen(plan.milestones) == 0 && HasTask(plan.milestones[0].tasks, Pending);
    SetFirstPendingCount(plan.milestones[0].tasks, Pending, InProgress);
    WorkOfUpdate(plan.milestones, 0, AdvanceMilestone(plan.milestones[0]));
    CompletedExactlyAfterItsWork(Advance(plan), k);
    assert Descriptions(tasks) == TakenSteps(steps);
  }

  // ----- runs of operations -----

  /** The part of a task run the plan machine touches. */
  datatype State = State(plan: Option<Plan>, current: Option<string>, completion: Completion, acceptance: seq<string>)

  datatype Op =
    | Restore(steps: seq<string>, context: Context) // a stored plan text becomes the plan where there is none
    | Create(steps: seq<string>, context: Context)  // a plan is made where there is none, then advanced
    | Install(steps: seq<string>, context: Context) // a planning answer replaces the plan, then advances it
    | AdvanceOp
    | ProgressOp
    | FinishOp(outcome: Completion)
    | Resume                                        // a stored run starts again: advanced and in progress
    | ReviseOp(reason: string, newSteps: seq<string>)

  function WithPlan(s: State, plan: Plan): State {
    s.(plan := Some(plan), current := CurrentTitle(Some(plan)))
  }

  function Step(s: State, op: Op): State {
    match op
    case Restore(steps, context) =>
      if s.plan.Some? then s else WithPlan(s, Fresh(steps, context.(criteria := Criteria(s.acceptance))))
    case Create(steps, context) =>
      if s.plan.Some? then s
      else WithPlan(s, Advance(Fresh(steps, context.(criteria := Criteria(s.acceptance)))))
    case Install(steps, context) =>
      WithPlan(s, Advance(Fresh(steps, context.(criteria := Criteria(s.acceptance)))))
    case AdvanceOp => if s.plan.None? then s else WithPlan(s, Advance(s.plan.value))
    case ProgressOp =>
      if s.plan.None? || FirstOpen(s.plan.value.milestones) == |s.plan.value.milestones| then s
      else WithPlan(s, Progress(s.plan.value))
    case FinishOp(outcome) =>
      var ended := s.(completion := outcome);
      if s.plan.None? then ended else WithPlan(ended, Finish(s.plan.value, outcome))
    case Resume =>
      var resumed := s.(completion := Working);
      if s.plan.None? then resumed.(current := None) else WithPlan(resumed, Advance(s.plan.value))
    case ReviseOp(reason, steps) =>
      if s.plan.None? || !MayRevise(s.plan.value, reason, steps) then s
      else WithPlan(s, Revise(s.plan.value, reason, steps, s.acceptance))
  }

  function Run(s: State, ops: seq<Op>): State
    decreases |ops|
  {
    if ops == [] then s else Run(Step(s, ops[0]), ops[1..])
  }

  /** Completed milestones form a prefix, and none of them has a Pending task. */
  ghost predicate Ordered(ms: seq<Milestone>) {
    && (forall i :: FirstOpen(ms) <= i < |ms| ==> ms[i].status != Completed)
    && (forall i :: 0 <= i < FirstOpen(ms) ==> !HasTask(ms[i].tasks, Pending))
  }

  ghost predicate Sound(plan: Plan) {
    && Ordered(plan.milestones)
    && (plan.status == Completed ==> FirstOpen(plan.milestones) == |plan.milestones|)
    && 1 <= plan.revision <= MAX_PLAN_REVISIONS + 1
  }

  ghost predicate Inv(s: State) {
    && (s.plan.Some? ==> Sound(s.plan.value))
    && s.current == CurrentTitle(s.plan)
  }

  lemma FirstOpenIs(ms: seq<Milestone>, i: nat)
    requires i <= |ms| && (forall k :: 0 <= k < i ==> ms[k].status == Completed)
    requires i < |ms| ==> ms[i].status != Completed
    ensures FirstOpen(ms) == i
  {
  }

  /** Replacing the first open milestone by another open one, or by a closed one without pending tasks. */
  lemma OrderedUpdate(ms: seq<Milestone>, m: Milestone)
    requires Ordered(ms) && FirstOpen(ms) < |ms|
    requires m.status == Completed ==> !HasTask(m.tasks, Pending)
    ensures Ordered(ms[FirstOpen(ms) := m])
    ensures FirstOpen(ms[FirstOpen(ms) := m]) == FirstOpen(ms) + if m.status == Completed then 1 else 0
  {
    var i := FirstOpen(ms);
    FirstOpenIs(ms[i := m], if m.status == Completed then i + 1 else i);
  }

  lemma {:induction false} ChunksOrdered(tasks: seq<Task>, index: nat, total: nat, context: Context)
    requires forall i :: 0 <= i < |tasks| ==> tasks[i].status == Pending
    ensures Ordered(Chunks(tasks, index, total, context))
  {
    ChunksArePending(tasks, index, total, context);
  }

  lemma AdvanceKeepsSound(plan: Plan)
    requires Ordered(plan.milestones) && 1 <= plan.revision <= MAX_PLAN_REVISIONS + 1
    ensures Sound(Advance(plan))
  {
  }

  lemma ProgressKeepsSound(plan: Plan)
    requires Sound(plan)
    ensures Sound(Progress(plan))
  {
  }

  lemma FinishKeepsSound(plan: Plan, outcome: Completion)
    requires Sound(plan)
    ensures Sound(Finish(plan, outcome))
  {
    match outcome
    case Done =>
      FirstOpenIs(CompleteAll(plan.milestones), |plan.milestones|);
    case Stuck | UserInputRequired | ResourceLimitReached =>
      var i := FirstOpen(plan.milestones);
      if i < |plan.milestones| {
        OrderedUpdate(plan.milestones, BlockMilestone(plan.milestones[i]));
      }
    case Working | Cancelled =>
  }

  lemma FreshIsSound(steps: seq<string>, context: Context)
    ensures Sound(Fresh(steps, context)) && Sound(Advance(Fresh(steps, context)))
  {
    var taken := TakenSteps(steps);
    ChunksOrdered(PendingTasks(taken), 0, |taken|, context);
    AdvanceKeepsSound(Fresh(steps, context));
  }

  lemma StepKeepsInv(s: State, op: Op)
    requires Inv(s)
    ensures Inv(Step(s, op))
  {
    match op
    case Restore(steps, context) => FreshIsSound(steps, context.(criteria := Criteria(s.acceptance)));
    case Create(steps, context) => FreshIsSound(steps, context.(criteria := Criteria(s.acceptance)));
    case Install(steps, context) => FreshIsSound(steps, context.(criteria := Criteria(s.acceptance)));
    case AdvanceOp => if s.plan.Some? { AdvanceKeepsSound(s.plan.value); }
    case ProgressOp => if s.plan.Some? { ProgressKeepsSound(s.plan.value); }
    case FinishOp(outcome) => if s.plan.Some? { FinishKeepsSound(s.plan.value, outcome); }
    case Resume => if s.plan.Some? { AdvanceKeepsSound(s.plan.value); }
    case ReviseOp(reason, steps) =>
      if s.plan.Some? && MayRevise(s.plan.value, reason, steps) {
        var m := RevisedMilestone(s.plan.value, steps, s.acceptance);
        FirstOpenIs([m], 0);
        AdvanceKeepsSound(Plan(s.plan.value.revision + 1, [m],
                               PushUniqueBounded(s.plan.value.notes, BoundedSummary(reason), 16), InProgress));
      }
  }

  /**
   Main result on runs: over any interleaving of the operations, Completed milestones form a prefix
   without Pending tasks, a Completed plan has only Completed milestones, and the goal's current
   milestone is the title of the first open one.
   */
  lemma {:induction false} RunKeepsInv(s: State, ops: seq<Op>)
    requires Inv(s)
    ensures Inv(Run(s, ops))
    decreases |ops|
  {
    if ops != [] {
      StepKeepsInv(s, ops[0]);
      RunKeepsInv(Step(s, ops[0]), ops[1..]);
    }
  }

  predicate Accepts(s: State, op: Op) {
    op.ReviseOp? && s.plan.Some? && MayRevise(s.plan.value, op.reason, op.newSteps)
  }

  /** How many operations of the run are accepted revisions. */
  function AcceptedRevisions(s: State, ops: seq<Op>): nat
    decreases |ops|
  {
    if ops == [] then 0
    else (if Accepts(s, ops[0]) then 1 else 0) + AcceptedRevisions(Step(s, ops[0]), ops[1..])
  }

  lemma StepCountsRevision(s: State, op: Op)
    requires s.plan.Some? && !op.Install?
    ensures Step(s, op).plan.Some?
    ensures Step(s, op).plan.value.revision == s.plan.value.revision + if Accepts(s, op) then 1 else 0
  {
  }

  /** The revision number counts the accepted revisions of the same plan. */
  lemma {:induction false} RevisionCounts(s: State, ops: seq<Op>)
    requires s.plan.Some? && forall i :: 0 <= i < |ops| ==> !ops[i].Install?
    ensures Run(s, ops).plan.Some?
    ensures Run(s, ops).plan.value.revision == s.plan.value.revision + AcceptedRevisions(s, ops)
    decreases |ops|
  {
    if ops != [] {
      StepCountsRevision(s, ops[0]);
      RevisionCounts(Step(s, ops[0]), ops[1..]);
    }
  }

  /** How many of the operations install a planning answer. */
  function Installs(ops: seq<Op>): nat
    decreases |ops|
  {
    if ops == [] then 0 else (if ops[0].Install? then 1 else 0) + Installs(ops[1..])
  }

  function RevisionOf(s: State): nat { if s.plan.None? then 1 else s.plan.value.revision }

  lemma {:induction false} RevisionsLeft(s: State, ops: seq<Op>)
    requires Inv(s)
    ensures AcceptedRevisions(s, ops) + RevisionOf(s) <= MAX_PLAN_REVISIONS * (1 + Installs(ops)) + 1
    decreases |ops|
  {
    if ops != [] {
      StepKeepsInv(s, ops[0]);
      RevisionsLeft(Step(s, ops[0]), ops[1..]);
      if s.plan.Some? && !ops[0].Install? { StepCountsRevision(s, ops[0]); }
    }
  }

  /** Main result on revisions: three are accepted at most for the first plan and for each one installed. */
  lemma AtMostThreeRevisionsPerInstall(s: State, ops: seq<Op>)
    requires Inv(s)
    ensures AcceptedRevisions(s, ops) <= MAX_PLAN_REVISIONS * (1 + Installs(ops))
  {
    RevisionsLeft(s, ops);
  }

  /** Where nothing is installed, three at most. */
  lemma AtMostThreeRevisions(s: State, ops: seq<Op>)
    requires Inv(s) && forall i :: 0 <= i < |ops| ==> !ops[i].Install?
    ensures AcceptedRevisions(s, ops) <= MAX_PLAN_REVISIONS
  {
    NoInstalls(ops);
    AtMostThreeRevisionsPerInstall(s, ops);
  }

  lemma {:induction false} AcceptedInTurn(s: State, ops: seq<Op>, more: seq<Op>)
    ensures AcceptedRevisions(s, ops + more) == AcceptedRevisions(s, ops) + AcceptedRevisions(Run(s, ops), more)
    ensures Run(s, ops + more) == Run(Run(s, ops), more)
    decreases |ops|
  {
    if ops == [] {
      assert ops + more == more;
    } else {
      assert (ops + more)[1..] == ops[1..] + more;
      AcceptedInTurn(Step(s, ops[0]), ops[1..], more);
    }
  }

  lemma {:induction false} StepsOfUpdate(ms: seq<Milestone>, i: nat, m: Milestone)
    requires i < |ms| && Descriptions(m.tasks) == Descriptions(ms[i].tasks)
    ensures Steps(ms[i := m]) == Steps(ms)
    decreases |ms|
  {
    if i == 0 {
      assert ms[i := m][1..] == ms[1..];
    } else {
      StepsOfUpdate(ms[1..], i - 1, m);
      assert ms[i := m][1..] == ms[1..][i - 1 := m];
    }
  }

  lemma AdvanceKeepsSteps(plan: Plan)
    ensures Steps(Advance(plan).milestones) == Steps(plan.milestones)
    ensures Advance(plan).revision == plan.revision
  {
    var i := FirstOpen(plan.milestones);
    if i < |plan.milestones| {
      var m := AdvanceMilestone(plan.milestones[i]);
      assert Descriptions(m.tasks) == Descriptions(plan.milestones[i].tasks);
      StepsOfUpdate(plan.milestones, i, m);
    }
  }

  lemma FreshHasSteps(steps: seq<string>, context: Context)
    ensures Steps(Advance(Fresh(steps, context)).milestones) == TakenSteps(steps)
    ensures Advance(Fresh(steps, context)).revision == 1
  {
    var taken := TakenSteps(steps);
    ChunksHoldSteps(PendingTasks(taken), 0, |taken|, context);
    assert Descriptions(PendingTasks(taken)) == taken;
    AdvanceKeepsSteps(Fresh(steps, context));
  }

  lemma RevisionIsAccepted(s: State, reason: string, steps: seq<string>)
    requires s.plan.Some? && s.plan.value.revision <= MAX_PLAN_REVISIONS
    requires !IsBlank(reason) && steps != [] && Steps(s.plan.value.milestones) != steps
    ensures var next := Step(s, ReviseOp(reason, steps));
            && Accepts(s, ReviseOp(reason, steps)) && next.plan.Some?
            && next.plan.value.revision == s.plan.value.revision + 1
            && Steps(next.plan.value.milestones) == steps
  {
    RevisionKeepsCompletedSteps(s.plan.value, reason, steps, s.acceptance);
    var ms := Step(s, ReviseOp(reason, steps)).plan.value.milestones;
    assert Steps(ms) == Descriptions(ms[0].tasks) + Steps(ms[1..]) && Steps(ms[1..]) == [];
  }

  lemma ThreeAreAccepted(s: State, reason: string, a: seq<string>, b: seq<string>, c: seq<string>)
    requires s.plan.Some? && s.plan.value.revision == 1 && Steps(s.plan.value.milestones) != a
    requires !IsBlank(reason) && a != [] && b != [] && c != [] && a != b && b != c
    ensures AcceptedRevisions(s, ThreeRevisions(reason, a, b, c)) == 3
  {
    var ops := ThreeRevisions(reason, a, b, c);
    var s1 := Step(s, ops[0]);
    var s2 := Step(s1, ops[1]);
    RevisionIsAccepted(s, reason, a);
    RevisionIsAccepted(s1, reason, b);
    RevisionIsAccepted(s2, reason, c);
    assert ops[1..] == [ops[1], ops[2]] && ops[1..][1..] == [ops[2]] && ops[1..][1..][1..] == [];
    assert AcceptedRevisions(s2, [ops[2]]) == 1;
    assert AcceptedRevisions(s1, [ops[1], ops[2]]) == 2;
  }

  function ThreeRevisions(reason: string, a: seq<string>, b: seq<string>, c: seq<string>): seq<Op> {
    [ReviseOp(reason, a), ReviseOp(reason, b), ReviseOp(reason, c)]
  }

  lemma MakingIsFresh(s: State, op: Op)
    requires (op.Create? && s.plan.None?) || op.Install?
    ensures var made := Step(s, op).plan;
            made.Some? && made.value.revision == 1 && Steps(made.value.milestones) == TakenSteps(op.steps)
  {
    FreshHasSteps(op.steps, op.context.(criteria := Criteria(s.acceptance)));
  }

  /** A plan that was just made, and three revisions of it. */
  lemma FreshThenThree(s: State, op: Op, reason: string, a: seq<string>, b: seq<string>, c: seq<string>)
    requires (op.Create? && s.plan.None?) || op.Install?
    requires TakenSteps(op.steps) != a
    requires !IsBlank(reason) && a != [] && b != [] && c != [] && a != b && b != c
    ensures AcceptedRevisions(s, [op] + ThreeRevisions(reason, a, b, c)) == 3
    ensures Installs([op] + ThreeRevisions(reason, a, b, c)) == if op.Install? then 1 else 0
  {
    var three := ThreeRevisions(reason, a, b, c);
    MakingIsFresh(s, op);
    OneOp(s, op);
    ThreeAreAccepted(Step(s, op), reason, a, b, c);
    AcceptedInTurn(s, [op], three);
    InstallsInTurn([op], three);
    NoInstalls(three);
    assert [op][1..] == [];
  }

  /**
   A task can have six: three of a plan made from text, and three more of the plan a planning answer
   installs in its place.
   */
  lemma SixRevisionsOfOneTask(s: State, made: seq<string>, installed: seq<string>, context: Context, reason: string,
                              a: seq<string>, b: seq<string>, c: seq<string>)
    requires s.plan.None? && !IsBlank(reason) && a != [] && b != [] && c != [] && a != b && b != c
    requires TakenSteps(made) != a && TakenSteps(installed) != a
    ensures var three := ThreeRevisions(reason, a, b, c);
            var ops := [Create(made, context)] + three + ([Install(installed, context)] + three);
            AcceptedRevisions(s, ops) == 6 && Installs(ops) == 1
  {
    var three := ThreeRevisions(reason, a, b, c);
    var first := [Create(made, context)] + three;
    var second := [Install(installed, context)] + three;
    FreshThenThree(s, Create(made, context), reason, a, b, c);
    FreshThenThree(Run(s, first), Install(installed, context), reason, a, b, c);
    AcceptedInTurn(s, first, second);
    InstallsInTurn(first, second);
  }

  lemma OneOp(s: State, op: Op)
    ensures Run(s, [op]) == Step(s, op)
    ensures AcceptedRevisions(s, [op]) == if Accepts(s, op) then 1 else 0
  {
    assert [op][1..] == [] && Run(Step(s, op), []) == Step(s, op);
  }

  lemma {:induction false} InstallsInTurn(ops: seq<Op>, more: seq<Op>)
    ensures Installs(ops + more) == Installs(ops) + Installs(more)
    decreases |ops|
  {
    if ops == [] {
      assert ops + more == more;
    } else {
      assert (ops + more)[1..] == ops[1..] + more;
      InstallsInTurn(ops[1..], more);
    }
  }

  lemma {:induction false} NoInstalls(ops: seq<Op>)
    requires forall i :: 0 <= i < |ops| ==> !ops[i].Install?
    ensures Installs(ops) == 0
    decreases |ops|
  {
    if ops != [] { NoInstalls(ops[1..]); }
  }

  /** An accepted revision has exactly the new steps, and marks Completed exactly those completed before. */
  lemma RevisionKeepsCompletedSteps(plan: Plan, reason: string, steps: seq<string>, acceptance: seq<string>)
    ensures !MayRevise(plan, reason, steps) ==> Revise(plan, reason, steps, acceptance) == plan
    ensures MayRevise(plan, reason, steps) ==>
              var revised := Revise(plan, reason, steps, acceptance);
              && revised.revision == plan.revision + 1
              && |revised.milestones| == 1
              && Descriptions(revised.milestones[0].tasks) == steps
              && forall i :: 0 <= i < |steps| ==>
                   (revised.milestones[0].tasks[i].status == Completed
                    <==> steps[i] in CompletedSteps(plan.milestones))
  {
    if MayRevise(plan, reason, steps) {
      var m := RevisedMilestone(plan, steps, acceptance);
      FirstOpenIs([m], 0);
      var revised := Revise(plan, reason, steps, acceptance);
      assert revised.milestones == [AdvanceMilestone(m)];
      assert Descriptions(AdvanceMilestone(m).tasks) == steps;
    }
  }

  // ----- where "a Completed milestone has only Completed tasks" stops holding -----

  predicate AllTasksCompleted(tasks: seq<Task>) {
    forall i :: 0 <= i < |tasks| ==> tasks[i].status == Completed
  }

  /** At most one task in progress and none blocked: the milestone will close with every task Completed. */
  predicate Clean(tasks: seq<Task>) {
    && (forall i :: 0 <= i < |tasks| ==> tasks[i].status != Blocked)
    && (forall i, j :: 0 <= i < j < |tasks| && tasks[i].status == InProgress ==> tasks[j].status != InProgress)
  }

  /** Closing a milestone leaves only Completed tasks exactly when the milestone is clean. */
  lemma ClosesCompletelyExactlyWhenClean(m: Milestone)
    requires m.status != Completed && !HasTask(m.tasks, Pending)
    ensures ProgressMilestone(m).status == Completed
    ensures AllTasksCompleted(ProgressMilestone(m).tasks) <==> Clean(m.tasks)
  {
    ProgressMilestoneWork(m);
    var i := FirstTask(m.tasks, InProgress);
    var tasks := ProgressMilestone(m).tasks;
    assert tasks == SetFirst(m.tasks, InProgress, Completed);
    assert forall k :: 0 <= k < |tasks| && k != i ==> tasks[k] == m.tasks[k];
    if Clean(m.tasks) {
      forall k | 0 <= k < |tasks| ensures tasks[k].status == Completed {
        if k != i { assert tasks[k].status != Pending; }
      }
    }
    if AllTasksCompleted(tasks) {
      assert forall k :: 0 <= k < |tasks| && k != i ==> m.tasks[k].status == Completed;
    }
  }

  /** A progress call that leaves the milestone open keeps it clean. */
  lemma ProgressKeepsClean(m: Milestone)
    requires m.status != Completed && HasTask(m.tasks, Pending) && Clean(m.tasks)
    ensures Clean(ProgressMilestone(m).tasks)
  {
  }

  /** Advancing a clean milestone keeps it clean exactly when it has nothing in progress or nothing pending. */
  lemma AdvanceKeepsCleanExactlyWhen(m: Milestone)
    requires Clean(m.tasks)
    ensures Clean(AdvanceMilestone(m).tasks) <==> !HasTask(m.tasks, InProgress) || !HasTask(m.tasks, Pending)
  {
    var tasks := AdvanceMilestone(m).tasks;
    var p := FirstTask(m.tasks, Pending);
    var q := FirstTask(m.tasks, InProgress);
    assert forall k :: 0 <= k < |tasks| && k != p ==> tasks[k] == m.tasks[k];
    if p < |tasks| && q < |tasks| {
      assert tasks[p].status == InProgress && tasks[q].status == InProgress && p != q;
    }
  }

  /** Ending a clean milestone blocked keeps it clean exactly when nothing was in progress. */
  lemma BlockKeepsCleanExactlyWhen(m: Milestone)
    requires Clean(m.tasks)
    ensures Clean(BlockMilestone(m).tasks) <==> !HasTask(m.tasks, InProgress)
  {
    var i := FirstTask(m.tasks, InProgress);
    if i < |m.tasks| { assert BlockMilestone(m).tasks[i].status == Blocked; }
  }

  /** Every Completed milestone has only Completed tasks, and every open one is clean. */
  ghost predicate CleanPlan(ms: seq<Milestone>) {
    forall i :: 0 <= i < |ms| ==>
      if ms[i].status == Completed then AllTasksCompleted(ms[i].tasks) else Clean(ms[i].tasks)
  }

  ghost predicate CleanState(s: State) {
    s.plan.Some? ==> CleanPlan(s.plan.value.milestones)
  }

  /** The guard: no advance over a half-done milestone, no blocked end with a task in progress. */
  predicate KeepsClean(s: State, op: Op) {
    s.plan.Some? && FirstOpen(s.plan.value.milestones) < |s.plan.value.milestones| ==>
      var tasks := s.plan.value.milestones[FirstOpen(s.plan.value.milestones)].tasks;
      match op
      case AdvanceOp | Resume => !HasTask(tasks, InProgress) || !HasTask(tasks, Pending)
      case FinishOp(outcome) =>
        outcome.Stuck? || outcome.UserInputRequired? || outcome.ResourceLimitReached? ==> !HasTask(tasks, InProgress)
      case _ => true
  }

  lemma {:induction false} ChunksClean(tasks: seq<Task>, index: nat, total: nat, context: Context)
    requires forall i :: 0 <= i < |tasks| ==> tasks[i].status == Pending
    ensures forall i :: 0 <= i < |Chunks(tasks, index, total, context)| ==>
              Chunks(tasks, index, total, context)[i].status == Pending
              && forall t :: t in Chunks(tasks, index, total, context)[i].tasks ==> t.status == Pending
    decreases |tasks|
  {
    if |tasks| > CHUNK {
      ChunksClean(tasks[CHUNK..], index + 1, total, context);
    }
  }

  lemma AdvancedPendingIsClean(plan: Plan)
    requires forall i :: 0 <= i < |plan.milestones| ==>
               plan.milestones[i].status != Completed
               && forall t :: t in plan.milestones[i].tasks ==> t.status == Pending || t.status == Completed
    ensures CleanPlan(Advance(plan).milestones)
  {
  }

  lemma OpenUpdateClean(ms: seq<Milestone>, m: Milestone)
    requires CleanPlan(ms) && FirstOpen(ms) < |ms|
    ensures CleanPlan(ms[FirstOpen(ms) := m])
            <==> if m.status == Completed then AllTasksCompleted(m.tasks) else Clean(m.tasks)
  {
    var next := ms[FirstOpen(ms) := m];
    assert next[FirstOpen(ms)] == m;
  }

  /** One operation keeps the plan clean exactly when its guard holds. */
  lemma StepKeepsCleanExactlyWhen(s: State, op: Op)
    requires CleanState(s)
    ensures CleanState(Step(s, op)) <==> KeepsClean(s, op)
  {
    match op
    case Restore(steps, context) => FreshIsClean(steps, context.(criteria := Criteria(s.acceptance)));
    case Create(steps, context) => FreshIsClean(steps, context.(criteria := Criteria(s.acceptance)));
    case Install(steps, context) => FreshIsClean(steps, context.(criteria := Criteria(s.acceptance)));
    case AdvanceOp => if s.plan.Some? { AdvanceClean(s.plan.value); }
    case Resume => if s.plan.Some? { AdvanceClean(s.plan.value); }
    case ProgressOp => if s.plan.Some? { ProgressClean(s.plan.value); }
    case FinishOp(outcome) => if s.plan.Some? { FinishClean(s.plan.value, outcome); }
    case ReviseOp(reason, steps) =>
      if s.plan.Some? && MayRevise(s.plan.value, reason, steps) {
        AdvancedPendingIsClean(Plan(s.plan.value.revision + 1, [RevisedMilestone(s.plan.value, steps, s.acceptance)],
                                    PushUniqueBounded(s.plan.value.notes, BoundedSummary(reason), 16), InProgress));
      }
  }

  lemma FreshIsClean(steps: seq<string>, context: Context)
    ensures CleanPlan(Fresh(steps, context).milestones) && CleanPlan(Advance(Fresh(steps, context)).milestones)
  {
    ChunksClean(PendingTasks(TakenSteps(steps)), 0, |TakenSteps(steps)|, context);
    AdvancedPendingIsClean(Fresh(steps, context));
  }

  lemma AdvanceClean(plan: Plan)
    requires CleanPlan(plan.milestones)
    ensures CleanPlan(Advance(plan).milestones)
            <==> (FirstOpen(plan.milestones) < |plan.milestones| ==>
                    var tasks := plan.milestones[FirstOpen(plan.milestones)].tasks;
                    !HasTask(tasks, InProgress) || !HasTask(tasks, Pending))
  {
    var i := FirstOpen(plan.milestones);
    if i < |plan.milestones| {
      AdvanceKeepsCleanExactlyWhen(plan.milestones[i]);
      OpenUpdateClean(plan.milestones, AdvanceMilestone(plan.milestones[i]));
    }
  }

  lemma ProgressClean(plan: Plan)
    requires CleanPlan(plan.milestones)
    ensures CleanPlan(Progress(plan).milestones)
  {
    var i := FirstOpen(plan.milestones);
    if i < |plan.milestones| {
      var m := plan.milestones[i];
      ProgressMilestoneWork(m);
      if HasTask(m.tasks, Pending) { ProgressKeepsClean(m); } else { ClosesCompletelyExactlyWhenClean(m); }
      OpenUpdateClean(plan.milestones, ProgressMilestone(m));
    }
  }

  lemma FinishClean(plan: Plan, outcome: Completion)
    requires CleanPlan(plan.milestones)
    ensures CleanPlan(Finish(plan, outcome).milestones)
            <==> (FirstOpen(plan.milestones) < |plan.milestones|
                  && (outcome.Stuck? || outcome.UserInputRequired? || outcome.ResourceLimitReached?) ==>
                    !HasTask(plan.milestones[FirstOpen(plan.milestones)].tasks, InProgress))
  {
    var i := FirstOpen(plan.milestones);
    if i < |plan.milestones| && !outcome.Done? {
      BlockKeepsCleanExactlyWhen(plan.milestones[i]);
      OpenUpdateClean(plan.milestones, BlockMilestone(plan.milestones[i]));
    }
  }

  ghost predicate GuardedRun(s: State, ops: seq<Op>)
    decreases |ops|
  {
    ops != [] ==> KeepsClean(s, ops[0]) && GuardedRun(Step(s, ops[0]), ops[1..])
  }

  /** Along a guarded run every Completed milestone has only Completed tasks. */
  lemma {:induction false} GuardedRunStaysClean(s: State, ops: seq<Op>)
    requires CleanState(s) && GuardedRun(s, ops)
    ensures CleanState(Run(s, ops))
    decreases |ops|
  {
    if ops != [] {
      StepKeepsCleanExactlyWhen(s, ops[0]);
      GuardedRunStaysClean(Step(s, ops[0]), ops[1..]);
    }
  }

  /** A blocked run, resumed and worked on, closes a milestone that still has a Blocked task. */
  lemma ResumedMilestoneKeepsBlockedTask()
    ensures var tasks := [Task("inspect", InProgress), Task("edit", Pending)];
            var m := Milestone("Implementation", tasks, [], [], [], InProgress);
            var resumed := AdvanceMilestone(BlockMilestone(m));
            && ProgressMilestone(resumed).status == Completed
            && ProgressMilestone(resumed).tasks == [Task("inspect", Blocked), Task("edit", Completed)]
  {
    var tasks := [Task("inspect", InProgress), Task("edit", Pending)];
    var m := Milestone("Implementation", tasks, [], [], [], InProgress);
    assert FirstTask(tasks, InProgress) == 0;
    var blocked := [Task("inspect", Blocked), Task("edit", Pending)];
    assert BlockMilestone(m).tasks == blocked;
    assert FirstTask(blocked, Pending) == 1;
    var resumed := [Task("inspect", Blocked), Task("edit", InProgress)];
    assert AdvanceMilestone(BlockMilestone(m)).tasks == resumed;
    assert FirstTask(resumed, InProgress) == 1;
    var closed := [Task("inspect", Blocked), Task("edit", Completed)];
    assert SetFirst(resumed, InProgress, Completed) == closed;
    assert FirstTask(closed, Pending) == 2;
  }

  // ----- the task run, updated in place -----

  method CompletePlan(plan: Plan) returns (done: Plan)
    ensures done == Finish(plan, Done)
  {
    var ms := plan.milestones;
    var i := 0;
    while i < |ms|
      invariant 0 <= i <= |ms| == |plan.milestones|
      invariant forall k :: 0 <= k < i ==> ms[k] == CompleteAll(plan.milestones)[k]
      invariant forall k :: i <= k < |ms| ==> ms[k] == plan.milestones[k]
    {
      ms := ms[i := ms[i].(status := Completed, tasks := CompleteTasks(ms[i].tasks))];
      i := i + 1;
    }
    assert ms == CompleteAll(plan.milestones);
    done := plan.(milestones := ms, status := Completed);
  }

  method BlockPlan(plan: Plan, outcome: Completion) returns (blocked: Plan)
    requires outcome.Stuck? || outcome.UserInputRequired? || outcome.ResourceLimitReached?
    ensures blocked == Finish(plan, outcome)
  {
    blocked := plan.(status := Blocked);
    var i := FirstOpen(plan.milestones);
    if i < |plan.milestones| {
      var m := plan.milestones[i].(status := Blocked);
      var t := FirstTask(m.tasks, InProgress);
      if t < |m.tasks| {
        m := m.(tasks := m.tasks[t := m.tasks[t].(status := Blocked)]);
      }
      blocked := blocked.(milestones := plan.milestones[i := m]);
    }
  }

  method MergeContext(ms: seq<Milestone>, acceptance: seq<string>)
    returns (architecture: seq<string>, validation: seq<string>, criteria: seq<string>)
    ensures architecture == MergedArchitecture([], ms)
    ensures validation == MergedValidation([], ms)
    ensures criteria == MergedCriteria(acceptance, ms)
  {
    architecture, validation, criteria := [], [], acceptance;
    var i := 0;
    while i < |ms|
      invariant 0 <= i <= |ms|
      invariant MergedArchitecture(architecture, ms[i..]) == MergedArchitecture([], ms)
      invariant MergedValidation(validation, ms[i..]) == MergedValidation([], ms)
      invariant MergedCriteria(criteria, ms[i..]) == MergedCriteria(acceptance, ms)
    {
      assert ms[i..][1..] == ms[i + 1..];
      architecture := PushAllUnique(architecture, ms[i].architecture, 32);
      validation := PushAllUnique(validation, ms[i].validation, 32);
      criteria := PushAllUnique(criteria, ms[i].criteria, 32);
      i := i + 1;
    }
  }

  class TaskRun {
    var executionPlan: Option<Plan>
    var currentMilestone: Option<string>
    var completionStatus: Completion
    var acceptanceCriteria: seq<string>

    function Abstract(): State
      reads this
    {
      State(executionPlan, currentMilestone, completionStatus, acceptanceCriteria)
    }

    ghost predicate Valid()
      reads this
    {
      Inv(Abstract())
    }

    constructor (acceptance: seq<string>)
      ensures Valid() && Abstract() == State(None, None, Working, acceptance)
    {
      executionPlan, currentMilestone, completionStatus := None, None, Working;
      acceptanceCriteria := acceptance;
    }

    method SyncCurrentMilestone()
      modifies this`currentMilestone
      ensures currentMilestone == CurrentTitle(executionPlan)
    {
      currentMilestone := None;
      if executionPlan.Some? {
        var ms := executionPlan.value.milestones;
        var i := 0;
        while i < |ms| && ms[i].status == Completed
          invariant 0 <= i <= |ms| && forall k :: 0 <= k < i ==> ms[k].status == Completed
        {
          i := i + 1;
        }
        FirstOpenIs(ms, i);
        if i < |ms| {
          currentMilestone := Some(ms[i].title);
        }
      }
    }

    method CreatePlan(steps: seq<string>, context: Context)
      requires Valid()
      modifies this
      ensures Valid() && Abstract() == Step(old(Abstract()), Create(steps, context))
    {
      StepKeepsInv(Abstract(), Create(steps, context));
      if executionPlan.None? {
        executionPlan := Some(Fresh(steps, context.(criteria := Criteria(acceptanceCriteria))));
        SyncCurrentMilestone();
        AdvanceInPlace();
      }
    }

    /** The update shared by every caller of the advance. */
    method AdvanceInPlace()
      modifies this`executionPlan, this`currentMilestone
      ensures old(executionPlan).None? ==> Abstract() == old(Abstract())
      ensures old(executionPlan).Some? ==>
                executionPlan == Some(Advance(old(executionPlan).value))
                && currentMilestone == CurrentTitle(executionPlan)
    {
      if executionPlan.None? {
        return;
      }
      var plan := executionPlan.value;
      plan := plan.(status := InProgress);
      var i := FirstOpen(plan.milestones);
      if i < |plan.milestones| {
        var m := plan.milestones[i];
        m := m.(status := InProgress);
        var t := FirstTask(m.tasks, Pending);
        if t < |m.tasks| {
          m := m.(tasks := m.tasks[t := m.tasks[t].(status := InProgress)]);
        }
        plan := plan.(milestones := plan.milestones[i := m]);
      }
      executionPlan := Some(plan);
      SyncCurrentMilestone();
    }

    /** Makes the plan from what an older session has stored, where there is none. */
    method RestorePlan(steps: seq<string>, context: Context)
      requires Valid()
      modifies this
      ensures Valid() && Abstract() == Step(old(Abstract()), Restore(steps, context))
    {
      StepKeepsInv(Abstract(), Restore(steps, context));
      if executionPlan.None? {
        executionPlan := Some(Fresh(steps, context.(criteria := Criteria(acceptanceCriteria))));
        SyncCurrentMilestone();
      }
    }

    method AdvanceExecutionPlan()
      requires Valid()
      modifies this
      ensures Valid() && Abstract() == Step(old(Abstract()), AdvanceOp)
    {
      StepKeepsInv(Abstract(), AdvanceOp);
      AdvanceInPlace();
    }

    method RecordPlanProgress()
      requires Valid()
      modifies this
      ensures Valid() && Abstract() == Step(old(Abstract()), ProgressOp)
    {
      StepKeepsInv(Abstract(), ProgressOp);
      if executionPlan.None? {
        return;
      }
      var plan := executionPlan.value;
      var i := FirstOpen(plan.milestones);
      if i == |plan.milestones| {
        return;
      }
      var m := plan.milestones[i];
      var t := FirstTask(m.tasks, InProgress);
      if t < |m.tasks| {
        m := m.(tasks := m.tasks[t := m.tasks[t].(status := Completed)]);
      }
      t := FirstTask(m.tasks, Pending);
      if t < |m.tasks| {
        m := m.(tasks := m.tasks[t := m.tasks[t].(status := InProgress)]);
      } else {
        m := m.(status := Completed);
      }
      plan := plan.(milestones := plan.milestones[i := m]);
      if FirstOpen(plan.milestones) == |plan.milestones| {
        plan := plan.(status := Completed);
      }
      executionPlan := Some(plan);
      SyncCurrentMilestone();
    }

    /** Ends the run with an outcome and carries it over to the plan. */
    method FinishPlanState(outcome: Completion)
      requires Valid()
      modifies this
      ensures Valid() && Abstract() == Step(old(Abstract()), FinishOp(outcome))
    {
      StepKeepsInv(Abstract(), FinishOp(outcome));
      completionStatus := outcome;
      if executionPlan.None? {
        return;
      }
      var plan := executionPlan.value;
      match completionStatus {
        case Done => plan := CompletePlan(plan);
        case Stuck | UserInputRequired | ResourceLimitReached => plan := BlockPlan(plan, completionStatus);
        case Working | Cancelled =>
      }
      executionPlan := Some(plan);
      SyncCurrentMilestone();
    }

    /** What a run does to stored state before its first turn. */
    method ResumeRun()
      requires Valid()
      modifies this
      ensures Valid() && Abstract() == Step(old(Abstract()), Resume)
    {
      StepKeepsInv(Abstract(), Resume);
      AdvanceInPlace();
      SyncCurrentMilestone();
      completionStatus := Working;
    }

    /** Replaces the plan's milestones by one with the new steps. */
    method ApplyRevision(existing: Plan, reason: string, steps: seq<string>)
      requires executionPlan == Some(existing) && MayRevise(existing, reason, steps)
      modifies this`executionPlan, this`currentMilestone
      ensures executionPlan == Some(Revise(existing, reason, steps, acceptanceCriteria))
      ensures currentMilestone == CurrentTitle(executionPlan)
    {
      var architecture, validation, criteria := MergeContext(existing.milestones, acceptanceCriteria);
      var milestone := Milestone("Implementation", RevisedTasks(steps, CompletedSteps(existing.milestones)),
                                 architecture, validation, criteria, Pending);
      assert milestone == RevisedMilestone(existing, steps, acceptanceCriteria);
      var notes := PushUniqueBounded(existing.notes, BoundedSummary(reason), 16);
      executionPlan := Some(Plan(existing.revision + 1, [milestone], notes, InProgress));
      AdvanceInPlace();
    }

    method ReviseExecutionPlan(reason: string, steps: seq<string>) returns (accepted: bool)
      requires Valid()
      modifies this
      ensures Valid() && Abstract() == Step(old(Abstract()), ReviseOp(reason, steps))
      ensures accepted <==> Accepts(old(Abstract()), ReviseOp(reason, steps))
    {
      StepKeepsInv(Abstract(), ReviseOp(reason, steps));
      if IsBlank(reason) || steps == [] || executionPlan.None? {
        return false;
      }
      var existing := executionPlan.value;
      if existing.revision >= MAX_PLAN_REVISIONS + 1 {
        return false;
      }
      if Steps(existing.milestones) == steps {
        return false;
      }
      ApplyRevision(existing, reason, steps);
      accepted := true;
    }
  }

}
