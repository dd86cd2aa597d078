# Verification model of the agent harness

A Dafny model of the parts of the harness whose behaviour is decided across many branches: the agent run
loop, the execution plan it keeps, checkpoints and undo, context and history budgets, MCP connection
entries, redaction, approvals, child-agent collection and cost estimates.  The language model, the tools,
the verifier, the file system outside the harness, the clock and MCP servers are inputs, so every result
holds for all their behaviours.

`dafny verify dfyconfig.toml` checks everything.

| file | models |
|---|---|
| `AgentMachine.dfy` | the run loop as a step machine: limits, tool calls, verification, completion gate |
| `AgentSafety.dfy` | the invariant every outcome of every turn keeps |
| `AgentResume.dfy` | how unresolved errors are stored as a list and read back by the next run |
| `AgentRuns.dfy` | results about whole runs and chains of runs of one task |
| `AgentCompletion.dfy` | when exactly a final response completes a task |
| `AgentFailures.dfy` | how often one failure can be counted in a run |
| `AgentLimits.dfy` | for which configurations the failure limit is kept |
| `AgentRevisions.dfy` | how many plan revisions a task can have, by mode |
| `AgentStorage.dfy` | what the session keeps of a run that broke off, and chains of runs |
| `AgentReview.dfy` | when an edit can go unshown behind an inspection |
| `AgentStickyErrors.dfy` | the errors only a waiver removes |
| `AgentGaps.dfy` | automatic inspections, their window of results, and waivers |
| `AgentRunner.dfy` | the loop as imperative code: the mutable locals of `run` as fields, its loops as loops, proved against the step machine |
| `ExecutionPlan.dfy` | plan creation, progress, finishing and revision, as functions and as in-place updates |
| `Checkpoints.dfy` | checkpoints, recorded changes, conflicts, undo, nested undo |
| `ContextPacking.dfy`, `Utf8Text.dfy` | prioritised packing and cuts at UTF-8 boundaries (section 4 of RFC 3629) |
| `ModelHistory.dfy`, `TurnBudget.dfy` | history trimming, and how history, attachments and packing share a turn |
| `McpConnection.dfy` | one MCP server entry under interleaved operations |
| `Redaction.dfy` | the fold of replace-all passes over registered secrets |
| `ApprovalLedger.dfy`, `ChildBatch.dfy`, `CostEstimate.dfy` | one-time approvals, child results, fixed-point prices |
| `Text.dfy`, `Wrappers.dfy` | strings, bounded lists and `Option` |

## What the documentation says and the code does not do

The model follows the code.  It differs from what the repository's own text promises in these places, each
proved as a lemma with the exact condition or with the inputs that show it:

- "Maximum times the same failure may recur before the run is blocked" (crates/harness-agent/src/lib.rs:55-57)
  is kept by every run exactly when final responses are not inspected automatically: outside CODE mode, without
  Git or without a verifier (`AgentLimits.LimitIsKeptExactlyWhen`).  If each inspection makes at most one report,
  as with the one-step plan of the code, it is also kept for a limit of at most one, and for no higher one
  (`AgentLimits.LimitIsKeptWithFewReportsExactlyWhen`).  The reason is that a failure of the automatic inspection
  is counted without its count ever stopping the run (`AgentGaps.FinalCheckStopsExactlyWhen`).  It can pass the
  limit by the number of automatic inspections, of which there are at most as many as the limit between two
  resets of the no-progress count (`AgentFailures.AnyFailureIsCountedBoundedly`), and over a run by any number
  (`AgentFailures.CheckFailurePassesItsLimit`).
- "The runtime does not mark a task done while recorded failures remain unresolved" (README.md:61-62) holds
  within one run (`AgentRuns.DoneMeansDone`).  Errors are stored as lines and read back without their keys.
  The first resume finds every key again (`AgentResume.FirstResumeKeepsEveryKey`), but once a resumed run has
  listed its errors again, the next resume drops every message without a separator
  (`AgentResume.SecondResumeForgetsExactlyWhen`).  Over three runs: an error is recorded, a bare answer is
  refused because of it, and the same bare answer then completes the task
  (`AgentCompletion.ErrorsForgottenByTheThirdRun`).
- "The final diff is passed to the model after the last edit before completion" (README.md:678-679) holds of
  edits that did not fail, within one run (`AgentRuns.DoneMeansDone`).  It fails in two ways.
  A call that edits files and still reports an error leaves an earlier inspection standing, unless a check of
  the same call inspects again: exactly then a call hides an edit (`AgentReview.CallShowsEditsExactlyWhen`),
  runs without such a call show every edit before Done (`AgentReview.DoneShowsEveryEdit`), and two turns are
  enough to end Done without (`AgentReview.FailedEditGoesUnreviewed`).
  And a run that breaks off after a successful edit, because the change cannot be recorded or a verification
  command is refused, leaves the session with the state from before the edit: what is stored is a valid start
  exactly when no call lost an edit that way (`AgentStorage.RunLeavesValidStartExactlyWhen`), and otherwise a
  bare answer in the next run ends Done with the edit never inspected (`AgentStorage.LostEditGoesUnreviewed`).
- A diff inspection that was missed once, with Git and a verifier, and a verifier that could not start once,
  with or without Git, block the task whatever succeeds later, unless waived by name
  (`AgentStickyErrors.StickyErrorBlocksForever`); no validation command of the model can clear them, since no text
  the code takes for one is such a name (`AgentStickyErrors.NamesAreNoCommands`).  With 200 stored check results
  every automatic final inspection is missed (`AgentGaps.DiffFoundExactlyWhen`).
- "No successful relevant verification has run since the most recent edit" is recorded only together with a
  missing diff inspection, so it never decides completion on its own (`AgentCompletion.CompletesExactlyWhen`).
- Revisions are "capped at three per task" (docs/architecture.md:109-110): the cap is per plan, and a planning
  answer installs a new plan at revision 1.  The cap holds of every task in which nothing was installed before
  exactly in the modes other than PLAN (`AgentRevisions.ThreeRevisionsExactlyWhen`).  In PLAN mode there are at
  most six over the history of a task, which installs at most one (`AgentRuns.AtMostSixRevisionsOfOneTask`), and
  a run with a failing tool reaches six (`AgentRevisions.SixRevisionsInOneRun`).
- Completed milestones may keep Blocked or InProgress tasks after a resume
  (`ExecutionPlan.StepKeepsCleanExactlyWhen`, `ExecutionPlan.ResumedMilestoneKeepsBlockedTask`).
- Undo restores a recorded file only if it was listed or absent at checkpoint time; an unlisted one is lost
  (`Checkpoints.UndoAfterRun`).
- A cancelled MCP call may leave its client connected (`McpConnection.CancelledCallKeepsClientExactlyWhen`).
- The word "redacted" can be registered as a secret and is not removed from every text
  (`Redaction.MarkerWordIsAcceptedButUnsafe`).
- Context budgets above 0xC0000000 tokens make the running total wrap
  (`ContextPacking.PackingSoundExactlyForSafeBudgets`).

## Model

| member | source | states |
|---|---|---|
| `AgentRuns.DoneMeansDone` | crates/harness-agent/src/lib.rs:2600-2808 | For all inputs: a run that ends Done has no unresolved error and an empty error list; in CODE mode with changed files a diff inspection stands at or after the last edit that was not an error; the plan and every milestone are Completed |
| `AgentRuns.ResourcesStayBounded` | crates/harness-agent/src/lib.rs:2292-3248 | For all inputs and at every point: at most maxTurns + 1 model requests, at most maxToolCalls executions, an identical call executed at most max(1, limit) times, a tool failure counted at most max(1, limit) times, result and file lists at most 200 long; an outcome is returned only within the turn, token and cost limits |
| `AgentRuns.EveryRunEnds` | crates/harness-agent/src/lib.rs:2292-2304 | A run stops within maxTurns + 1 passes of the loop, whatever the environment does |
| `AgentRuns.PlanStaysSound` | crates/harness-agent/src/lib.rs:1125-1230 | Whatever a run does to the plan is a run of the plan machine, so the plan keeps its invariant |
| `AgentRuns.PlanAfterDone` | crates/harness-agent/src/lib.rs:1194-1230 | Any history of plan operations that ends by finishing Done leaves a completed plan without a current milestone |
| `AgentSafety.RunIsGood` | crates/harness-agent/src/lib.rs:2292-3250 | From any live state, every run ends in a state with all bounds, and each pass of the loop counts exactly one turn |
| `AgentSafety.TurnIsGood` | crates/harness-agent/src/lib.rs:2292-2610 | One pass of the loop keeps the invariant on every path through it |
| `AgentSafety.ToolStepIsGood` | crates/harness-agent/src/lib.rs:2819-3248 | One tool call keeps the invariant on every path: refused, repeated, denied, failed, blocked or booked |
| `AgentSafety.SuccessKeepsReady` | crates/harness-agent/src/lib.rs:3005-3013 | Booking a successful result keeps the invariant: an inspection is claimed only if one stands at or after the last successful edit |
| `AgentSafety.VerificationIsQuiet` | crates/harness-agent/src/lib.rs:3426-3721 | Verification touches no counter of calls or turns, only claims an inspection it logged, and leaves the error list equal to the map |
| `AgentSafety.ReportsAreQuiet` | crates/harness-agent/src/lib.rs:3537-3685 | The same for any sequence of reports, including one cut short at the failure limit |
| `AgentSafety.GateOpensExactlyWhen` | crates/harness-agent/src/lib.rs:2728-2808 | The gate completes the task if and only if no error is left, the changed files of a CODE task are inspected, and the end hooks pass |
| `AgentCompletion.CompletesExactlyWhen` | crates/harness-agent/src/lib.rs:2600-2808 | A final response completes the task if and only if its waivers leave no error, the diff was inspected before it, and the end hooks pass; no validation is required |
| `AgentCompletion.PlainAnswerCompletesExactlyWhen` | crates/harness-agent/src/lib.rs:2292-2808 | A turn that just answers completes the task if and only if no error but a provider failure is recorded and nothing is uninspected |
| `AgentCompletion.BareAnswerCompletesResumedTaskExactlyWhen` | crates/harness-agent/src/lib.rs:2132-2140 | A resumed, inspected task is completed without any work if and only if no stored line is read back under a key other than the provider's |
| `AgentResume.LineSplitsExactlyWhen` | crates/harness-agent/src/lib.rs:2273-2278 | A line written in a run gives back its key exactly when no separator starts inside the key or across its end |
| `AgentResume.TextOfKey` | crates/harness-agent/src/lib.rs:2273-2278 | The text of a key determines the key |
| `AgentGaps.DiffFoundExactlyWhen` | crates/harness-agent/src/lib.rs:2702-2721 | The final inspection finds a passed diff exactly when one is among the reports that still fit behind the old length of the 200-entry list |
| `AgentGaps.ReportsPush` | crates/harness-agent/src/lib.rs:3573-3592 | Booked reports leave the latest 200 results of the old list and the reports, up to the first that reached its failure limit |
| `AgentGaps.WaivesReportExactlyWhen` | crates/harness-agent/src/lib.rs:1478-1489 | A waiver names a reported failure by its full key, or by its bare command unless it is the diff inspection |
| `AgentRuns.StartIsLive` | crates/harness-agent/src/lib.rs:2103-2140 | A run started from any valid stored state, its plan made from the stored text where there is none, satisfies the loop invariant and agrees with what the session has |
| `AgentRuns.AtMostSixRevisionsOfOneTask` | crates/harness-agent/src/lib.rs:1271-1290 | Over the whole stored history of a task at most six revisions are accepted |
| `AgentStorage.CallKeepsSnapshotHonestExactlyWhen` | crates/harness-agent/src/lib.rs:2886-3247 | What the session has after a call claims an inspection only rightly if and only if the call is not a successful, uninspected edit on an inspected state that breaks off unrecorded or refused |
| `AgentStorage.RunKeepsSnapshotHonestExactlyWhen` | crates/harness-agent/src/lib.rs:2249-3365 | The same of a whole run: exactly when none of its calls lost an edit |
| `AgentStorage.RunLeavesValidStartExactlyWhen` | crates/harness-session/src/lib.rs:533-534 | What a run leaves stored is a valid start for the next run if and only if no call of it lost an edit |
| `AgentStorage.SessionsKeepValid` | crates/harness-agent/src/lib.rs:2048-2140 | Over any chain of runs of a task that lose no edit the stored state stays a valid start, so the results on runs hold of resumed ones |
| `AgentReview.CallShowsEditsExactlyWhen` | crates/harness-agent/src/lib.rs:2979-3229 | A call keeps "inspected means that the last edit of any kind was shown" if and only if it is not an executed error with changed files on an inspected state that no check of the same call inspects again |
| `AgentReview.RunShowsEdits` | crates/harness-agent/src/lib.rs:2292-3250 | A run without such a call keeps it throughout |
| `AgentReview.DoneShowsEveryEdit` | crates/harness-agent/src/lib.rs:2600-2808 | When such a run ends Done in CODE mode with changed files, the last edit of any kind was shown |
| `AgentReview.FailedEditGoesUnreviewed` | crates/harness-agent/src/lib.rs:2979-3229 | From every stored task that is inspected and without errors, when the limits leave room: a turn with a failed edit and a success of the same tool, then a bare answer, end Done with that edit never shown |
| `AgentFailures.AnyFailureIsCountedBoundedly` | crates/harness-agent/src/lib.rs:2703-2763 | In any run a failure of any kind is counted at most max(1, limit) times plus once for each automatic inspection, and there are at most max(1, limit) of those between resets of the no-progress count |
| `AgentFailures.CheckFailurePassesItsLimit` | crates/harness-agent/src/lib.rs:2703-2763 | For every limit of at least two and every k the other limits leave room for: a run from the start that counts one check failure k times and goes on |
| `AgentFailures.ReportsWithin` | crates/harness-agent/src/lib.rs:3537-3685 | Reports that do not stop the run leave every count below the limit or where it was |
| `AgentStickyErrors.UnseenDiffIsRecorded` | crates/harness-agent/src/lib.rs:2685-2741 | Every automatic inspection after which the run goes on has found the diff or recorded the error |
| `AgentStickyErrors.OnlyItsNameWaives` | crates/harness-agent/src/lib.rs:1478-1489 | Such an error is waived by its own name and nothing else |
| `AgentCompletion.SecondRunStillRefuses` | crates/harness-agent/src/lib.rs:2728-2808 | A resumed run that just answers is refused as long as an error of the run before is left |
| `AgentCompletion.ErrorsForgottenByTheThirdRun` | crates/harness-agent/src/lib.rs:2273-2278 | Three runs: errors are recorded; a bare answer is refused because of them; the same bare answer is Done when no message has a separator |
| `AgentResume.FirstResumeKeepsEveryKey` | crates/harness-agent/src/lib.rs:2273-2278 | In whatever order the list was stored, the first resume finds every key but the guard's and every message again, when no key contains a separator |
| `AgentResume.SecondResumeForgetsExactlyWhen` | crates/harness-agent/src/lib.rs:2273-2278 | A map that was itself read back and listed again is forgotten completely exactly when each message is without a separator or starts like a guard line |
| `AgentResume.NothingReadExactlyWhen` | crates/harness-agent/src/lib.rs:2132-2140 | A stored list is read back as no error at all exactly when each line has no separator or is a guard line |
| `AgentGaps.FinalCheckStopsExactlyWhen` | crates/harness-agent/src/lib.rs:2703-2763 | Whatever an automatic inspection reports, or when the verifier cannot run, its failures are counted, and the run goes on if and only if the diff was found or the number of final responses without progress leaves room |
| `AgentLimits.LimitIsKeptExactlyWhen` | crates/harness-agent/src/lib.rs:2679-2763 | For every mode, Git, verifier and failure limit: all runs, under all other limits, count every failure at most max(1, limit) times if and only if the mode is not CODE or Git or the verifier is missing |
| `AgentLimits.LimitIsKeptWithFewReportsExactlyWhen` | crates/harness-agent/src/lib.rs:2690-2763 | The same of runs whose automatic inspections make at most one report each: if and only if, in addition, the limit is at most one |
| `AgentLimits.LimitHolds` | crates/harness-agent/src/lib.rs:2292-3250 | The limit in any run of such a configuration, for any failure |
| `AgentLimits.OneCheckTooMany` | crates/harness-agent/src/lib.rs:2703-2763 | A run from any stored uninspected change that counts one check failure k + 1 times, by k cycles of a failed check and a call |
| `AgentLimits.MixedCheckTwice` | crates/harness-agent/src/lib.rs:2703-2763 | A run of three turns that counts a failure reported together with the diff twice, whatever the limit is |
| `AgentRevisions.ThreeRevisionsExactlyWhen` | crates/harness-agent/src/lib.rs:1271-1290 | For every mode: all tasks in which nothing was installed before have at most three accepted revisions after any run if and only if the mode is not PLAN |
| `AgentRevisions.AtMostThreeRevisionsOutsidePlanMode` | crates/harness-agent/src/lib.rs:2663-2676 | Outside PLAN mode a run installs nothing, so the cap of three holds over the history of the task |
| `AgentRevisions.SixRevisionsInOneRun` | crates/harness-agent/src/lib.rs:2509-2676 | A run from the start in PLAN mode: a plan revised three times while reading fails, a planning answer installed and refused, three more revisions; six are accepted |
| `AgentStorage.LostEditGoesUnreviewed` | crates/harness-agent/src/lib.rs:3121-3126 | From a valid store without error lines that has changed files and claims an inspection: a run that edits and is refused its check, then a run that just answers, ends Done with the last successful edit never inspected |
| `AgentStickyErrors.StickyErrorBlocksForever` | crates/harness-agent/src/lib.rs:3686-3717 | With the error of a missed inspection (Git and a verifier) or of a verifier that could not run (always), no run ends Done unless that error is waived by name |
| `AgentStickyErrors.NamesAreNoCommands` | crates/harness-agent/src/lib.rs:1589-1612 | Neither name is a text the code takes for a validation command |
| `AgentRunner.TaskRunner.AddChangedFiles` | crates/harness-agent/src/lib.rs:3058-3063 | The loop that adds changed files, each once, at most 200 |
| `AgentRunner.TaskRunner.BookReports` | crates/harness-agent/src/lib.rs:3535-3721 | The loop over reports with its early return, equal to the step machine's |
| `AgentRunner.TaskRunner.RunToolCalls` | crates/harness-agent/src/lib.rs:2819-3248 | The loop over a response's calls |
| `AgentRunner.TaskRunner.MarkLatestUnrelated` | crates/harness-agent/src/lib.rs:1496-1508 | The reversed search marks the latest failed result of the command and no other |
| `AgentRunner.TaskRunner.ApplyUnrelatedDispositions` | crates/harness-agent/src/lib.rs:1470-1516 | The loop over waivers, then the rebuilt error list |
| `AgentRunner.TaskRunner.RunTurns` | crates/harness-agent/src/lib.rs:2292-3250 | The loop over turns, equal to the step machine's run |
| `AgentRunner.TaskRunner.Run` | crates/harness-agent/src/lib.rs:2021-3251 | A whole run keeps every ceiling, always stops, and when it ends Done leaves no error, an inspected diff and a completed plan |
| `ExecutionPlan.FreshPlanProgress` | crates/harness-agent/src/lib.rs:1078-1192 | A fresh plan of n steps, advanced once, is Completed after exactly n + ceil(n/4) - 1 progress calls and not before; its milestones hold the steps in order |
| `ExecutionPlan.ProgressDoesOneUnit` | crates/harness-agent/src/lib.rs:1157-1192 | Every progress call does one unit of work, whatever the plan looks like |
| `ExecutionPlan.CompletedExactlyAfterItsWork` | crates/harness-agent/src/lib.rs:1157-1192 | Any open plan becomes Completed after exactly as many progress calls as it has work |
| `ExecutionPlan.ChunksHoldSteps` | crates/harness-agent/src/lib.rs:1083-1118 | Splitting steps into milestones of four loses, repeats and reorders nothing |
| `ExecutionPlan.StepKeepsInv` | crates/harness-agent/src/lib.rs:1125-1338 | Every operation keeps: Completed milestones form a prefix without Pending tasks, a Completed plan has only Completed milestones, the current milestone is the first open one |
| `ExecutionPlan.RunKeepsInv` | crates/harness-agent/src/lib.rs:1125-1338 | The same over any interleaving of operations |
| `ExecutionPlan.RevisionCounts` | crates/harness-agent/src/lib.rs:1271-1338 | The revision number counts the accepted revisions of a plan |
| `ExecutionPlan.AtMostThreeRevisionsPerInstall` | crates/harness-agent/src/lib.rs:1271-1290 | Over any history at most three revisions are accepted for the first plan and for each installed one |
| `ExecutionPlan.RevisionKeepsCompletedSteps` | crates/harness-agent/src/lib.rs:1271-1338 | Helper, by the definitions: a refused revision changes nothing; an accepted one has the new steps and marks Completed exactly those whose text was Completed before |
| `ExecutionPlan.ClosesCompletelyExactlyWhenClean` | crates/harness-agent/src/lib.rs:1157-1192 | Closing a milestone leaves only Completed tasks exactly when at most one task was in progress and none was blocked |
| `ExecutionPlan.AdvanceKeepsCleanExactlyWhen` | crates/harness-agent/src/lib.rs:1135-1155 | Advancing keeps that exactly when no task is in progress or none is pending |
| `ExecutionPlan.BlockKeepsCleanExactlyWhen` | crates/harness-agent/src/lib.rs:1194-1230 | Blocking keeps it exactly when no task is in progress |
| `ExecutionPlan.StepKeepsCleanExactlyWhen` | crates/harness-agent/src/lib.rs:1125-1338 | Which operations keep it, exactly |
| `ExecutionPlan.GuardedRunStaysClean` | crates/harness-agent/src/lib.rs:1125-1338 | A run of such operations keeps it throughout |
| `ExecutionPlan.CompletePlan` | crates/harness-agent/src/lib.rs:1199-1207 | The loops that complete every milestone and task |
| `ExecutionPlan.BlockPlan` | crates/harness-agent/src/lib.rs:1208-1226 | The block of the first open milestone |
| `ExecutionPlan.MergeContext` | crates/harness-agent/src/lib.rs:1300-1313 | Merges the old plan's architecture, validation and criteria, without repetition and bounded |
| `ExecutionPlan.TaskRun.CreatePlan` | crates/harness-agent/src/lib.rs:1078-1123 | Makes the plan where there is none |
| `ExecutionPlan.TaskRun.SyncCurrentMilestone` | crates/harness-agent/src/lib.rs:1125-1133 | The goal's current milestone is the first open one |
| `ExecutionPlan.TaskRun.AdvanceExecutionPlan` | crates/harness-agent/src/lib.rs:1135-1155 | Advances the plan in place |
| `ExecutionPlan.TaskRun.RecordPlanProgress` | crates/harness-agent/src/lib.rs:1157-1192 | Records progress in place |
| `ExecutionPlan.TaskRun.FinishPlanState` | crates/harness-agent/src/lib.rs:1194-1230 | Finishes the plan in place |
| `ExecutionPlan.TaskRun.ResumeRun` | crates/harness-agent/src/lib.rs:2119-2130 | A stored plan starts again |
| `ExecutionPlan.TaskRun.RestorePlan` | crates/harness-agent/src/lib.rs:2103-2118 | Makes a plan from the stored text where there is none |
| `ExecutionPlan.TaskRun.ReviseExecutionPlan` | crates/harness-agent/src/lib.rs:1271-1338 | Revises the plan in place, or leaves it alone and says so |
| `Checkpoints.UndoAfterRun` | crates/harness-git/src/lib.rs:559-607 | After any mix of recorded edits and outside edits without conflict, undo gives a recorded path its creation-time snapshot if and only if it was listed or absent then, and leaves every other path as it is |
| `Checkpoints.UndoAloneMeetsNoConflict` | crates/harness-git/src/lib.rs:698-735 | Without outside edits to recorded paths there is no conflict |
| `Checkpoints.SecondUndoChangesNothing` | crates/harness-git/src/lib.rs:710-761 | Helper, by the definitions: undoing twice is undoing once |
| `Checkpoints.LevelUndone` | crates/harness-git/src/lib.rs:710-761 | One level is undone to its start if and only if its end state is intact and its paths were listed or absent |
| `Checkpoints.NestedUndoIsLastInFirstOut` | crates/harness-git/src/lib.rs:559-761 | Undoing n nested checkpoints newest first restores the first state without conflict if and only if every recorded path of every level was listed or absent when its checkpoint was made |
| `Checkpoints.ShadowCheckpointStore.Create` | crates/harness-git/src/lib.rs:559-607 | A checkpoint snapshots the listed files and changes none |
| `Checkpoints.ShadowCheckpointStore.RecordHarnessChange` | crates/harness-git/src/lib.rs:698-708 | Records a path's current snapshot in its checkpoint |
| `Checkpoints.ShadowCheckpointStore.CollectConflicts` | crates/harness-git/src/lib.rs:715-735 | The conflict list is exactly the recorded paths that differ from their recorded snapshot, each once |
| `Checkpoints.ShadowCheckpointStore.WriteBaseline` | crates/harness-git/src/lib.rs:737-752 | Writes, or deletes, exactly the recorded paths |
| `Checkpoints.ShadowCheckpointStore.Undo` | crates/harness-git/src/lib.rs:710-761 | Any conflict leaves every file alone; otherwise exactly the recorded paths are restored and reported |
| `Utf8Text.CutAtBoundary` | crates/harness-context/src/lib.rs:625-642 | Both sides of a cut at a boundary are valid UTF-8 |
| `Utf8Text.JoinValid` | crates/harness-context/src/lib.rs:625-642 | Valid pieces join to valid text |
| `Utf8Text.FloorIsNearest` | crates/harness-context/src/lib.rs:632-640 | The backward search stops at the last boundary not after the limit |
| `Utf8Text.CeilIsNearest` | crates/harness-agent/src/lib.rs:594-600 | The forward search stops at the first boundary not before the start |
| `Utf8Text.TruncatedFits` | crates/harness-context/src/lib.rs:625-642 | A truncated text fits, is valid UTF-8, and starts with a prefix of the text; short texts are untouched |
| `Utf8Text.TruncateBytes` | crates/harness-context/src/lib.rs:625-642 | The loop computes that truncation |
| `Utf8Text.HistoryTrimmedFits` | crates/harness-agent/src/lib.rs:577-606 | Trimmed tool history fits and is valid UTF-8; with room for the marker both ends of the text stay |
| `Utf8Text.TruncateHistoryText` | crates/harness-agent/src/lib.rs:577-606 | The loops compute that trimming |
| `ContextPacking.PackingIsSound` | crates/harness-context/src/lib.rs:473-566 | Tokens used equal the sum over included items and never exceed the budget; each candidate yields its own item; required ones are included; none left out would still fit |
| `ContextPacking.PackingSoundExactlyForSafeBudgets` | crates/harness-context/src/lib.rs:473-566 | This holds for all candidate lists if and only if the budget is at most 0xC0000000 |
| `ContextPacking.LargeBudgetWraps` | crates/harness-context/src/lib.rs:512-556 | Above that, five candidates make the 32-bit total wrap |
| `ContextPacking.EarlierCandidatesComeFirst` | crates/harness-context/src/lib.rs:473-566 | Adding later candidates never changes what earlier ones got |
| `ContextPacking.SortIsStable` | crates/harness-context/src/lib.rs:300-301 | Sorting by key keeps the order of equal keys |
| `ContextPacking.SystemAndRequestComeFirst` | crates/harness-context/src/lib.rs:217-260 | System instructions and the request come first and stay whole whenever they fit on their own |
| `ContextPacking.ParentToChildOrderSurvives` | crates/harness-core/src/workspace.rs:819-861 | Parent-to-child instruction order survives the sort, even where precedence is capped at 255 |
| `ContextPacking.ContextAssembly.AddItem` | crates/harness-context/src/lib.rs:473-566 | Adds one candidate in place as the packing function does |
| `ContextPacking.BuildForContextWindowReserving` | crates/harness-context/src/lib.rs:217-471 | The assembly equals the packing of the sorted candidates; only a zero budget is refused |
| `ModelHistory.TrimmingKeepsProtocol` | crates/harness-agent/src/lib.rs:530-575 | Helper, by the definitions: message order, roles, call ids, call names and result ids are unchanged |
| `ModelHistory.TrimmedFitsExactlyWhen` | crates/harness-agent/src/lib.rs:492-575 | The trimmed history fits if and only if it fitted before or its non-tool part without arguments fits |
| `ModelHistory.TrimModelHistoryToBudget` | crates/harness-agent/src/lib.rs:530-575 | The in-place loops compute that trimming |
| `TurnBudget.PackedWithinReserve` | crates/harness-agent/src/lib.rs:2336-2358 | Packing keeps to what history and attachments leave |
| `TurnBudget.BudgetIsThreeQuartersExactlyWhen` | crates/harness-context/src/lib.rs:51-62 | The budget is within three quarters of the window if and only if the window has at least two tokens |
| `TurnBudget.RequestFitsExactlyWhen` | crates/harness-agent/src/lib.rs:2332-2358 | Packing, history and attachments together fit the turn's budget if and only if trimmed history and attachments leave a token, or use the budget up while every candidate is empty or too big to be cut to one token |
| `TurnBudget.SystemTextTakesTheToken` | crates/harness-agent/src/lib.rs:2332-2358 | With any system text there is always such a candidate, so the second case never arises |
| `TurnBudget.TurnFitsItsWindow` | crates/harness-agent/src/lib.rs:2332-2358 | Whenever the trimmed history and the attachments leave a token, the whole request is within the configured budget and three quarters of the window |
| `TurnBudget.TurnFitsWhenTheFixedPartFits` | crates/harness-agent/src/lib.rs:2332-2358 | The same from the untrimmed history |
| `TurnBudget.PrepareRequest` | crates/harness-agent/src/lib.rs:2332-2358 | The turn's preparation in the order of the code |
| `McpConnection.InterleavingsKeepInv` | crates/harness-mcp/src/lib.rs:263-711 | Under every interleaving of lock phases a held client implies state Connected, and the remote calls issued never exceed the tool-call operations |
| `McpConnection.EveryRunFromStart` | crates/harness-mcp/src/lib.rs:263-711 | From the start: when no operation is between its lock phases, Connected holds exactly when a client is held and Connecting never shows |
| `McpConnection.PhaseLeavesInconsistentExactlyWhen` | crates/harness-mcp/src/lib.rs:618-711 | Helper, by the definitions: which refreshes leave state and client apart until their second phase, exactly |
| `McpConnection.RemoteCallExactlyWhen` | crates/harness-mcp/src/lib.rs:360-472 | The remote call is made exactly when a call of allowed size keeps an open client or connects a new one, finds its tool listed or among the first 500 acceptable descriptors discovered, and is not cancelled on the way |
| `McpConnection.CancelledCallKeepsClientExactlyWhen` | crates/harness-mcp/src/lib.rs:416-418 | A call is cancelled and leaves its client connected exactly when the cancellation comes after client and tool were found and before the remote call |
| `McpConnection.PagesCollectFirst` | crates/harness-mcp/src/lib.rs:717-777 | Page by page, with both early exits, the first 500 acceptable descriptors of all pages are collected |
| `McpConnection.DiscoveryEndsExactlyWhen` | crates/harness-mcp/src/lib.rs:717-777 | Against a server that always names a next page the loop asks forever if and only if it never gets 500 acceptable descriptors, for instance with empty pages |
| `McpConnection.SnapshotShowsConnectedExactlyWhen` | crates/harness-mcp/src/lib.rs:212-249 | A snapshot between operations shows Connected exactly when a client with an open transport is held |
| `McpConnection.ServerEntry.Ensure` | crates/harness-mcp/src/lib.rs:618-711 | Connects or reuses the client, on every path |
| `McpConnection.ServerEntry.CollectTools` | crates/harness-mcp/src/lib.rs:717-777 | Collects the first 500 acceptable descriptors of the pages |
| `McpConnection.ServerEntry.Close` | crates/harness-mcp/src/lib.rs:568-584 | Drops the client and restores a consistent state |
| `McpConnection.ServerEntry.RefreshFirstPhase` | crates/harness-mcp/src/lib.rs:263-300 | The first lock phase of a refresh |
| `McpConnection.ServerEntry.DisconnectServer` | crates/harness-mcp/src/lib.rs:311-324 | Disconnects |
| `McpConnection.ServerEntry.CallToolOnce` | crates/harness-mcp/src/lib.rs:360-472 | One call: its entry, its answer and how many remote calls it made |
| `Redaction.PassCreatesNoOccurrence` | crates/harness-core/src/redaction.rs:32-39 | A pass creates no occurrence of a value that does not overlap the marker |
| `Redaction.RegisteredValueRemoved` | crates/harness-core/src/redaction.rs:32-39 | Such a value is gone after all passes, for any text, any other values and any order |
| `Redaction.RedactionIsCompleteAndIdempotent` | crates/harness-core/src/redaction.rs:32-39 | When all values are such, the result contains none of them and redacting again changes nothing |
| `Redaction.BracketFreeIsClear` | crates/harness-core/src/redaction.rs:19-30 | Every registered value without brackets, other than "redacted", is clear of the marker |
| `Redaction.SafeExactlyWhenClearOfMarker` | crates/harness-core/src/redaction.rs:19-39 | A long enough value is removed whatever else registration has accepted, in any order, if and only if it does not overlap "[redacted]" |
| `Redaction.MarkerWordIsAcceptedButUnsafe` | crates/harness-core/src/redaction.rs:19-30 | "redacted" is accepted by registration and cannot be removed from every text |
| `Redaction.SecretRegistry.Register` | crates/harness-core/src/redaction.rs:19-30 | Ignores short values and duplicates, otherwise appends |
| `Redaction.SecretRegistry.Redact` | crates/harness-core/src/redaction.rs:32-39 | The loop over registered values |
| `ApprovalLedger.ApprovalsAreConserved` | crates/harness-agent/src/lib.rs:4611-4642 | Grants of an exact action equal its uses, plus one if pending, plus repeated grants while pending |
| `ApprovalLedger.UsesNeverExceedGrants` | crates/harness-agent/src/lib.rs:4611-4642 | Uses plus a pending approval never exceed grants |
| `ApprovalLedger.ApprovedPolicy.Extend` | crates/harness-agent/src/lib.rs:3886-3900 | Adds granted actions |
| `ApprovalLedger.ApprovedPolicy.EvaluateRequest` | crates/harness-agent/src/lib.rs:4625-4641 | A base Deny stays Deny, a base Allow consumes nothing, an Ask consumes its approval |
| `ChildBatch.CollectOutcomes` | crates/harness-agent/src/lib.rs:4248-4300 | For every arrival order, duplicates, bad indices, cancellation, timeout and disconnect: one outcome per child in start order, the first delivered one or the terminal error |
| `ChildBatch.ReportAll` | crates/harness-agent/src/lib.rs:4290-4300 | Fills empty slots with the terminal error; without one there are none |
| `ChildBatch.NoEmptySlots` | crates/harness-agent/src/lib.rs:4248-4290 | The unfinished counter is zero exactly when no slot is empty |
| `ChildBatch.FillingASlot` | crates/harness-agent/src/lib.rs:4250-4268 | A first result lowers the number of empty slots by one, a duplicate not at all |
| `CostEstimate.ParsingIsExact` | crates/harness-agent/src/lib.rs:1629-1639 | Parsing digits gives floor(value times 10^6) when that fits 64 bits and nothing otherwise |
| `CostEstimate.MissingFractionIsZero` | crates/harness-agent/src/lib.rs:1629-1639 | A missing fraction is an empty one |
| `CostEstimate.FractionIsFloor` | crates/harness-agent/src/lib.rs:1629-1639 | Six padded or cut digits are the floor of the fraction in millionths |
| `CostEstimate.EstimateIsExactExactlyBelowCap` | crates/harness-agent/src/lib.rs:1614-1627 | The saturating estimate is the floor of the exact cost if and only if that is at most the 64-bit maximum divided by a million |
| `CostEstimate.EstimateFromDigits` | crates/harness-agent/src/lib.rs:1614-1639 | Parsing and estimating together, for any digits |

## Left out

- Git subprocess calls, status parsing, blob and file reading, language detection: input and output around an external program; the worktree listing is an input set.
- File system errors in the middle of a restore, symbolic links, size limits, and paths that change between file and directory.
- File modes other than the execute bit: a restore writes 755 or 644, and snapshots compare contents and execute bit.
- The order in which a restore visits paths: the loops pick any order, which covers the sorted order of the code.
- Failures of the event store while a run reports its state: every such failure ends the run with an error and no outcome.
- The text of model answers: plans, revisions, directives and waivers are inputs as found by the parsers.
- Which shell commands count as validation commands or contain a Git diff, and how failure output is normalised: inputs of a call or report.
- AgentLimits.LimitIsKeptExactlyWhen: the limit on turns is any number, so that the runs that pass a failure limit near 2^32 have room; in the code it is a 32-bit number.
- Collisions between the strings that identify failures: two different failures with the same joined text count as one in the code and as two in the model.
- 32-bit overflow in context packing wraps, as in release builds; 64-bit overflow of the token counter and 32-bit overflow of the turn counter at a limit of 2^32 - 1 turns.
- Context compaction, session-start hooks and attachment validation: a turn either is prepared or ends the run.
- The error line a failing end hook adds is kept as an input line; it is not read back as a key.
- Tasks that start afresh because the stored one is Done: they start from an empty stored state.
- The choice of shell output lines for a summary: the summary is an input of its candidate.
- Token estimates cover item contents; headings and sources in the rendered prompt are not counted by the code either.
- McpConnection.ServerEntry.CollectTools: pages are a finite list, since a method that ends cannot read an endless stream; `McpConnection.DiscoveryEndsExactlyWhen` says for which streams the loop does not end.
- MCP transports, process start, timeouts and JSON rendering.
- A process killed in the middle of a turn: the ends of a run are the ends of a turn and every stop inside one; what is stored is what was reported last.
- Whether a plan update changed the plan, which decides whether it is reported at once: an input of the response.
- Resource listing and reading in MCP are modelled only as far as they change the entry.
- Regular log and field redaction: it calls the modelled function.
- Unicode normalisation: strings are sequences of scalar values, bytes where the code counts bytes.
- The wording of the refusal a read-only mode gives, and summaries inside check results: no branch reads them.
- Rendering, command lines, desktop and terminal interfaces, evaluation scripts and model providers.
