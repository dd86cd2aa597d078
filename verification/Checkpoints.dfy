/**
 Shadow checkpoints and undo (crates/harness-git/src/lib.rs, `ShadowCheckpointStore`).

 The worktree is a map from relative path to file.  A checkpoint holds the snapshots of the
 listed paths at creation time and, per path changed by the harness, the snapshot the harness
 left behind.  Undo first compares every recorded path with its recorded snapshot, and only when
 all of them match writes the baseline back.
 */
module Checkpoints {
  import opened Wrappers

  type Path = string
  type CheckpointId = string
  type Bytes = seq<bv8>

  /** A regular file: its bytes and its Unix permission bits. */
  datatype File = File(content: Bytes, mode: bv16)

  type Worktree = map<Path, File>

  datatype FileSnapshot = FileSnapshot(present: bool, content: Option<Bytes>, executable: bool)

  datatype Checkpoint = Checkpoint(baseline: map<Path, FileSnapshot>, recorded: map<Path, FileSnapshot>)

  const EXECUTE_BITS: bv16 := 0x49     // octal 111
  const EXECUTABLE_MODE: bv16 := 0x1ed // octal 755
  const PLAIN_MODE: bv16 := 0x1a4      // octal 644

  predicate IsExecutable(mode: bv16) {
    mode & EXECUTE_BITS != 0
  }

  function SnapshotOf(files: Worktree, path: Path): FileSnapshot {
    if path in files
    then FileSnapshot(true, Some(files[path].content), IsExecutable(files[path].mode))
    else FileSnapshot(false, None, false)
  }

  /** The two trees hold the same bytes and execute bits at every path. */
  ghost predicate SameSnapshots(a: Worktree, b: Worktree) {
    forall path: Path :: SnapshotOf(a, path) == SnapshotOf(b, path)
  }

  // ----- creating, recording, restoring -----

  function NewCheckpoint(files: Worktree, listing: set<Path>): Checkpoint {
    Checkpoint(map path | path in listing :: SnapshotOf(files, path), map[])
  }

  function Record(files: Worktree, checkpoint: Checkpoint, path: Path): Checkpoint {
    checkpoint.(recorded := checkpoint.recorded[path := SnapshotOf(files, path)])
  }

  function Conflicts(files: Worktree, checkpoint: Checkpoint): set<Path> {
    set path | path in checkpoint.recorded && SnapshotOf(files, path) != checkpoint.recorded[path]
  }

  /** The file a restore writes at a recorded path; None when it removes the path instead. */
  function BaselineFile(checkpoint: Checkpoint, path: Path): Option<File> {
    if path in checkpoint.baseline && checkpoint.baseline[path].present then
      var snapshot := checkpoint.baseline[path];
      Some(File(
             if snapshot.content.Some? then snapshot.content.value else [],
             if snapshot.executable then EXECUTABLE_MODE else PLAIN_MODE))
    else None
  }

  function Put(files: Worktree, path: Path, file: Option<File>): Worktree {
    match file
    case Some(f) => files[path := f]
    case None => files - {path}
  }

  /** The tree after the restore has handled `paths`. */
  function RestoredOn(files: Worktree, checkpoint: Checkpoint, paths: set<Path>): Worktree {
    (files - paths)
    + map path | path in paths && BaselineFile(checkpoint, path).Some? :: BaselineFile(checkpoint, path).value
  }

  /** The tree after a restore that found no conflict. */
  function Restored(files: Worktree, checkpoint: Checkpoint): Worktree {
    RestoredOn(files, checkpoint, checkpoint.recorded.Keys)
  }

  function AfterUndo(files: Worktree, checkpoint: Checkpoint): Worktree {
    if Conflicts(files, checkpoint) == {} then Restored(files, checkpoint) else files
  }

  // ----- what one undo does to each path -----

  lemma RestoredOnStep(files: Worktree, checkpoint: Checkpoint, paths: set<Path>, path: Path)
    ensures Put(RestoredOn(files, checkpoint, paths), path, BaselineFile(checkpoint, path))
            == RestoredOn(files, checkpoint, paths + {path})
  {
    var put := Put(RestoredOn(files, checkpoint, paths), path, BaselineFile(checkpoint, path));
    var all := RestoredOn(files, checkpoint, paths + {path});
    assert put.Keys == all.Keys;
    assert forall p :: p in put ==> put[p] == all[p];
  }

  lemma RestoredAt(files: Worktree, checkpoint: Checkpoint, path: Path)
    ensures path in checkpoint.recorded ==>
              (path in Restored(files, checkpoint) <==> BaselineFile(checkpoint, path).Some?)
              && (path in Restored(files, checkpoint) ==>
                    Restored(files, checkpoint)[path] == BaselineFile(checkpoint, path).value)
    ensures path !in checkpoint.recorded ==>
              (path in Restored(files, checkpoint) <==> path in files)
              && (path in files ==> Restored(files, checkpoint)[path] == files[path])
  {
  }

  lemma RestoredModesKeepExecuteBit()
    ensures IsExecutable(EXECUTABLE_MODE) && !IsExecutable(PLAIN_MODE)
  {
  }

  /**
   A second undo of the same checkpoint never changes a file: it meets a conflict, or writes the
   bytes and mode that are already there.
   */
  lemma SecondUndoChangesNothing(files: Worktree, checkpoint: Checkpoint)
    ensures AfterUndo(AfterUndo(files, checkpoint), checkpoint) == AfterUndo(files, checkpoint)
  {
  }

  // ----- a run under one checkpoint -----

  /** An edit the harness makes and records, or one made by somebody else. */
  datatype Step =
    | HarnessEdit(path: Path, after: Option<File>)
    | OutsideEdit(path: Path, after: Option<File>)

  datatype Session = Session(files: Worktree, checkpoint: Checkpoint)

  function Apply(session: Session, step: Step): Session {
    var files := Put(session.files, step.path, step.after);
    Session(files,
            if step.HarnessEdit? then Record(files, session.checkpoint, step.path)
            else session.checkpoint)
  }

  function ApplyAll(session: Session, steps: seq<Step>): Session
    decreases |steps|
  {
    if steps == [] then session else ApplyAll(Apply(session, steps[0]), steps[1..])
  }

  function HarnessPaths(steps: seq<Step>): set<Path> {
    set step | step in steps && step.HarnessEdit? :: step.path
  }

  /** Nobody else touches a path the harness edits. */
  ghost predicate OutsidersStayAway(steps: seq<Step>, paths: set<Path>) {
    forall i :: 0 <= i < |steps| && steps[i].OutsideEdit? ==> steps[i].path !in paths
  }

  lemma {:induction false} RunRecordsHarnessPaths(session: Session, steps: seq<Step>)
    ensures ApplyAll(session, steps).checkpoint.baseline == session.checkpoint.baseline
    ensures ApplyAll(session, steps).checkpoint.recorded.Keys
            == session.checkpoint.recorded.Keys + HarnessPaths(steps)
    decreases |steps|
  {
    if steps != [] {
      RunRecordsHarnessPaths(Apply(session, steps[0]), steps[1..]);
      assert steps == [steps[0]] + steps[1..];
      assert HarnessPaths(steps)
          == (if steps[0].HarnessEdit? then {steps[0].path} else {}) + HarnessPaths(steps[1..]);
    }
  }

  lemma {:induction false} RecordedPathsStayCurrent(session: Session, steps: seq<Step>, paths: set<Path>)
    requires Conflicts(session.files, session.checkpoint) == {}
    requires session.checkpoint.recorded.Keys + HarnessPaths(steps) <= paths
    requires OutsidersStayAway(steps, paths)
    ensures Conflicts(ApplyAll(session, steps).files, ApplyAll(session, steps).checkpoint) == {}
    decreases |steps|
  {
    if steps != [] {
      var next := Apply(session, steps[0]);
      assert steps[0] in steps;
      forall path | path in next.checkpoint.recorded
        ensures SnapshotOf(next.files, path) == next.checkpoint.recorded[path]
      {
        if path != steps[0].path {
          assert path !in Conflicts(session.files, session.checkpoint);
        }
      }
      assert Conflicts(next.files, next.checkpoint) == {};
      forall step | step in steps[1..] && step.HarnessEdit? ensures step.path in HarnessPaths(steps) {
        assert step in steps;
      }
      assert forall i :: 0 <= i < |steps[1..]| ==> steps[1..][i] == steps[i + 1];
      RecordedPathsStayCurrent(next, steps[1..], paths);
    }
  }

  /**
   Main result for one checkpoint: after any mix of recorded edits and outside edits, an undo that
   meets no conflict brings exactly those harness paths back to their creation-time snapshot that
   were listed or absent when the checkpoint was taken, and leaves every other path alone.
   */
  lemma UndoAfterRun(files: Worktree, listing: set<Path>, steps: seq<Step>, path: Path)
    requires var end := ApplyAll(Session(files, NewCheckpoint(files, listing)), steps);
             Conflicts(end.files, end.checkpoint) == {}
    ensures var end := ApplyAll(Session(files, NewCheckpoint(files, listing)), steps);
            var undone := AfterUndo(end.files, end.checkpoint);
            && (path in HarnessPaths(steps) ==>
                  (SnapshotOf(undone, path) == SnapshotOf(files, path)
                   <==> path in listing || path !in files))
            && (path !in HarnessPaths(steps) ==>
                  (path in undone <==> path in end.files)
                  && (path in end.files ==> undone[path] == end.files[path]))
  {
    var start := Session(files, NewCheckpoint(files, listing));
    RunRecordsHarnessPaths(start, steps);
    RestoredModesKeepExecuteBit();
    RestoredAt(ApplyAll(start, steps).files, ApplyAll(start, steps).checkpoint, path);
  }

  /** With nobody else editing the harness's paths, the undo meets no conflict. */
  lemma UndoAloneMeetsNoConflict(files: Worktree, listing: set<Path>, steps: seq<Step>)
    requires OutsidersStayAway(steps, HarnessPaths(steps))
    ensures var end := ApplyAll(Session(files, NewCheckpoint(files, listing)), steps);
            Conflicts(end.files, end.checkpoint) == {}
  {
    RecordedPathsStayCurrent(Session(files, NewCheckpoint(files, listing)), steps, HarnessPaths(steps));
  }

  // ----- nested checkpoints -----

  /** One checkpoint with the edits recorded in it before the next one is taken. */
  datatype Level = Level(listing: set<Path>, edits: seq<(Path, Option<File>)>)

  function HarnessSteps(edits: seq<(Path, Option<File>)>): (steps: seq<Step>)
    ensures |steps| == |edits|
    ensures forall i :: 0 <= i < |edits| ==> steps[i] == HarnessEdit(edits[i].0, edits[i].1)
  {
    seq(|edits|, i requires 0 <= i < |edits| => HarnessEdit(edits[i].0, edits[i].1))
  }

  function RunLevel(files: Worktree, level: Level): Session {
    ApplyAll(Session(files, NewCheckpoint(files, level.listing)), HarnessSteps(level.edits))
  }

  /** Runs the levels oldest first; returns the final tree and the checkpoints, oldest first. */
  function RunLevels(files: Worktree, levels: seq<Level>): (Worktree, seq<Checkpoint>)
    decreases |levels|
  {
    if levels == [] then (files, [])
    else
      var first := RunLevel(files, levels[0]);
      var (end, checkpoints) := RunLevels(first.files, levels[1..]);
      (end, [first.checkpoint] + checkpoints)
  }

  /** Undoes the checkpoints newest first; None as soon as one of them meets a conflict. */
  function UndoAll(files: Worktree, checkpoints: seq<Checkpoint>): Option<Worktree>
    decreases |checkpoints|
  {
    if checkpoints == [] then Some(files)
    else
      match UndoAll(files, checkpoints[1..])
      case None => None
      case Some(older) =>
        if Conflicts(older, checkpoints[0]) == {} then Some(Restored(older, checkpoints[0])) else None
  }

  /** Every path edited in the level was listed when its checkpoint was taken, or absent. */
  ghost predicate Covered(files: Worktree, level: Level) {
    forall path :: path in HarnessPaths(HarnessSteps(level.edits)) ==> path in level.listing || path !in files
  }

  ghost predicate AllCovered(files: Worktree, levels: seq<Level>)
    decreases |levels|
  {
    levels != [] ==>
      Covered(files, levels[0]) && AllCovered(RunLevel(files, levels[0]).files, levels[1..])
  }

  lemma {:induction false} RunTouchesOnlyStepPaths(session: Session, steps: seq<Step>, path: Path)
    requires forall i :: 0 <= i < |steps| ==> steps[i].path != path
    ensures SnapshotOf(ApplyAll(session, steps).files, path) == SnapshotOf(session.files, path)
    decreases |steps|
  {
    if steps != [] {
      RunTouchesOnlyStepPaths(Apply(session, steps[0]), steps[1..], path);
    }
  }

  lemma LevelFacts(files: Worktree, level: Level)
    ensures var end := RunLevel(files, level);
            && end.checkpoint.baseline == NewCheckpoint(files, level.listing).baseline
            && end.checkpoint.recorded.Keys == HarnessPaths(HarnessSteps(level.edits))
            && Conflicts(end.files, end.checkpoint) == {}
            && forall path :: path !in end.checkpoint.recorded ==>
                 SnapshotOf(end.files, path) == SnapshotOf(files, path)
  {
    var start := Session(files, NewCheckpoint(files, level.listing));
    var steps := HarnessSteps(level.edits);
    var end := RunLevel(files, level);
    RunRecordsHarnessPaths(start, steps);
    RecordedPathsStayCurrent(start, steps, HarnessPaths(steps));
    forall path | path !in end.checkpoint.recorded
      ensures SnapshotOf(end.files, path) == SnapshotOf(files, path)
    {
      forall i | 0 <= i < |steps| ensures steps[i].path != path {
        assert steps[i] in steps;
      }
      RunTouchesOnlyStepPaths(start, steps, path);
    }
  }

  /**
   Undoing one level from any tree g succeeds and returns to the tree the level started from,
   exactly when g still is the tree the level ended with and the level is covered.
   */
  lemma LevelUndone(files: Worktree, level: Level, g: Worktree)
    ensures var end := RunLevel(files, level);
            Conflicts(g, end.checkpoint) == {} && SameSnapshots(Restored(g, end.checkpoint), files)
            <==> SameSnapshots(g, end.files) && Covered(files, level)
  {
    var end := RunLevel(files, level);
    var checkpoint := end.checkpoint;
    LevelFacts(files, level);
    if SameSnapshots(g, end.files) && Covered(files, level) {
      assert Conflicts(g, checkpoint) == Conflicts(end.files, checkpoint);
      forall path ensures SnapshotOf(Restored(g, checkpoint), path) == SnapshotOf(files, path) {
        RestoredSnapshot(files, level, g, path);
      }
    }
    if Conflicts(g, checkpoint) == {} && SameSnapshots(Restored(g, checkpoint), files) {
      forall path ensures SnapshotOf(g, path) == SnapshotOf(end.files, path) {
        if path in checkpoint.recorded {
          assert path !in Conflicts(g, checkpoint) && path !in Conflicts(end.files, checkpoint);
        } else {
          assert SnapshotOf(Restored(g, checkpoint), path) == SnapshotOf(files, path);
          RestoredAt(g, checkpoint, path);
        }
      }
      forall path | path in checkpoint.recorded ensures path in level.listing || path !in files {
        assert SnapshotOf(Restored(g, checkpoint), path) == SnapshotOf(files, path);
        RestoredAt(g, checkpoint, path);
      }
    }
  }

  lemma RestoredSnapshot(files: Worktree, level: Level, g: Worktree, path: Path)
    requires SameSnapshots(g, RunLevel(files, level).files) && Covered(files, level)
    ensures SnapshotOf(Restored(g, RunLevel(files, level).checkpoint), path) == SnapshotOf(files, path)
  {
    LevelFacts(files, level);
    RestoredModesKeepExecuteBit();
    RestoredAt(g, RunLevel(files, level).checkpoint, path);
    assert SnapshotOf(g, path) == SnapshotOf(RunLevel(files, level).files, path);
  }

  /**
   Main result for nested checkpoints: undoing newest first meets no conflict and returns to the
   tree at the first checkpoint exactly when, in every level, each edited path was listed or absent
   when that level's checkpoint was taken.
   */
  lemma {:induction false} NestedUndoIsLastInFirstOut(files: Worktree, levels: seq<Level>)
    ensures var (end, checkpoints) := RunLevels(files, levels);
            var undone := UndoAll(end, checkpoints);
            undone.Some? && SameSnapshots(undone.value, files) <==> AllCovered(files, levels)
    decreases |levels|
  {
    if levels != [] {
      var first := RunLevel(files, levels[0]);
      var (end, checkpoints) := RunLevels(first.files, levels[1..]);
      NestedUndoIsLastInFirstOut(first.files, levels[1..]);
      assert ([first.checkpoint] + checkpoints)[1..] == checkpoints;
      var older := UndoAll(end, checkpoints);
      if older.Some? {
        LevelUndone(files, levels[0], older.value);
      }
    }
  }

  // ----- the store -----

  datatype UndoReport =
    | NotFound
    | Conflict(paths: seq<Path>)
    | Done(restored: seq<Path>)

  predicate NoDuplicates(paths: seq<Path>) {
    forall i, j :: 0 <= i < j < |paths| ==> paths[i] != paths[j]
  }

  /** A worktree together with the persisted checkpoints taken of it. */
  class ShadowCheckpointStore {
    var files: Worktree
    var checkpoints: map<CheckpointId, Checkpoint>

    constructor (files: Worktree)
      ensures this.files == files && checkpoints == map[]
    {
      this.files := files;
      checkpoints := map[];
    }

    /** Snapshots every listed path and persists the checkpoint under `id`. */
    method Create(id: CheckpointId, listing: set<Path>)
      modifies this
      ensures files == old(files)
      ensures checkpoints == old(checkpoints)[id := NewCheckpoint(files, listing)]
    {
      var baseline: map<Path, FileSnapshot> := map[];
      var rest := listing;
      while rest != {}
        invariant rest <= listing && baseline.Keys == listing - rest
        invariant forall path :: path in baseline ==> baseline[path] == SnapshotOf(files, path)
        invariant files == old(files) && checkpoints == old(checkpoints)
      {
        var path :| path in rest;
        baseline := baseline[path := SnapshotOf(files, path)];
        rest := rest - {path};
      }
      assert baseline == NewCheckpoint(files, listing).baseline;
      checkpoints := checkpoints[id := Checkpoint(baseline, map[])];
    }

    /** Records the current snapshot of a path the harness has just changed. */
    method RecordHarnessChange(id: CheckpointId, path: Path) returns (found: bool)
      modifies this
      ensures files == old(files) && found == (id in old(checkpoints))
      ensures checkpoints == if found then old(checkpoints)[id := Record(files, old(checkpoints)[id], path)]
                             else old(checkpoints)
    {
      found := id in checkpoints;
      if found {
        checkpoints := checkpoints[id := Record(files, checkpoints[id], path)];
      }
    }

    /** The paths whose current snapshot is not the one the harness left behind. */
    method CollectConflicts(checkpoint: Checkpoint) returns (conflicts: seq<Path>)
      ensures NoDuplicates(conflicts)
      ensures (set path | path in conflicts) == Conflicts(files, checkpoint)
    {
      conflicts := [];
      var rest := checkpoint.recorded.Keys;
      while rest != {}
        invariant rest <= checkpoint.recorded.Keys && NoDuplicates(conflicts)
        invariant forall path :: path in conflicts <==> path in Conflicts(files, checkpoint) && path !in rest
      {
        var path :| path in rest;
        if SnapshotOf(files, path) != checkpoint.recorded[path] {
          conflicts := conflicts + [path];
        }
        rest := rest - {path};
      }
    }

    /** Writes or deletes each recorded path in turn. */
    method WriteBaseline(checkpoint: Checkpoint) returns (restored: seq<Path>)
      modifies this
      ensures checkpoints == old(checkpoints)
      ensures files == Restored(old(files), checkpoint)
      ensures NoDuplicates(restored) && (set path | path in restored) == checkpoint.recorded.Keys
    {
      restored := [];
      var rest := checkpoint.recorded.Keys;
      while rest != {}
        invariant checkpoints == old(checkpoints)
        invariant rest <= checkpoint.recorded.Keys && NoDuplicates(restored)
        invariant forall path :: path in restored <==> path in checkpoint.recorded && path !in rest
        invariant files == RestoredOn(old(files), checkpoint, checkpoint.recorded.Keys - rest)
      {
        var path :| path in rest;
        RestoredOnStep(old(files), checkpoint, checkpoint.recorded.Keys - rest, path);
        assert checkpoint.recorded.Keys - (rest - {path}) == checkpoint.recorded.Keys - rest + {path};
        files := Put(files, path, BaselineFile(checkpoint, path));
        restored := restored + [path];
        rest := rest - {path};
      }
      assert checkpoint.recorded.Keys - {} == checkpoint.recorded.Keys;
    }

    /** Restores a checkpoint's recorded paths, or reports every conflict and changes nothing. */
    method Undo(id: CheckpointId) returns (report: UndoReport)
      modifies this
      ensures checkpoints == old(checkpoints)
      ensures report.NotFound? <==> id !in checkpoints
      ensures report.NotFound? ==> files == old(files)
      ensures id in checkpoints ==> files == AfterUndo(old(files), checkpoints[id])
      ensures report.Conflict? ==>
                && NoDuplicates(report.paths) && report.paths != []
                && (set path | path in report.paths) == Conflicts(old(files), checkpoints[id])
                && files == old(files)
      ensures report.Done? ==>
                && Conflicts(old(files), checkpoints[id]) == {}
                && NoDuplicates(report.restored)
                && (set path | path in report.restored) == checkpoints[id].recorded.Keys
    {
      if id !in checkpoints {
        return NotFound;
      }
      var checkpoint := checkpoints[id];
      var conflicts := CollectConflicts(checkpoint);
      if conflicts != [] {
        assert conflicts[0] in Conflicts(files, checkpoint);
        return Conflict(conflicts);
      }
      var restored := WriteBaseline(checkpoint);
      report := Done(restored);
    }
  }

}
