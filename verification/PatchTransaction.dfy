/** The multi-file patch transaction: plan every file, snapshot them, commit one by one, roll back in reverse. */
module PatchTransaction {
  import opened Wrappers
  import opened Workspace
  import opened Restores
  import Hunks
  import opened UnifiedDiff

  // ----- Planning -----

  datatype Operation = OpCreate | OpModify | OpDelete

  datatype PlanFile = PlanFile(operation: Operation, name: string, path: Path, content: string, mode: nat,
                               basis: Option<string>)

  /** What planning one file meets. */
  datatype PlanEnv = PlanEnv(beforeCheck: Change, beforeRead: Change, readPolicy: Policy, secretFree: bool,
                             policy: Policy)

  /** A plan, a structured refusal, or an error. */
  datatype Plan<T> = Planned(value: T) | Rejected | PlanError

  datatype PlanStep<T> = PlanStep(plan: Plan<T>, world: World)

  /** The read gate of a patch: a valid registered token, then a read that issues none. */
  function ReadPatchTarget(w: World, names: Names, name: string, e: PlanEnv): PlanStep<string> {
    if name !in names || (names[name] !in w.files && names[name] !in w.dirs) then PlanStep(Rejected, w)
    else
      var w1 := External(w, e.beforeCheck);
      match ValidateCurrent(w1, names[name])
      case Vanished => PlanStep(PlanError, w1)
      case Valid(_) =>
        var read := Read(w1, names, name, e.readPolicy, e.beforeRead, false);
        PlanStep(match read.reply
                 case ReadOk(content) => Planned(content)
                 case ReadErrored => PlanError
                 case _ => Rejected, read.world)
      case _ => PlanStep(Rejected, w1)
  }

  function PolicyGate<T>(e: PlanEnv, planned: T): Plan<T> {
    match e.policy case Allow => Planned(planned) case Deny => Rejected case PolicyError => PlanError
  }

  function PlanCreate(w: World, names: Names, f: PatchFile, e: PlanEnv): Plan<PlanFile> {
    if f.newPath !in names || names[f.newPath] in w.dirs || names[f.newPath] in w.files then Rejected
    else match Hunks.PatchedContent("", f.hunks)
      case Failure(_) => Rejected
      case Success(content) =>
        if !e.secretFree then Rejected
        else PolicyGate(e, PlanFile(OpCreate, f.newPath, names[f.newPath], content, f.newMode, None))
  }

  function PlanModify(w: World, names: Names, f: PatchFile, e: PlanEnv): PlanStep<PlanFile> {
    var read := ReadPatchTarget(w, names, f.oldPath, e);
    var plan := match read.plan
      case Rejected => Rejected
      case PlanError => PlanError
      case Planned(old_) =>
        match Hunks.PatchedContent(old_, f.hunks)
        case Failure(_) => Rejected
        case Success(content) =>
          if !e.secretFree || f.oldPath !in names then Rejected
          else PolicyGate(e, PlanFile(OpModify, f.newPath, names[f.oldPath], content, f.newMode, Some(old_)));
    PlanStep(plan, read.world)
  }

  function PlanDelete(w: World, names: Names, f: PatchFile, e: PlanEnv): PlanStep<PlanFile> {
    var read := ReadPatchTarget(w, names, f.oldPath, e);
    var plan := match read.plan
      case Rejected => Rejected
      case PlanError => PlanError
      case Planned(old_) =>
        match Hunks.PatchedContent(old_, f.hunks)
        case Failure(_) => Rejected
        case Success(content) =>
          if content != "" || f.oldPath !in names then Rejected
          else PolicyGate(e, PlanFile(OpDelete, f.oldPath, names[f.oldPath], "", 0, Some(old_)));
    PlanStep(plan, read.world)
  }

  function PlanOne(w: World, names: Names, f: PatchFile, e: PlanEnv): PlanStep<PlanFile> {
    if f.oldDevNull && f.newDevNull then PlanStep(Rejected, w)
    else if f.oldDevNull then PlanStep(PlanCreate(w, names, f, e), w)
    else if f.newDevNull then PlanDelete(w, names, f, e)
    else if f.oldPath != f.newPath then PlanStep(Rejected, w)
    else PlanModify(w, names, f, e)
  }

  predicate Touches(plan: seq<PlanFile>, p: Path) {
    exists i :: 0 <= i < |plan| && plan[i].path == p
  }

  /** No two entries are about one path. */
  ghost predicate Distinct(plan: seq<PlanFile>) {
    forall i, j :: 0 <= i < j < |plan| ==> plan[i].path != plan[j].path
  }

  /** Plans the files in order; two entries for one resolved path are refused. */
  function PlanFiles(w: World, names: Names, files: seq<PatchFile>, env: nat -> PlanEnv,
                     done: seq<PlanFile>): PlanStep<seq<PlanFile>>
    requires |done| <= |files|
    decreases |files| - |done|
  {
    if |done| == |files| then PlanStep(Planned(done), w)
    else
      var step := PlanOne(w, names, files[|done|], env(|done|));
      match step.plan
      case Rejected => PlanStep(Rejected, step.world)
      case PlanError => PlanStep(PlanError, step.world)
      case Planned(f) =>
        if Touches(done, f.path) then PlanStep(Rejected, step.world)
        else PlanFiles(step.world, names, files, env, done + [f])
  }

  // ----- Snapshots -----

  datatype Snapshot = Snapshot(path: Path, existed: Option<File>, madeDirs: seq<Path>)

  function TakeSnapshot(w: World, f: PlanFile): Option<Snapshot> {
    if f.path in w.dirs then None
    else if f.path in w.files then Some(Snapshot(f.path, Some(w.files[f.path]), []))
    else if f.operation == OpCreate && f.path != [] then
      match MissingFrom(w, Parent(f.path))
      case None => None
      case Some(dirs) => Some(Snapshot(f.path, None, dirs))
    else Some(Snapshot(f.path, None, []))
  }

  function TakeSnapshots(w: World, plan: seq<PlanFile>): Option<seq<Snapshot>>
    decreases |plan|
  {
    if plan == [] then Some([])
    else match TakeSnapshots(w, plan[..|plan| - 1])
      case None => None
      case Some(done) =>
        match TakeSnapshot(w, plan[|plan| - 1])
        case None => None
        case Some(s) => Some(done + [s])
  }

  // ----- Commits -----

  datatype CommitStep = CommitStep(ok: bool, committed: bool, world: World)

  function CommitFile(w: World, names: Names, f: PlanFile, e: Env): CommitStep {
    var step := match f.operation
      case OpCreate => Write(w, names, WriteRequest(f.name, f.content, Create, f.mode), e, None)
      case OpModify => Write(w, names, WriteRequest(f.name, f.content, Overwrite, f.mode), e, f.basis)
      case OpDelete => Delete(w, names, f.name, e, f.basis);
    var expected := match f.operation case OpCreate => Created case OpModify => Overwritten case OpDelete => Deleted;
    var ok := step.reply == Reply(expected);
    CommitStep(ok, ok || step.reply == Reply(CommitUncertain), step.world)
  }

  /** Commits from file `i` on; stops at the first failure. `flags` says which files have been committed. */
  datatype CommitRun = CommitRun(ok: bool, flags: seq<bool>, world: World)

  function CommitAll(w: World, names: Names, plan: seq<PlanFile>, env: nat -> Env, flags: seq<bool>): (r: CommitRun)
    requires |flags| <= |plan|
    ensures |r.flags| <= |plan|
    decreases |plan| - |flags|
  {
    if |flags| == |plan| then CommitRun(true, flags, w)
    else
      var step := CommitFile(w, names, plan[|flags|], env(|flags|));
      if step.ok then CommitAll(step.world, names, plan, env, flags + [true])
      else CommitRun(false, flags + [step.committed], step.world)
  }

  // ----- Rollback -----

  function RollbackEntry(w: World, s: Snapshot, io: RestoreIo): RestoreStep {
    match s.existed
    case Some(f) => RestoreFile(w, s.path, f.content, f.mode, io)
    case None => RemoveCreated(w, s.path, s.madeDirs, io)
  }

  /** Undoes the committed entries below `i`, last first; stops at the first restore that fails. */
  function Rollback(w: World, snapshots: seq<Snapshot>, flags: seq<bool>, i: nat, env: nat -> RestoreIo): RestoreStep
    requires i <= |flags| <= |snapshots|
    decreases i
  {
    if i == 0 then RestoreStep(true, w)
    else if !flags[i - 1] then Rollback(w, snapshots, flags, i - 1, env)
    else
      var step := RollbackEntry(w, snapshots[i - 1], env(i - 1));
      if !step.ok then step else Rollback(step.world, snapshots, flags, i - 1, env)
  }

  // ----- The transaction -----

  /** What a whole patch application meets. */
  datatype PatchEnv = PatchEnv(plan: nat -> PlanEnv, beforeSnapshot: Change, commit: nat -> Env,
                               restore: nat -> RestoreIo)

  datatype PatchReply =
    | PatchError
    | PatchRefused
    | PatchApplied
    | PatchFailed(rollbackAttempted: bool, rollbackSucceeded: bool, filesRolledBack: nat)

  datatype PatchStep = PatchStep(reply: PatchReply, world: World)

  function CountTrue(flags: seq<bool>): nat
    decreases |flags|
  {
    if flags == [] then 0 else CountTrue(flags[..|flags| - 1]) + if flags[|flags| - 1] then 1 else 0
  }

  /** Commit and rollback, from the snapshots on. */
  function RunPlan(w: World, names: Names, plan: seq<PlanFile>, snapshots: seq<Snapshot>, env: PatchEnv): PatchStep
    requires |snapshots| == |plan|
  {
    var run := CommitAll(w, names, plan, env.commit, []);
    if run.ok then PatchStep(PatchApplied, run.world)
    else if true !in run.flags then PatchStep(PatchFailed(false, false, 0), run.world)
    else
      var back := Rollback(run.world, snapshots, run.flags, |run.flags|, env.restore);
      PatchStep(PatchFailed(true, back.ok, if back.ok then CountTrue(run.flags) else 0), back.world)
  }

  lemma {:induction false} SnapshotCount(w: World, plan: seq<PlanFile>)
    ensures TakeSnapshots(w, plan).Some? ==> |TakeSnapshots(w, plan).value| == |plan|
    decreases |plan|
  {
    if plan != [] {
      SnapshotCount(w, plan[..|plan| - 1]);
    }
  }

  function ApplyFiles(w: World, names: Names, files: seq<PatchFile>, env: PatchEnv): PatchStep {
    var planned := PlanFiles(w, names, files, env.plan, []);
    match planned.plan
    case Rejected => PatchStep(PatchRefused, planned.world)
    case PlanError => PatchStep(PatchError, planned.world)
    case Planned(plan) =>
      var w' := External(planned.world, env.beforeSnapshot);
      match TakeSnapshots(w', plan)
      case None => PatchStep(PatchError, w')
      case Some(snapshots) =>
        SnapshotCount(w', plan);
        RunPlan(w', names, plan, snapshots, env)
  }

  function ApplyPatch(w: World, names: Names, patch: string, lib: PathLibrary, env: PatchEnv): PatchStep {
    match ParsePatch(patch, lib)
    case Failure(_) => PatchStep(PatchRefused, w)
    case Success(files) => ApplyFiles(w, names, files, env)
  }
}
