/** Where the atomicity of a patch ends: a file that landed but could not be read back for its token. */
module RereadFailure {
  import opened Wrappers
  import opened Workspace
  import opened Restores
  import opened PatchTransaction
  import A = AllOrNothing

  ghost predicate QuietGapsRun(env: nat -> Env) {
    forall i :: A.QuietGaps(env(i))
  }

  /** The same commit with a re-read that works. */
  function Rereadable(e: Env): Env {
    e.(io := if e.io.RereadFails? then Done else e.io)
  }

  function RereadableRun(env: nat -> Env): nat -> Env {
    (i: nat) => Rereadable(env(i))
  }

  /** A create or modify that would have been committed, had its file been read back. */
  predicate LandsUnread(w: World, names: Names, f: PlanFile, e: Env) {
    e.io.RereadFails? && f.operation != OpDelete && CommitFile(w, names, f, Rereadable(e)).ok
  }

  /** The world in which commit `n` is attempted. */
  function WorldBefore(w: World, names: Names, plan: seq<PlanFile>, env: nat -> Env, n: nat): World
    requires n <= |plan|
  {
    if n == 0 then w else CommitFile(WorldBefore(w, names, plan, env, n - 1), names, plan[n - 1], env(n - 1)).world
  }

  /** The last commit the run attempted landed, and could not be read back. */
  predicate LastLandsUnread(w: World, names: Names, plan: seq<PlanFile>, env: nat -> Env) {
    var run := CommitAll(w, names, plan, env, []);
    !run.ok && run.flags != []
    && LandsUnread(WorldBefore(w, names, plan, env, |run.flags| - 1), names, plan[|run.flags| - 1],
                   env(|run.flags| - 1))
  }

  // ----- One commit -----

  /** Unless the file landed unread, a failing re-read makes no difference. */
  lemma {:induction false} RereadMattersOnlyOnLanding(w: World, names: Names, f: PlanFile, e: Env)
    requires A.QuietGaps(e) && !LandsUnread(w, names, f, e)
    ensures CommitFile(w, names, f, e) == CommitFile(w, names, f, Rereadable(e))
  {
    hide BelowFile, Ancestors, WriteMode;
    A.QuietExternal(w);
  }

  lemma {:induction false} RereadableIsQuiet(e: Env)
    requires A.QuietGaps(e)
    ensures A.Quiet(Rereadable(e))
  {
  }

  /**
   * A file that landed unread is there, its old token is all there is, and the transaction takes it for uncommitted.
   */
  lemma {:induction false} LandedUnread(w: World, names: Names, f: PlanFile, e: Env)
    requires A.QuietGaps(e) && LandsUnread(w, names, f, e) && f.name in names && names[f.name] == f.path
    ensures
      var step := CommitFile(w, names, f, e);
      && !step.ok && !step.committed
      && step.world.files == w.files[f.path := A.Written(w, f)] && step.world.tokens == w.tokens
    ensures if f.operation == OpCreate then f.path !in w.files else HasValidToken(w, f.path)
  {
    hide BelowFile, Ancestors, WriteMode;
    A.QuietExternal(w);
  }

  lemma {:induction false} CommitKeepsDated(w: World, names: Names, f: PlanFile, e: Env)
    requires Dated(w) && A.QuietGaps(e)
    ensures Dated(CommitFile(w, names, f, e).world)
  {
    hide BelowFile, Ancestors, WriteMode;
    A.QuietExternal(w);
  }

  // ----- The commit phase -----

  /** The commits below `n` all went through. */
  ghost predicate WentThrough(w0: World, names: Names, plan: seq<PlanFile>, env: nat -> Env, n: nat)
    requires n <= |plan|
  {
    forall i :: 0 <= i < n ==> CommitFile(WorldBefore(w0, names, plan, env, i), names, plan[i], env(i)).ok
  }

  /** The run stopped at its last attempt, after which nothing was committed; all before it went through. */
  ghost predicate StoppedAtLast(w0: World, names: Names, plan: seq<PlanFile>, env: nat -> Env, run: CommitRun)
    requires 0 < |run.flags| <= |plan|
  {
    var n := |run.flags| - 1;
    var last := CommitFile(WorldBefore(w0, names, plan, env, n), names, plan[n], env(n));
    && !last.ok && run.world == last.world && run.flags[n] == last.committed
    && A.AllTrue(run.flags, n) && WentThrough(w0, names, plan, env, n)
  }

  lemma {:induction false} OneMoreWent(w0: World, names: Names, plan: seq<PlanFile>, env: nat -> Env, n: nat)
    requires n < |plan| && WentThrough(w0, names, plan, env, n)
    requires CommitFile(WorldBefore(w0, names, plan, env, n), names, plan[n], env(n)).ok
    ensures WentThrough(w0, names, plan, env, n + 1)
  {
    hide CommitFile, WorldBefore;
  }

  lemma {:induction false} NextWorld(w0: World, names: Names, plan: seq<PlanFile>, env: nat -> Env, n: nat)
    requires n < |plan|
    ensures WorldBefore(w0, names, plan, env, n + 1) ==
            CommitFile(WorldBefore(w0, names, plan, env, n), names, plan[n], env(n)).world
  {
    hide CommitFile;
  }

  lemma {:induction false} MoreTrue(flags: seq<bool>)
    requires A.AllTrue(flags, |flags|)
    ensures A.AllTrue(flags + [true], |flags| + 1) && forall last: bool :: A.AllTrue(flags + [last], |flags|)
  {
  }

  /** A run at commit `|flags|` whose commits so far went through. */
  lemma {:induction false} Attempts(w: World, names: Names, plan: seq<PlanFile>, env: nat -> Env, flags: seq<bool>,
                                    w0: World)
    requires |flags| <= |plan| && w == WorldBefore(w0, names, plan, env, |flags|) && A.AllTrue(flags, |flags|)
    requires WentThrough(w0, names, plan, env, |flags|)
    ensures
      var run := CommitAll(w, names, plan, env, flags);
      if run.ok then WentThrough(w0, names, plan, env, |plan|)
      else |run.flags| > 0 && StoppedAtLast(w0, names, plan, env, run)
    decreases |plan| - |flags|
  {
    hide CommitFile, WorldBefore, WentThrough, A.AllTrue;
    var n := |flags|;
    if n < |plan| {
      var step := CommitFile(w, names, plan[n], env(n));
      NextWorld(w0, names, plan, env, n);
      MoreTrue(flags);
      if step.ok {
        OneMoreWent(w0, names, plan, env, n);
        Attempts(step.world, names, plan, env, flags + [true], w0);
      }
    }
  }

  ghost predicate LastIsRead(w0: World, names: Names, plan: seq<PlanFile>, env: nat -> Env, run: CommitRun)
    requires |run.flags| <= |plan|
  {
    !run.ok && run.flags != [] ==>
      !LandsUnread(WorldBefore(w0, names, plan, env, |run.flags| - 1), names, plan[|run.flags| - 1],
                   env(|run.flags| - 1))
  }

  /** When no attempted commit landed unread, re-reads that always work give the same run. */
  lemma {:induction false} SameRun(w: World, names: Names, plan: seq<PlanFile>, env: nat -> Env, flags: seq<bool>,
                                   w0: World)
    requires |flags| <= |plan| && w == WorldBefore(w0, names, plan, env, |flags|) && QuietGapsRun(env)
    requires LastIsRead(w0, names, plan, env, CommitAll(w, names, plan, env, flags))
    ensures CommitAll(w, names, plan, RereadableRun(env), flags) == CommitAll(w, names, plan, env, flags)
    decreases |plan| - |flags|
  {
    hide CommitFile, LandsUnread, A.QuietGaps, WorldBefore;
    var n := |flags|;
    if n < |plan| {
      var step := CommitFile(w, names, plan[n], env(n));
      NextWorld(w0, names, plan, env, n);
      if step.ok {
        OkIsRead(w, names, plan[n], env(n));
      } else {
        assert flags + [step.committed] != [];
      }
      RereadMattersOnlyOnLanding(w, names, plan[n], env(n));
      if step.ok {
        SameRun(step.world, names, plan, env, flags + [true], w0);
      }
    }
  }

  lemma {:induction false} OkIsRead(w: World, names: Names, f: PlanFile, e: Env)
    requires A.QuietGaps(e) && CommitFile(w, names, f, e).ok
    ensures !LandsUnread(w, names, f, e)
  {
    hide BelowFile, Ancestors, WriteMode;
    A.QuietExternal(w);
  }

  /** Up to the last attempt everything is committed as in a run whose re-reads work. */
  lemma {:induction false} CommittedBefore(w0: World, names: Names, plan: seq<PlanFile>, env: nat -> Env, n: nat)
    requires n <= |plan| && Distinct(plan) && A.Named(names, plan) && QuietGapsRun(env) && IsTree(w0) && Dated(w0)
    requires WentThrough(w0, names, plan, env, n)
    ensures A.Committed(w0, WorldBefore(w0, names, plan, env, n), plan, n)
            && Dated(WorldBefore(w0, names, plan, env, n))
    decreases n
  {
    hide CommitFile, A.Committed, A.CommitEffect, Dated, IsTree, A.QuietGaps, Distinct, WorldBefore;
    if n == 0 {
      A.NothingCommitted(w0, plan);
      StartsThere(w0, names, plan, env);
    } else {
      var w, f, e := WorldBefore(w0, names, plan, env, n - 1), plan[n - 1], env(n - 1);
      CommittedBefore(w0, names, plan, env, n - 1);
      NextWorld(w0, names, plan, env, n - 1);
      OkEffect(w, names, f, e);
      A.CommitOneMore(w0, w, plan, n - 1, true, CommitFile(w, names, f, e).world);
      CommitKeepsDated(w, names, f, e);
    }
  }

  lemma {:induction false} OkEffect(w: World, names: Names, f: PlanFile, e: Env)
    requires A.QuietGaps(e) && CommitFile(w, names, f, e).ok && f.name in names && names[f.name] == f.path
    ensures A.CommitEffect(w, f, true, CommitFile(w, names, f, e).world)
  {
    hide CommitFile, A.CommitEffect, A.QuietGaps, A.Quiet, LandsUnread;
    OkIsRead(w, names, f, e);
    RereadMattersOnlyOnLanding(w, names, f, e);
    RereadableIsQuiet(e);
    A.CommitFileEffect(w, names, f, Rereadable(e));
  }

  // ----- The rollback leaves the unread file alone -----

  ghost predicate Untouched(w: World, w': World, p: Path) {
    && (p in w'.files <==> p in w.files) && (p in w.files && p in w'.files ==> w'.files[p] == w.files[p])
    && (p in w'.tokens <==> p in w.tokens) && (p in w.tokens && p in w'.tokens ==> w'.tokens[p] == w.tokens[p])
  }

  lemma {:induction false} RemoveDirsKeepsFiles(w: World, dirs: seq<Path>)
    ensures RemoveDirs(w, dirs).world.files == w.files && RemoveDirs(w, dirs).world.tokens == w.tokens
    decreases |dirs|
  {
    hide IsEmptyDir;
    if dirs != [] {
      var dir, above := dirs[|dirs| - 1], dirs[..|dirs| - 1];
      RemoveDirsKeepsFiles(w, above);
      RemoveDirsKeepsFiles(w.(dirs := w.dirs - {dir}), above);
    }
  }

  lemma {:induction false} EntryElsewhere(w: World, s: Snapshot, io: RestoreIo, p: Path)
    requires s.path != p
    ensures Untouched(w, RollbackEntry(w, s, io).world, p)
  {
    hide RemoveDirs;
    if s.existed.None? {
      var removed := if s.path in w.files then Logged(RemoveFile(w, s.path), Restored(s.path, None)) else w;
      RemoveDirsKeepsFiles(Forget(removed, s.path), s.madeDirs);
    }
  }

  lemma {:induction false} RollbackElsewhere(w: World, snapshots: seq<Snapshot>, flags: seq<bool>, i: nat,
                                             env: nat -> RestoreIo, p: Path)
    requires i <= |flags| <= |snapshots| && forall k :: 0 <= k < i && flags[k] ==> snapshots[k].path != p
    ensures Untouched(w, Rollback(w, snapshots, flags, i, env).world, p)
    decreases i
  {
    hide RollbackEntry;
    if i > 0 {
      if flags[i - 1] {
        EntryElsewhere(w, snapshots[i - 1], env(i - 1), p);
        RollbackElsewhere(RollbackEntry(w, snapshots[i - 1], env(i - 1)).world, snapshots, flags, i - 1, env, p);
      } else {
        RollbackElsewhere(w, snapshots, flags, i - 1, env, p);
      }
    }
  }

  /** The unread file is not as it was: it was not there, or its token was valid and is not any more. */
  lemma {:induction false} UnreadIsNotAsBefore(w0: World, w: World, landed: World, after: World, names: Names,
                                               f: PlanFile, e: Env)
    requires A.QuietGaps(e) && LandsUnread(w, names, f, e) && f.name in names && names[f.name] == f.path
    requires landed == CommitFile(w, names, f, e).world && Untouched(landed, after, f.path)
    requires Dated(w) && A.AsBefore(w0, w, f.path)
    ensures !A.AsBefore(w0, after, f.path) && f.path in after.files && after.files[f.path].content == f.content
  {
    hide CommitFile, LandsUnread, WriteMode;
    LandedUnread(w, names, f, e);
  }

  // ----- The exact condition -----

  lemma {:induction false} SnapshotPaths(w0: World, plan: seq<PlanFile>, snapshots: seq<Snapshot>)
    requires A.SnapshotsOf(w0, plan, snapshots)
    ensures forall i :: 0 <= i < |plan| ==> snapshots[i].path == plan[i].path
  {
    hide MissingFrom;
    forall i | 0 <= i < |plan| ensures snapshots[i].path == plan[i].path {
      assert TakeSnapshot(w0, plan[i]) == Some(snapshots[i]);
    }
  }

  lemma {:induction false} UnreadStays(w0: World, names: Names, plan: seq<PlanFile>, snapshots: seq<Snapshot>,
                                       env: PatchEnv)
    requires IsTree(w0) && Dated(w0) && Distinct(plan) && A.Named(names, plan) && QuietGapsRun(env.commit)
    requires TakeSnapshots(w0, plan) == Some(snapshots) && |snapshots| == |plan|
    requires LastLandsUnread(w0, names, plan, env.commit)
    ensures
      var step, f := RunPlan(w0, names, plan, snapshots, env),
                     plan[|CommitAll(w0, names, plan, env.commit, []).flags| - 1];
      step.reply.PatchFailed? && !A.AsBefore(w0, step.world, f.path)
      && f.path in step.world.files && step.world.files[f.path].content == f.content
  {
    hide CommitFile, LandsUnread, A.Committed, A.SnapshotsOf, IsTree, Dated, A.QuietGaps, A.AsBefore, Rollback,
         TakeSnapshots, Untouched, WentThrough, WorldBefore, A.AllTrue;
    StartsThere(w0, names, plan, env.commit);
    var run := CommitAll(w0, names, plan, env.commit, []);
    NoneWent(w0, names, plan, env.commit);
    Attempts(w0, names, plan, env.commit, [], w0);
    var n := |run.flags| - 1;
    var w, f, e := WorldBefore(w0, names, plan, env.commit, n), plan[n], env.commit(n);
    CommittedBefore(w0, names, plan, env.commit, n);
    OutsideIsAsBefore(w0, w, plan, n);
    LandedUnread(w, names, f, e);
    A.TakeSnapshotsGives(w0, plan);
    SnapshotPaths(w0, plan, snapshots);
    RollbackElsewhere(run.world, snapshots, run.flags, |run.flags|, env.restore, f.path);
    UntouchedSelf(run.world, f.path);
    UnreadIsNotAsBefore(w0, w, run.world, RunPlan(w0, names, plan, snapshots, env).world, names, f, e);
  }

  lemma {:induction false} UntouchedSelf(w: World, p: Path)
    ensures Untouched(w, w, p)
  {
  }

  lemma {:induction false} OutsideIsAsBefore(w0: World, w: World, plan: seq<PlanFile>, n: nat)
    requires n < |plan| && Distinct(plan) && A.Committed(w0, w, plan, n)
    ensures A.AsBefore(w0, w, plan[n].path)
  {
    hide A.AsBefore;
    assert A.Outside(plan, n, plan[n].path);
  }

  /**
   * The exact condition of atomicity, for every plan and every pattern of outcomes. A failed patch whose rollback
   * reports success, or that attempted none, has left everything as it was exactly when the last commit it attempted
   * was not a create or modify that landed unread; in that case the new content stays, whatever the rollback reports.
   */
  lemma {:induction false} AtomicUnlessUnread(w0: World, names: Names, plan: seq<PlanFile>, snapshots: seq<Snapshot>,
                                              env: PatchEnv)
    requires IsTree(w0) && Dated(w0) && Distinct(plan) && A.Named(names, plan) && QuietGapsRun(env.commit)
    requires TakeSnapshots(w0, plan) == Some(snapshots) && |snapshots| == |plan|
    ensures
      var step, unread := RunPlan(w0, names, plan, snapshots, env), LastLandsUnread(w0, names, plan, env.commit);
      && (step.reply.PatchApplied? ==> A.EverythingHappened(w0, step.world, plan))
      && (step.reply.PatchFailed? && (step.reply.rollbackSucceeded || !step.reply.rollbackAttempted) ==>
            (A.NothingHappened(w0, step.world) <==> !unread))
      && (unread ==>
            var f := plan[|CommitAll(w0, names, plan, env.commit, []).flags| - 1];
            step.reply.PatchFailed? && f.path in step.world.files && step.world.files[f.path].content == f.content)
  {
    hide A.NothingHappened, A.EverythingHappened, IsTree, Dated, A.Named, Distinct, QuietGapsRun, TakeSnapshots,
         LandsUnread, CommitFile, WorldBefore, A.QuietRun, A.AsBefore;
    if LastLandsUnread(w0, names, plan, env.commit) {
      UnreadStays(w0, names, plan, snapshots, env);
      var f := plan[|CommitAll(w0, names, plan, env.commit, []).flags| - 1];
      OneIsEnough(w0, RunPlan(w0, names, plan, snapshots, env).world, f.path);
    } else {
      var env' := env.(commit := RereadableRun(env.commit));
      StartsThere(w0, names, plan, env.commit);
      SameRun(w0, names, plan, env.commit, [], w0);
      AllQuiet(env.commit);
      A.PatchIsAllOrNothing(w0, names, plan, snapshots, env');
    }
  }

  lemma {:induction false} OneIsEnough(w0: World, w: World, p: Path)
    requires !A.AsBefore(w0, w, p)
    ensures !A.NothingHappened(w0, w)
  {
  }

  lemma {:induction false} StartsThere(w: World, names: Names, plan: seq<PlanFile>, env: nat -> Env)
    ensures WorldBefore(w, names, plan, env, 0) == w
  {
  }

  lemma {:induction false} NoneWent(w: World, names: Names, plan: seq<PlanFile>, env: nat -> Env)
    ensures WentThrough(w, names, plan, env, 0) && A.AllTrue([], 0)
  {
  }

  lemma {:induction false} AllQuiet(env: nat -> Env)
    requires QuietGapsRun(env)
    ensures A.QuietRun(RereadableRun(env))
  {
    forall i: nat ensures A.Quiet(RereadableRun(env)(i)) {
      RereadableIsQuiet(env(i));
    }
  }

  // ----- What it looks like -----

  /** A modify that every check lets through. */
  ghost predicate GoesThrough(w: World, names: Names, f: PlanFile, e: Env) {
    && f.operation == OpModify && f.name in names && names[f.name] == f.path
    && HasValidToken(w, f.path) && f.path !in w.dirs
    && A.QuietGaps(e) && e.policy == Allow && e.secretFree && !e.backupFails
  }

  lemma {:induction false} GoesThroughCommits(w: World, names: Names, f: PlanFile, e: Env)
    requires GoesThrough(w, names, f, e) && e.io.Done?
    ensures CommitFile(w, names, f, e).ok
  {
    hide Ancestors, WriteMode;
    A.QuietExternal(w);
  }

  lemma {:induction false} OthersGoThrough(w: World, names: Names, f: PlanFile, e: Env, g: PlanFile, e': Env)
    requires GoesThrough(w, names, f, e) && e.io.Done? && GoesThrough(w, names, g, e') && f.path != g.path && IsTree(w)
    ensures GoesThrough(CommitFile(w, names, f, e).world, names, g, e')
  {
    hide CommitFile, A.CommitEffect, Ancestors, IsTree;
    GoesThroughCommits(w, names, f, e);
    OkEffect(w, names, f, e);
    ParentsAreThere(w, f, CommitFile(w, names, f, e).world);
  }

  lemma {:induction false} ParentsAreThere(w: World, f: PlanFile, w': World)
    requires f.operation == OpModify && IsTree(w) && A.CommitEffect(w, f, true, w')
    ensures w'.dirs == w.dirs
    ensures forall q :: q != f.path ==> (HasValidToken(w', q) <==> HasValidToken(w, q))
  {
    hide Ancestors;
    assert w.dirs + Ancestors(f.path) == w.dirs;
  }

  /**
   * Two modifies, the second landing unread, and a rollback that works: the patch reports one file rolled back with
   * success, over a second file that holds its new content.
   */
  lemma {:induction false} RollbackReportedOverChangedFile(w: World, names: Names, f: PlanFile, g: PlanFile,
                                                           snapshots: seq<Snapshot>, env: PatchEnv)
    requires IsTree(w) && Dated(w) && f.path != g.path && f.path != [] && g.path != [] && QuietGapsRun(env.commit)
    requires GoesThrough(w, names, f, env.commit(0)) && env.commit(0).io.Done?
    requires GoesThrough(w, names, g, env.commit(1)) && env.commit(1).io.RereadFails? && env.restore(0).RestoreDone?
    requires TakeSnapshots(w, [f, g]) == Some(snapshots) && |snapshots| == 2
    ensures
      var step := RunPlan(w, names, [f, g], snapshots, env);
      && step.reply == PatchFailed(true, true, 1) && !A.NothingHappened(w, step.world)
      && g.path in step.world.files && step.world.files[g.path].content == g.content
  {
    hide CommitFile, GoesThrough, A.NothingHappened, IsTree, Dated, TakeSnapshots, A.QuietGaps, LandsUnread,
         A.EverythingHappened, Rollback;
    var plan, e, e' := [f, g], env.commit(0), env.commit(1);
    GoesThroughNamed(w, names, f, e);
    GoesThroughNamed(w, names, g, e');
    var w1 := CommitFile(w, names, f, e).world;
    GoesThroughCommits(w, names, f, e);
    OthersGoThrough(w, names, f, e, g, e');
    LandsIfReread(w1, names, g, e');
    LandedUnread(w1, names, g, e');
    OneRolledBack(w, w1, names, f, g, snapshots, env);
    AtomicUnlessUnread(w, names, plan, snapshots, env);
  }

  lemma {:induction false} GoesThroughNamed(w: World, names: Names, f: PlanFile, e: Env)
    requires GoesThrough(w, names, f, e)
    ensures f.operation == OpModify && f.name in names && names[f.name] == f.path && f.path in w.files
            && f.path !in w.dirs && A.QuietGaps(e)
  {
  }

  lemma {:induction false} LandsIfReread(w: World, names: Names, f: PlanFile, e: Env)
    requires GoesThrough(w, names, f, e) && e.io.RereadFails?
    ensures LandsUnread(w, names, f, e)
  {
    hide CommitFile;
    GoesThroughCommits(w, names, f, Rereadable(e));
  }

  lemma {:induction false} SecondStops(w: World, w1: World, names: Names, plan: seq<PlanFile>, env: nat -> Env,
                                       landed: World)
    requires |plan| == 2
    requires CommitFile(w, names, plan[0], env(0)).ok && CommitFile(w, names, plan[0], env(0)).world == w1
    requires CommitFile(w1, names, plan[1], env(1)) == CommitStep(false, false, landed)
    ensures CommitAll(w, names, plan, env, []) == CommitRun(false, [true, false], landed)
    ensures WorldBefore(w, names, plan, env, 1) == w1
  {
    hide CommitFile;
    assert [] + [true] == [true] && [true] + [false] == [true, false];
    assert CommitAll(w1, names, plan, env, [true]) == CommitRun(false, [true, false], landed);
  }

  lemma {:induction false} ModifyRestores(w0: World, w: World, f: PlanFile, s: Snapshot)
    requires TakeSnapshot(w0, f) == Some(s) && f.path in w0.files
    ensures RollbackEntry(w, s, RestoreDone).ok
  {
  }

  lemma {:induction false} FirstIsRestored(w: World, snapshots: seq<Snapshot>, env: nat -> RestoreIo)
    requires |snapshots| == 2 && RollbackEntry(w, snapshots[0], env(0)).ok
    ensures Rollback(w, snapshots, [true, false], 2, env).ok && CountTrue([true, false]) == 1
  {
    hide RollbackEntry;
    var flags := [true, false];
    assert flags[..1] == [true] && [true][..0] == [];
    assert Rollback(w, snapshots, flags, 1, env) ==
           Rollback(RollbackEntry(w, snapshots[0], env(0)).world, snapshots, flags, 0, env);
  }

  lemma {:induction false} OneRolledBack(w: World, w1: World, names: Names, f: PlanFile, g: PlanFile,
                                         snapshots: seq<Snapshot>, env: PatchEnv)
    requires |snapshots| == 2 && TakeSnapshots(w, [f, g]) == Some(snapshots) && f.path in w.files
    requires CommitFile(w, names, f, env.commit(0)).ok && CommitFile(w, names, f, env.commit(0)).world == w1
    requires !CommitFile(w1, names, g, env.commit(1)).ok && !CommitFile(w1, names, g, env.commit(1)).committed
    requires env.restore(0).RestoreDone?
    ensures CommitAll(w, names, [f, g], env.commit, []) ==
            CommitRun(false, [true, false], CommitFile(w1, names, g, env.commit(1)).world)
    ensures RunPlan(w, names, [f, g], snapshots, env).reply == PatchFailed(true, true, 1)
    ensures WorldBefore(w, names, [f, g], env.commit, 1) == w1
  {
    hide CommitFile, TakeSnapshots, TakeSnapshot, RollbackEntry, Rollback, CommitAll, WorldBefore, CountTrue;
    var plan, landed := [f, g], CommitFile(w1, names, g, env.commit(1)).world;
    SecondStops(w, w1, names, plan, env.commit, landed);
    A.TakeSnapshotsGives(w, plan);
    assert TakeSnapshot(w, plan[0]) == Some(snapshots[0]);
    ModifyRestores(w, landed, f, snapshots[0]);
    FirstIsRestored(landed, snapshots, env.restore);
    assert [true, false][0] in [true, false];
  }
}
