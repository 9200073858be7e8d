/** A failed patch while other writers go on: its own files are put back, and everything else is theirs. */
module RollbackAmongWriters {
  import opened Wrappers
  import opened Workspace
  import opened Restores
  import opened PatchTransaction
  import opened OtherWriters
  import A = AllOrNothing
  import D = DirectoryRollback

  /** The flag of an entry about `p` is set: its commit is known to have taken place. */
  ghost predicate Flagged(plan: seq<PlanFile>, flags: seq<bool>, p: Path)
    requires |flags| <= |plan|
  {
    exists i :: 0 <= i < |flags| && flags[i] && plan[i].path == p
  }

  /** The last entry attempted is about `p`, it is taken for uncommitted, and yet its file landed. */
  ghost predicate LandedUnflagged(w: World, w': World, plan: seq<PlanFile>, flags: seq<bool>, p: Path)
    requires |flags| <= |plan|
  {
    && flags != [] && !flags[|flags| - 1] && plan[|flags| - 1].path == p
    && w.log <= w'.log && CommittedIn(w'.log[|w.log|..], p)
  }

  /** The parents of the first `n` entries. */
  function ParentsOf(plan: seq<PlanFile>, n: nat): set<Path>
    requires n <= |plan|
  {
    if n == 0 then {} else ParentsOf(plan, n - 1) + Ancestors(plan[n - 1].path)
  }

  lemma {:induction false} ParentsGrow(plan: seq<PlanFile>, n: nat, m: nat)
    requires n <= m <= |plan|
    ensures ParentsOf(plan, n) <= ParentsOf(plan, m)
    decreases m
  {
    if n < m {
      ParentsGrow(plan, n, m - 1);
    }
  }

  // ----- The commit phase -----

  /** After the commits so far, all of them flagged: every other path is spared, and only their parents may be new. */
  ghost predicate SoFar(w0: World, w: World, plan: seq<PlanFile>, flags: seq<bool>, p: Path)
    requires |flags| <= |plan|
  {
    && A.AllTrue(flags, |flags|) && (Flagged(plan, flags, p) || Spared(w0, w, p))
    && DirsBetween(w0, w, ParentsOf(plan, |flags|), {})
  }

  ghost predicate AfterCommits(w0: World, w: World, plan: seq<PlanFile>, flags: seq<bool>, p: Path)
    requires |flags| <= |plan|
  {
    && (Flagged(plan, flags, p) || Spared(w0, w, p) || LandedUnflagged(w0, w, plan, flags, p))
    && DirsBetween(w0, w, ParentsOf(plan, |flags|), {})
  }

  lemma {:induction false} CommitFileCommitsOnly(w: World, names: Names, f: PlanFile, e: Env, p: Path)
    requires f.name in names && names[f.name] == f.path
    ensures CommitsOnly(w, CommitFile(w, names, f, e).world, f.path, p)
    ensures CommitFile(w, names, f, e).ok ==> CommitFile(w, names, f, e).committed
  {
    hide CommitsOnly, Write, Delete;
    match f.operation
    case OpCreate =>
      WriteCommitsOnly(w, names, WriteRequest(f.name, f.content, Create, f.mode), e, None, f.path, p);
    case OpModify =>
      WriteCommitsOnly(w, names, WriteRequest(f.name, f.content, Overwrite, f.mode), e, f.basis, f.path, p);
    case OpDelete => DeleteCommitsOnly(w, names, f.name, e, f.basis, f.path, p);
  }

  lemma {:induction false} CommitOneMore(w0: World, w: World, names: Names, plan: seq<PlanFile>, e: Env,
                                         flags: seq<bool>, p: Path)
    requires A.Named(names, plan) && |flags| < |plan| && SoFar(w0, w, plan, flags, p)
    ensures
      var step := CommitFile(w, names, plan[|flags|], e);
      var flags' := flags + [step.committed];
      && AfterCommits(w0, step.world, plan, flags', p)
      && (step.committed ==> SoFar(w0, step.world, plan, flags', p))
  {
    hide Spared, CommitFile, DirsBetween, CommittedIn, Ancestors;
    var n := |flags|;
    var step := CommitFile(w, names, plan[n], e);
    var flags' := flags + [step.committed];
    CommitFileCommitsOnly(w, names, plan[n], e, p);
    DirsWiden(w0, w, ParentsOf(plan, n), {}, ParentsOf(plan, n + 1), {});
    DirsWiden(w, step.world, Ancestors(plan[n].path), {}, ParentsOf(plan, n + 1), {});
    DirsJoin(w0, w, step.world, ParentsOf(plan, n + 1), {});
    if Flagged(plan, flags, p) {
      var i :| 0 <= i < |flags| && flags[i] && plan[i].path == p;
      assert flags'[i];
    } else if step.committed && plan[n].path == p {
      assert flags'[n];
    } else if Spared(w, step.world, p) {
      SparedJoins(w0, w, step.world, p);
    } else {
      SparedGrows(w0, w, p);
      LogJoins(w0, w, step.world);
      CommittedJoins(w.log[|w0.log|..], step.world.log[|w.log|..], p);
    }
  }

  lemma {:induction false} CommitsSpareOthers(w0: World, w: World, names: Names, plan: seq<PlanFile>, env: nat -> Env,
                                              flags: seq<bool>, p: Path)
    requires A.Named(names, plan) && |flags| <= |plan| && SoFar(w0, w, plan, flags, p)
    ensures
      var run := CommitAll(w, names, plan, env, flags);
      AfterCommits(w0, run.world, plan, run.flags, p)
    decreases |plan| - |flags|
  {
    hide Spared, CommitFile, DirsBetween;
    var n := |flags|;
    if n < |plan| {
      var step := CommitFile(w, names, plan[n], env(n));
      CommitFileCommitsOnly(w, names, plan[n], env(n), p);
      CommitOneMore(w0, w, names, plan, env(n), flags, p);
      if step.ok {
        CommitsSpareOthers(w0, step.world, names, plan, env, flags + [step.committed], p);
      }
    }
  }

  // ----- The rollback phase -----

  /** The parents that were missing when the snapshots of the flagged entries below `i` were taken. */
  function Removable(snapshots: seq<Snapshot>, flags: seq<bool>, i: nat): set<Path>
    requires i <= |flags| <= |snapshots|
  {
    if i == 0 then {}
    else Removable(snapshots, flags, i - 1) + if flags[i - 1] then D.ElementsOf(snapshots[i - 1].madeDirs) else {}
  }

  lemma {:induction false} RemoveDirsKeeps(w: World, dirs: seq<Path>)
    ensures
      var w' := RemoveDirs(w, dirs).world;
      w' == w.(dirs := w'.dirs) && w.dirs - D.ElementsOf(dirs) <= w'.dirs <= w.dirs
    decreases |dirs|
  {
    hide IsEmptyDir;
    if dirs != [] {
      var dir, above := dirs[|dirs| - 1], dirs[..|dirs| - 1];
      assert dirs == above + [dir];
      assert D.ElementsOf(dirs) == D.ElementsOf(above) + {dir};
      RemoveDirsKeeps(w, above);
      RemoveDirsKeeps(w.(dirs := w.dirs - {dir}), above);
    }
  }

  lemma {:induction false} RemovalSpares(w: World, own: Path, madeDirs: seq<Path>, io: RestoreIo, p: Path)
    ensures
      var step := RemoveCreated(w, own, madeDirs, io);
      var w' := step.world;
      && (p != own ==> Spared(w, w', p) && Lookup(w', p) == Lookup(w, p) && SameToken(w, w', p))
      && (step.ok ==> own !in w'.files && own !in w'.tokens)
      && DirsBetween(w, w', {}, D.ElementsOf(madeDirs))
  {
    hide Spared, RemoveDirs, DirsBetween;
    var gone := D.ElementsOf(madeDirs);
    var removed := if own in w.files then Logged(RemoveFile(w, own), Restored(own, None)) else w;
    var forgotten := Forget(removed, own);
    var cleaned := RemoveDirs(forgotten, madeDirs).world;
    RemoveDirsKeeps(forgotten, madeDirs);
    NoEntryDirs(w, w, {}, {});
    if own in w.files {
      OneEntryDirs(w, removed, Restored(own, None), {});
    }
    OneEntryDirs(removed, forgotten, Recorded(own, None), {});
    DirsJoin(w, removed, forgotten, {}, {});
    DirsWiden(w, w, {}, {}, {}, gone);
    DirsWiden(w, removed, {}, {}, {}, gone);
    DirsWiden(w, forgotten, {}, {}, {}, gone);
    NoEntryDirs(forgotten, cleaned, {}, gone);
    DirsJoin(w, forgotten, cleaned, {}, gone);
    if p != own {
      NoStep(w, w, p);
      if own in w.files {
        OneEntry(w, removed, Restored(own, None), p);
      }
      OneEntry(removed, forgotten, Recorded(own, None), p);
      SparedJoins(w, removed, forgotten, p);
      NoStep(forgotten, cleaned, p);
      SparedJoins(w, forgotten, cleaned, p);
    }
  }

  /** Undoing one entry: its path is put back, every other one is spared, and only missing parents may go. */
  lemma {:induction false} EntryPutsBack(w0: World, w: World, f: PlanFile, s: Snapshot, io: RestoreIo, p: Path)
    requires TakeSnapshot(w0, f) == Some(s)
    ensures
      var step := RollbackEntry(w, s, io);
      && DirsBetween(w, step.world, Ancestors(f.path), D.ElementsOf(s.madeDirs))
      && if p == f.path then step.ok ==> PutBack(w0, step.world, p)
         else Spared(w, step.world, p) && (PutBack(w0, w, p) ==> PutBack(w0, step.world, p))
  {
    hide MissingFrom, Spared, RemoveDirs, DirsBetween, Ancestors;
    assert s.path == f.path && s.existed == Lookup(w0, f.path);
    var gone := D.ElementsOf(s.madeDirs);
    if s.existed.Some? {
      RestoreSpares(w, s.path, s.existed.value.content, s.existed.value.mode, io, p);
      DirsWiden(w, RollbackEntry(w, s, io).world, Ancestors(f.path), {}, Ancestors(f.path), gone);
    } else {
      RemovalSpares(w, s.path, s.madeDirs, io, p);
      DirsWiden(w, RollbackEntry(w, s, io).world, {}, gone, Ancestors(f.path), gone);
    }
  }

  /** An entry at or above `i` about `p` has been undone. */
  ghost predicate FlaggedFrom(plan: seq<PlanFile>, flags: seq<bool>, i: nat, p: Path)
    requires |flags| <= |plan|
  {
    exists k :: i <= k < |flags| && flags[k] && plan[k].path == p
  }

  /** A rollback that reports success puts every flagged path back; any rollback spares every other one. */
  lemma {:induction false} RollbackPutsBack(w0: World, w: World, plan: seq<PlanFile>, snapshots: seq<Snapshot>,
                                            flags: seq<bool>, i: nat, env: nat -> RestoreIo, p: Path)
    requires i <= |flags| <= |plan| && A.SnapshotsOf(w0, plan, snapshots)
    requires FlaggedFrom(plan, flags, i, p) ==> PutBack(w0, w, p)
    ensures
      var back := Rollback(w, snapshots, flags, i, env);
      && (back.ok && Flagged(plan, flags, p) ==> PutBack(w0, back.world, p))
      && (!Flagged(plan, flags, p) ==> Spared(w, back.world, p))
      && DirsBetween(w, back.world, ParentsOf(plan, i), Removable(snapshots, flags, i))
    decreases i
  {
    hide RollbackEntry, PutBack, Spared, TakeSnapshot, DirsBetween, Ancestors, D.ElementsOf;
    if i == 0 {
      NoStep(w, w, p);
      NoEntryDirs(w, w, {}, {});
    } else {
      var made, gone := ParentsOf(plan, i), Removable(snapshots, flags, i);
      if !flags[i - 1] {
        RollbackPutsBack(w0, w, plan, snapshots, flags, i - 1, env, p);
        DirsWiden(w, Rollback(w, snapshots, flags, i, env).world, ParentsOf(plan, i - 1),
                  Removable(snapshots, flags, i - 1), made, gone);
      } else {
        var step := RollbackEntry(w, snapshots[i - 1], env(i - 1));
        EntryPutsBack(w0, w, plan[i - 1], snapshots[i - 1], env(i - 1), p);
        DirsWiden(w, step.world, Ancestors(plan[i - 1].path), D.ElementsOf(snapshots[i - 1].madeDirs), made, gone);
        if step.ok {
          var back := Rollback(step.world, snapshots, flags, i - 1, env);
          RollbackPutsBack(w0, step.world, plan, snapshots, flags, i - 1, env, p);
          DirsWiden(step.world, back.world, ParentsOf(plan, i - 1), Removable(snapshots, flags, i - 1), made, gone);
          DirsJoin(w, step.world, back.world, made, gone);
          if !Flagged(plan, flags, p) {
            SparedJoins(w, step.world, back.world, p);
          }
        }
      }
    }
  }

  /** What a rollback may remove was not there when the patch began. */
  lemma {:induction false} RemovableWasMissing(w0: World, plan: seq<PlanFile>, snapshots: seq<Snapshot>,
                                               flags: seq<bool>, i: nat)
    requires i <= |flags| <= |plan| && A.SnapshotsOf(w0, plan, snapshots)
    ensures Removable(snapshots, flags, i) !! w0.dirs
  {
    if i > 0 {
      RemovableWasMissing(w0, plan, snapshots, flags, i - 1);
      assert TakeSnapshot(w0, plan[i - 1]) == Some(snapshots[i - 1]);
      if snapshots[i - 1].madeDirs != [] {
        MissingIsMissing(w0, Parent(plan[i - 1].path));
      }
    }
  }

  lemma {:induction false} MissingIsMissing(w: World, dir: Path)
    ensures MissingFrom(w, dir).Some? ==> forall d :: d in MissingFrom(w, dir).value ==> d !in w.dirs
    decreases |dir|
  {
    if dir != [] {
      MissingIsMissing(w, Parent(dir));
    }
  }

  // ----- The transaction -----

  /**
   * A patch that failed, while other writers did anything at any time. If it was rolled back with success, or had
   * nothing to roll back, every path it is known to have committed holds what it held when the patch began, whatever
   * others wrote there since. Every other path holds what the last other writer since has left, or else what it held
   * when the patch began, under the token it had; the one exception is the file whose commit failed, if it landed all
   * the same. The directories are those the other writers left, but for parents that the patch made and parents that
   * were missing when it began.
   */
  lemma {:induction false} RollbackAmongOthers(w0: World, names: Names, plan: seq<PlanFile>, snapshots: seq<Snapshot>,
                                               env: PatchEnv, p: Path)
    requires A.Named(names, plan) && TakeSnapshots(w0, plan) == Some(snapshots) && |snapshots| == |plan|
    ensures
      var flags := CommitAll(w0, names, plan, env.commit, []).flags;
      var step := RunPlan(w0, names, plan, snapshots, env);
      var removable := Removable(snapshots, flags, |flags|);
      step.reply.PatchFailed? ==>
        && (Flagged(plan, flags, p) && (step.reply.rollbackSucceeded || !step.reply.rollbackAttempted) ==>
              PutBack(w0, step.world, p))
        && (!Flagged(plan, flags, p) ==>
              Spared(w0, step.world, p) || LandedUnflagged(w0, step.world, plan, flags, p))
        && DirsBetween(w0, step.world, ParentsOf(plan, |flags|), removable) && removable !! w0.dirs
  {
    hide PutBack, Spared, LandedUnflagged, Rollback, CommitAll, A.SnapshotsOf, A.Named, TakeSnapshots, DirsBetween,
         ParentsOf, Removable;
    var run := CommitAll(w0, names, plan, env.commit, []);
    var flags := run.flags;
    NothingYet(w0, plan, p);
    CommitsSpareOthers(w0, w0, names, plan, env.commit, [], p);
    A.TakeSnapshotsGives(w0, plan);
    RemovableWasMissing(w0, plan, snapshots, flags, |flags|);
    RollbackPutsBack(w0, run.world, plan, snapshots, flags, |flags|, env.restore, p);
    var back := Rollback(run.world, snapshots, flags, |flags|, env.restore);
    var made, gone := ParentsOf(plan, |flags|), Removable(snapshots, flags, |flags|);
    DirsWiden(w0, run.world, made, {}, made, gone);
    DirsJoin(w0, run.world, back.world, made, gone);
    if !Flagged(plan, flags, p) {
      if Spared(w0, run.world, p) {
        SparedJoins(w0, run.world, back.world, p);
      } else {
        StillLanded(w0, run.world, back.world, plan, flags, p);
      }
    }
  }

  lemma {:induction false} NothingYet(w: World, plan: seq<PlanFile>, p: Path)
    ensures SoFar(w, w, plan, [], p)
  {
    NoStep(w, w, p);
    NoEntryDirs(w, w, {}, {});
  }

  lemma {:induction false} StillLanded(a: World, b: World, c: World, plan: seq<PlanFile>, flags: seq<bool>, p: Path)
    requires |flags| <= |plan| && LandedUnflagged(a, b, plan, flags, p) && Spared(b, c, p)
    ensures LandedUnflagged(a, c, plan, flags, p)
  {
    hide Seen;
    LogJoins(a, b, c);
    CommittedJoins(b.log[|a.log|..], c.log[|b.log|..], p);
  }
}
