/** A failed multi-edit while other writers go on: its own files are put back, and everything else is theirs. */
module MultiEditAmongWriters {
  import opened Wrappers
  import opened Workspace
  import opened Restores
  import opened Edits
  import opened OtherWriters
  import X = ExactEdit

  /** A group of `p` is flagged: its commit is known to have taken place. */
  ghost predicate Flagged(groups: seq<Group>, flags: seq<bool>, p: Path)
    requires |flags| <= |groups|
  {
    exists i :: 0 <= i < |flags| && flags[i] && groups[i].path == p
  }

  /** The last group attempted is that of `p`, it is taken for uncommitted, and yet its file landed. */
  ghost predicate LandedUnflagged(w: World, w': World, groups: seq<Group>, flags: seq<bool>, p: Path)
    requires |flags| <= |groups|
  {
    && flags != [] && !flags[|flags| - 1] && groups[|flags| - 1].path == p
    && w.log <= w'.log && CommittedIn(w'.log[|w.log|..], p)
  }

  /** The parents of the first `n` groups. */
  function ParentsOf(groups: seq<Group>, n: nat): set<Path>
    requires n <= |groups|
  {
    if n == 0 then {} else ParentsOf(groups, n - 1) + Ancestors(groups[n - 1].path)
  }

  /** The name of each group resolves to its path. */
  ghost predicate NamedGroups(names: Names, groups: seq<Group>) {
    forall i :: 0 <= i < |groups| ==> groups[i].name in names && names[groups[i].name] == groups[i].path
  }

  // ----- Grouping -----

  lemma {:induction false} PrepareSpares(w: World, names: Names, name: string, e: PrepareEnv, own: Path, p: Path)
    ensures
      var ready := PrepareEdit(w, names, name, e);
      && Spares(w, ready.world, own, p)
      && (ready.prepared.Ready? ==> name in names && ready.prepared.path == names[name])
  {
    hide Spares, External;
    NoStepSpares(w, own, p);
    if name in names {
      var w0 := External(w, e.beforeStat);
      var w1 := External(w0, e.beforeCheck);
      var w2 := External(w1, e.beforeRead);
      OthersSpare(w, e.beforeStat, own, p);
      OthersSpare(w0, e.beforeCheck, own, p);
      OthersSpare(w1, e.beforeRead, own, p);
      SparesJoin(w, w0, w1, own, p);
      SparesJoin(w, w1, w2, own, p);
    }
  }

  /** Grouping only reads, and each group it forms has a name of its path. */
  lemma {:induction false} GroupingSpares(w: World, names: Names, edits: seq<X.EditRequest>, env: nat -> PrepareEnv,
                                          done: nat, g: Grouping, own: Path, p: Path)
    requires done <= |edits| && g.Grouping? && NamedGroups(names, g.groups)
    ensures
      var step := GroupEdits(w, names, edits, env, done, g);
      Spares(w, step.world, own, p) && (step.grouping.Grouping? ==> NamedGroups(names, step.grouping.groups))
    decreases |edits| - done
  {
    hide Spares, PrepareEdit, NamedGroups, AddToGroup;
    NoStepSpares(w, own, p);
    if done < |edits| {
      var r := edits[done];
      var ready := PrepareEdit(w, names, r.name, env(done));
      PrepareSpares(w, names, r.name, env(done), own, p);
      if !ready.prepared.PrepareError? {
        var g' := if ready.prepared.Ready? then g.(groups := AddToGroup(g.groups, ready.prepared.path, r))
                  else g.(failed := true);
        if ready.prepared.Ready? {
          AddKeepsNames(names, g.groups, ready.prepared.path, r);
        }
        GroupingSpares(ready.world, names, edits, env, done + 1, g', own, p);
        SparesJoin(w, ready.world, GroupEdits(ready.world, names, edits, env, done + 1, g').world, own, p);
      }
    }
  }

  lemma {:induction false} AddKeepsNames(names: Names, groups: seq<Group>, p: Path, r: X.EditRequest)
    requires NamedGroups(names, groups) && r.name in names && names[r.name] == p
    ensures NamedGroups(names, AddToGroup(groups, p, r))
  {
  }

  // ----- The groups -----

  /** One group, whatever it meets; and if it needed no commit, nothing is committed. */
  lemma {:induction false} ApplyGroupOnly(w: World, names: Names, g: Group, prepare: PrepareEnv, e: Env, p: Path)
    requires g.name in names && names[g.name] == g.path
    ensures
      var step := ApplyGroup(w, names, g, prepare, e);
      && CommitsOnly(w, step.world, g.path, p)
      && (FileOk(step.reply) && !FileCommitted(step.reply) ==> Spared(w, step.world, p))
  {
    hide Spared, DirsBetween, Ancestors, CommitsOnly, PrepareEdit, Write, ApplyEdits;
    var ready := PrepareEdit(w, names, g.name, prepare);
    PrepareSpares(w, names, g.name, prepare, g.path, p);
    SparesOnly(w, ready.world, g.path, p);
    if ready.prepared.Ready? {
      var content := ready.prepared.content;
      var r := WriteRequest(g.name, ApplyEdits(content, g.edits).content, Overwrite, 0);
      WriteCommitsOnly(ready.world, names, r, e, Some(content), g.path, p);
      CommitAfterOthers(w, ready.world, Write(ready.world, names, r, e, Some(content)).world, g.path, p);
    }
  }

  /** After the groups so far, each as it should be: every path not flagged is spared. */
  ghost predicate SoFar(w0: World, w: World, groups: seq<Group>, flags: seq<bool>, p: Path)
    requires |flags| <= |groups|
  {
    (Flagged(groups, flags, p) || Spared(w0, w, p)) && DirsBetween(w0, w, ParentsOf(groups, |flags|), {})
  }

  ghost predicate AfterGroups(w0: World, w: World, groups: seq<Group>, flags: seq<bool>, p: Path)
    requires |flags| <= |groups|
  {
    && (Flagged(groups, flags, p) || Spared(w0, w, p) || LandedUnflagged(w0, w, groups, flags, p))
    && DirsBetween(w0, w, ParentsOf(groups, |flags|), {})
  }

  lemma {:induction false} GroupOneMore(w0: World, w: World, names: Names, groups: seq<Group>, prepare: PrepareEnv,
                                        e: Env, flags: seq<bool>, p: Path)
    requires NamedGroups(names, groups) && |flags| < |groups| && SoFar(w0, w, groups, flags, p)
    ensures
      var step := ApplyGroup(w, names, groups[|flags|], prepare, e);
      var flags' := flags + [FileCommitted(step.reply)];
      && AfterGroups(w0, step.world, groups, flags', p)
      && (FileOk(step.reply) ==> SoFar(w0, step.world, groups, flags', p))
  {
    hide Spared, ApplyGroup, DirsBetween, CommittedIn, Ancestors, FileOk, FileCommitted;
    var n := |flags|;
    var step := ApplyGroup(w, names, groups[n], prepare, e);
    var flags' := flags + [FileCommitted(step.reply)];
    ApplyGroupOnly(w, names, groups[n], prepare, e, p);
    DirsWiden(w0, w, ParentsOf(groups, n), {}, ParentsOf(groups, n + 1), {});
    DirsWiden(w, step.world, Ancestors(groups[n].path), {}, ParentsOf(groups, n + 1), {});
    DirsJoin(w0, w, step.world, ParentsOf(groups, n + 1), {});
    if Flagged(groups, flags, p) {
      var i :| 0 <= i < |flags| && flags[i] && groups[i].path == p;
      assert flags'[i];
    } else if FileCommitted(step.reply) && groups[n].path == p {
      assert flags'[n];
    } else if Spared(w, step.world, p) {
      SparedJoins(w0, w, step.world, p);
    } else {
      SparedGrows(w0, w, p);
      LogJoins(w0, w, step.world);
      CommittedJoins(w.log[|w0.log|..], step.world.log[|w.log|..], p);
    }
  }

  lemma {:induction false} GroupsSpareOthers(w0: World, w: World, names: Names, groups: seq<Group>, env: MultiEnv,
                                             flags: seq<bool>, p: Path)
    requires NamedGroups(names, groups) && |flags| <= |groups| && SoFar(w0, w, groups, flags, p)
    ensures
      var run := ApplyGroups(w, names, groups, env, flags);
      AfterGroups(w0, run.world, groups, run.flags, p)
    decreases |groups| - |flags|
  {
    hide Spared, ApplyGroup, DirsBetween, FileOk, FileCommitted;
    var n := |flags|;
    if n < |groups| {
      var step := ApplyGroup(w, names, groups[n], env.prepare(n), env.commit(n));
      GroupOneMore(w0, w, names, groups, env.prepare(n), env.commit(n), flags, p);
      if FileOk(step.reply) {
        GroupsSpareOthers(w0, step.world, names, groups, env, flags + [FileCommitted(step.reply)], p);
      }
    }
  }

  // ----- The rollback -----

  ghost predicate SavedFrom(w0: World, groups: seq<Group>, saved: seq<File>) {
    && |saved| == |groups|
    && forall i :: 0 <= i < |groups| ==> groups[i].path in w0.files && saved[i] == w0.files[groups[i].path]
  }

  lemma {:induction false} CaptureSaves(w: World, groups: seq<Group>)
    ensures CaptureAll(w, groups).Some? ==> SavedFrom(w, groups, CaptureAll(w, groups).value)
    decreases |groups|
  {
    if groups != [] {
      CaptureSaves(w, groups[..|groups| - 1]);
      assert forall i :: 0 <= i < |groups| - 1 ==> groups[..|groups| - 1][i] == groups[i];
    }
  }

  ghost predicate FlaggedFrom(groups: seq<Group>, flags: seq<bool>, i: nat, p: Path)
    requires |flags| <= |groups|
  {
    exists k :: i <= k < |flags| && flags[k] && groups[k].path == p
  }

  lemma {:induction false} GroupPutsBack(w0: World, w: World, own: Path, io: RestoreIo, p: Path)
    requires own in w0.files
    ensures
      var step := RestoreFile(w, own, w0.files[own].content, w0.files[own].mode, io);
      && DirsBetween(w, step.world, Ancestors(own), {})
      && if p == own then step.ok ==> PutBack(w0, step.world, p)
         else Spared(w, step.world, p) && (PutBack(w0, w, p) ==> PutBack(w0, step.world, p))
  {
    hide Spared, DirsBetween, Ancestors;
    RestoreSpares(w, own, w0.files[own].content, w0.files[own].mode, io, p);
  }

  /** A rollback that reports success puts every flagged path back; any rollback spares every other one. */
  lemma {:induction false} RollbackPutsBack(w0: World, w: World, groups: seq<Group>, saved: seq<File>,
                                            flags: seq<bool>, i: nat, env: nat -> RestoreIo, p: Path)
    requires i <= |flags| <= |groups| && SavedFrom(w0, groups, saved)
    ensures
      var back := RollbackGroups(w, groups, saved, flags, i, env);
      && ((FlaggedFrom(groups, flags, i, p) ==> PutBack(w0, w, p)) && back.ok && Flagged(groups, flags, p) ==>
            PutBack(w0, back.world, p))
      && (!Flagged(groups, flags, p) ==> Spared(w, back.world, p))
      && DirsBetween(w, back.world, ParentsOf(groups, i), {})
    decreases i
  {
    hide RestoreFile, PutBack, Spared, DirsBetween, Ancestors;
    if i == 0 {
      NoStep(w, w, p);
      NoEntryDirs(w, w, {}, {});
    } else {
      var made := ParentsOf(groups, i);
      var back := RollbackGroups(w, groups, saved, flags, i, env);
      if !flags[i - 1] {
        RollbackPutsBack(w0, w, groups, saved, flags, i - 1, env, p);
        DirsWiden(w, back.world, ParentsOf(groups, i - 1), {}, made, {});
      } else {
        var step := RestoreFile(w, groups[i - 1].path, saved[i - 1].content, saved[i - 1].mode, env(i - 1));
        GroupPutsBack(w0, w, groups[i - 1].path, env(i - 1), p);
        RollbackPutsBack(w0, step.world, groups, saved, flags, i - 1, env, p);
        DirsWiden(w, step.world, Ancestors(groups[i - 1].path), {}, made, {});
        DirsWiden(step.world, back.world, ParentsOf(groups, i - 1), {}, made, {});
        DirsJoin(w, step.world, back.world, made, {});
        if !Flagged(groups, flags, p) {
          SparedJoins(w, step.world, back.world, p);
        }
      }
    }
  }

  // ----- The request -----

  lemma {:induction false} RunAmongOthers(w0: World, names: Names, groups: seq<Group>, saved: seq<File>, env: MultiEnv,
                                          p: Path)
    requires NamedGroups(names, groups) && SavedFrom(w0, groups, saved)
    ensures
      var flags := ApplyGroups(w0, names, groups, env, []).flags;
      var step := RunGroups(w0, names, groups, saved, env);
      step.reply.MultiFailed? ==>
        && (Flagged(groups, flags, p) && (step.reply.rollbackSucceeded || !step.reply.rollbackAttempted) ==>
              PutBack(w0, step.world, p))
        && (!Flagged(groups, flags, p) ==>
              Spared(w0, step.world, p) || LandedUnflagged(w0, step.world, groups, flags, p))
        && DirsBetween(w0, step.world, ParentsOf(groups, |flags|), {})
  {
    hide PutBack, Spared, LandedUnflagged, RollbackGroups, ApplyGroups, DirsBetween, ParentsOf;
    var run := ApplyGroups(w0, names, groups, env, []);
    NothingYet(w0, groups, p);
    GroupsSpareOthers(w0, w0, names, groups, env, [], p);
    RollbackPutsBack(w0, run.world, groups, saved, run.flags, |run.flags|, env.restore, p);
    var back := RollbackGroups(run.world, groups, saved, run.flags, |run.flags|, env.restore);
    DirsJoin(w0, run.world, back.world, ParentsOf(groups, |run.flags|), {});
    if !Flagged(groups, run.flags, p) {
      if Spared(w0, run.world, p) {
        SparedJoins(w0, run.world, back.world, p);
      } else {
        StillLanded(w0, run.world, back.world, groups, run.flags, p);
      }
    }
  }

  lemma {:induction false} NothingYet(w: World, groups: seq<Group>, p: Path)
    ensures SoFar(w, w, groups, [], p)
  {
    NoStep(w, w, p);
    NoEntryDirs(w, w, {}, {});
  }

  lemma {:induction false} StillLanded(a: World, b: World, c: World, groups: seq<Group>, flags: seq<bool>, p: Path)
    requires |flags| <= |groups| && LandedUnflagged(a, b, groups, flags, p) && Spared(b, c, p)
    ensures LandedUnflagged(a, c, groups, flags, p)
  {
    hide Seen;
    LogJoins(a, b, c);
    CommittedJoins(b.log[|a.log|..], c.log[|b.log|..], p);
  }

  lemma {:induction false} LandedSince(a: World, b: World, c: World, groups: seq<Group>, flags: seq<bool>, p: Path)
    requires |flags| <= |groups| && Spared(a, b, p) && LandedUnflagged(b, c, groups, flags, p)
    ensures LandedUnflagged(a, c, groups, flags, p)
  {
    hide Seen;
    LogJoins(a, b, c);
    CommittedJoins(b.log[|a.log|..], c.log[|b.log|..], p);
  }

  /** The world in which the originals are captured. */
  function CaptureWorld(w: World, names: Names, edits: seq<X.EditRequest>, env: MultiEnv): World {
    External(GroupEdits(w, names, edits, env.group, 0, Grouping(false, [])).world, env.beforeSnapshot)
  }

  /**
   * A multi-edit that failed, while other writers did anything at any time. If it was rolled back with success, or had
   * nothing to roll back, every file it is known to have committed holds what was captured before the first commit,
   * whatever others wrote there since. Every other path holds what the last other writer since the request began has
   * left, or else what it held then, under the token it had; the one exception is the file of the group that failed, if
   * it landed all the same. The directories are those the other writers left, but for parents of the files written.
   */
  lemma {:induction false} MultiEditAmongOthers(w: World, names: Names, edits: seq<X.EditRequest>, env: MultiEnv,
                                                p: Path)
    requires MultiEdit(w, names, edits, env).reply.MultiFailed?
    ensures GroupEdits(w, names, edits, env.group, 0, Grouping(false, [])).grouping.Grouping?
    ensures
      var groups := GroupEdits(w, names, edits, env.group, 0, Grouping(false, [])).grouping.groups;
      var w0, step := CaptureWorld(w, names, edits, env), MultiEdit(w, names, edits, env);
      var flags := ApplyGroups(w0, names, groups, env, []).flags;
      && (Flagged(groups, flags, p) && (step.reply.rollbackSucceeded || !step.reply.rollbackAttempted) ==>
            PutBack(w0, step.world, p))
      && (!Flagged(groups, flags, p) ==>
            Spared(w, step.world, p) || LandedUnflagged(w, step.world, groups, flags, p))
      && DirsBetween(w, step.world, ParentsOf(groups, |flags|), {})
  {
    hide Spares, Spared, LandedUnflagged, DirsBetween, PutBack, NamedGroups, SavedFrom, GroupEdits, CaptureAll,
         ApplyGroups, ParentsOf, Flagged, Ancestors, External, RunGroups;
    var start := Grouping(false, []);
    var grouped := GroupEdits(w, names, edits, env.group, 0, start);
    var w0, groups := CaptureWorld(w, names, edits, env), grouped.grouping.groups;
    NoGroups(names);
    GroupingSpares(w, names, edits, env.group, 0, start, [], p);
    OthersSpare(grouped.world, env.beforeSnapshot, [], p);
    SparesJoin(w, grouped.world, w0, [], p);
    NothingMade(w, w0, p);
    CaptureSaves(w0, groups);
    var saved := CaptureAll(w0, groups).value;
    CaptureCount(w0, groups);
    RunAmongOthers(w0, names, groups, saved, env, p);
    var flags, after := ApplyGroups(w0, names, groups, env, []).flags, RunGroups(w0, names, groups, saved, env).world;
    DirsWiden(w, w0, {}, {}, ParentsOf(groups, |flags|), {});
    DirsJoin(w, w0, after, ParentsOf(groups, |flags|), {});
    if !Flagged(groups, flags, p) {
      if Spared(w0, after, p) {
        SparedJoins(w, w0, after, p);
      } else {
        LandedSince(w, w0, after, groups, flags, p);
      }
    }
  }

  lemma {:induction false} NoGroups(names: Names)
    ensures NamedGroups(names, [])
  {
  }

  lemma {:induction false} NothingMade(w: World, w': World, p: Path)
    requires Spares(w, w', [], p)
    ensures Spared(w, w', p) && DirsBetween(w, w', {}, {})
  {
    hide Spared;
    assert Ancestors([]) == {};
  }
}
