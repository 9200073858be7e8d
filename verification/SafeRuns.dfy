/** No lost update over whole runs: edits, multi-edits and patches keep the history safe, and so does any sequence. */
module SafeRuns {
  import opened Wrappers
  import opened Workspace
  import opened NoLostUpdate
  import opened Restores
  import E = Edits
  import X = ExactEdit
  import P = PatchTransaction
  import D = UnifiedDiff

  // ----- Restores -----

  lemma {:induction false} RestoreFileIsSafe(w: World, p: Path, content: string, mode: nat, io: RestoreIo)
    requires Sound(w)
    ensures SafeStep(w, RestoreFile(w, p, content, mode, io).world)
  {
    hide SafeStep, Sound;
    NothingIsSafe(w);
    var entry := Restored(p, Some(File(content, mode, w.clock)));
    var put := Logged(PutFile(w, p, content, mode), entry);
    PutIsSafe(w, p, content, mode, entry);
    StepIsSound(w, put);
    SoundIsDated(put, p);
    RecordIsSafe(put, p, TokenOf(put.files[p]));
    SafeStepTransitive(w, put, Record(put, p, TokenOf(put.files[p])));
  }

  lemma {:induction false} RemoveDirsIsSafe(w: World, dirs: seq<Path>)
    requires Sound(w)
    ensures SafeStep(w, RemoveDirs(w, dirs).world)
    decreases |dirs|
  {
    hide SafeStep, Sound, IsEmptyDir;
    NothingIsSafe(w);
    if dirs != [] {
      var dir, above := dirs[|dirs| - 1], dirs[..|dirs| - 1];
      DirsAreIrrelevant(w, w.dirs - {dir});
      var w' := w.(dirs := w.dirs - {dir});
      RemoveDirsIsSafe(w, above);
      StepIsSound(w, w');
      RemoveDirsIsSafe(w', above);
      SafeStepTransitive(w, w', RemoveDirs(w', above).world);
    }
  }

  lemma {:induction false} DirsAreIrrelevant(w: World, dirs: set<Path>)
    requires Sound(w)
    ensures SafeStep(w, w.(dirs := dirs))
  {
    hide SafeLog, LastRecorded, Replay;
  }

  lemma {:induction false} RemoveCreatedIsSafe(w: World, p: Path, madeDirs: seq<Path>, io: RestoreIo)
    requires Sound(w)
    ensures SafeStep(w, RemoveCreated(w, p, madeDirs, io).world)
  {
    hide SafeStep, Sound, RemoveDirs;
    NothingIsSafe(w);
    var removed := if p in w.files then Logged(RemoveFile(w, p), Restored(p, None)) else w;
    if p in w.files {
      RemoveIsSafe(w, p, Restored(p, None));
    }
    StepIsSound(w, removed);
    var forgotten := Forget(removed, p);
    ForgetIsSafe(removed, p);
    SafeStepTransitive(w, removed, forgotten);
    StepIsSound(w, forgotten);
    RemoveDirsIsSafe(forgotten, madeDirs);
    SafeStepTransitive(w, forgotten, RemoveDirs(forgotten, madeDirs).world);
  }

  // ----- Edits -----

  lemma {:induction false} PrepareIsSafe(w: World, names: Names, name: string, e: E.PrepareEnv)
    requires Sound(w)
    ensures
      var step := E.PrepareEdit(w, names, name, e);
      && SafeStep(w, step.world) && step.world.tokens == w.tokens
      && (step.prepared.Ready? ==>
            && name in names && step.prepared.path == names[name]
            && BasisHolds(step.world, names[name], Some(step.prepared.content)))
  {
    hide SafeStep, External, Sound, BasisHolds;
    NothingIsSafe(w);
    if name in names {
      var w0 := External(w, e.beforeStat);
      ExternalIsSafe(w, e.beforeStat);
      StepIsSound(w, w0);
      var w1 := External(w0, e.beforeCheck);
      ExternalIsSafe(w0, e.beforeCheck);
      SafeStepTransitive(w, w0, w1);
      StepIsSound(w, w1);
      var w2 := External(w1, e.beforeRead);
      ExternalIsSafe(w1, e.beforeRead);
      SafeStepTransitive(w, w1, w2);
      StepIsSound(w, w2);
      if names[name] in w2.files {
        ReadHoldsBasis(w2, names[name]);
      }
    }
  }

  lemma {:induction false} ReadHoldsBasis(w: World, p: Path)
    requires Sound(w) && p in w.files
    ensures BasisHolds(w, p, Some(w.files[p].content))
  {
    hide SafeLog, LastRecorded, Registered, Replay;
  }

  lemma {:induction false} CommitEditIsSafe(w: World, names: Names, name: string, content: string, basis: string,
                                            e: Env)
    requires Sound(w) && name in names && BasisHolds(w, names[name], Some(basis))
    ensures SafeStep(w, E.CommitEdit(w, names, name, content, basis, e).world)
  {
    hide SafeStep, Sound, BasisHolds, Write;
    WriteIsSafe(w, names, WriteRequest(name, content, Overwrite, 0), e, Some(basis));
  }

  /** An edit commits content computed from exactly the bytes it replaces. */
  lemma {:induction false} EditIsSafe(w: World, names: Names, r: X.EditRequest, prepare: E.PrepareEnv, e: Env)
    requires Sound(w)
    ensures SafeStep(w, E.Edit(w, names, r, prepare, e).world)
  {
    hide SafeStep, Sound, BasisHolds, E.PrepareEdit, E.CommitEdit, X.ApplyExactEdit;
    PrepareIsSafe(w, names, r.name, prepare);
    var ready := E.PrepareEdit(w, names, r.name, prepare);
    StepIsSound(w, ready.world);
    if ready.prepared.Ready? {
      var content := ready.prepared.content;
      var updated := X.ApplyExactEdit(content, r).content;
      CommitEditIsSafe(ready.world, names, r.name, updated, content, e);
      SafeStepTransitive(w, ready.world, E.CommitEdit(ready.world, names, r.name, updated, content, e).world);
    }
  }

  lemma {:induction false} ApplyGroupIsSafe(w: World, names: Names, group: E.Group, prepare: E.PrepareEnv, e: Env)
    requires Sound(w)
    ensures SafeStep(w, E.ApplyGroup(w, names, group, prepare, e).world)
  {
    hide SafeStep, Sound, BasisHolds, E.PrepareEdit, E.CommitEdit, E.ApplyEdits;
    PrepareIsSafe(w, names, group.name, prepare);
    var ready := E.PrepareEdit(w, names, group.name, prepare);
    StepIsSound(w, ready.world);
    if ready.prepared.Ready? {
      var content := ready.prepared.content;
      var updated := E.ApplyEdits(content, group.edits).content;
      CommitEditIsSafe(ready.world, names, group.name, updated, content, e);
      SafeStepTransitive(w, ready.world, E.CommitEdit(ready.world, names, group.name, updated, content, e).world);
    }
  }

  lemma {:induction false} GroupEditsIsSafe(w: World, names: Names, edits: seq<X.EditRequest>, env: nat -> E.PrepareEnv,
                                            done: nat, g: E.Grouping)
    requires Sound(w) && done <= |edits| && g.Grouping?
    ensures SafeStep(w, E.GroupEdits(w, names, edits, env, done, g).world)
    decreases |edits| - done
  {
    hide SafeStep, Sound, BasisHolds, E.PrepareEdit, E.AddToGroup;
    NothingIsSafe(w);
    if done < |edits| {
      var ready := E.PrepareEdit(w, names, edits[done].name, env(done));
      PrepareIsSafe(w, names, edits[done].name, env(done));
      StepIsSound(w, ready.world);
      if !ready.prepared.PrepareError? {
        var g' := if ready.prepared.Unready? then g.(failed := true)
                  else g.(groups := E.AddToGroup(g.groups, ready.prepared.path, edits[done]));
        GroupEditsIsSafe(ready.world, names, edits, env, done + 1, g');
        SafeStepTransitive(w, ready.world, E.GroupEdits(ready.world, names, edits, env, done + 1, g').world);
      }
    }
  }

  lemma {:induction false} ApplyGroupsIsSafe(w: World, names: Names, groups: seq<E.Group>, env: E.MultiEnv,
                                             flags: seq<bool>)
    requires Sound(w) && |flags| <= |groups|
    ensures SafeStep(w, E.ApplyGroups(w, names, groups, env, flags).world)
    decreases |groups| - |flags|
  {
    hide SafeStep, Sound, E.ApplyGroup, E.FileOk, E.FileCommitted;
    NothingIsSafe(w);
    if |flags| < |groups| {
      var i := |flags|;
      var step := E.ApplyGroup(w, names, groups[i], env.prepare(i), env.commit(i));
      ApplyGroupIsSafe(w, names, groups[i], env.prepare(i), env.commit(i));
      StepIsSound(w, step.world);
      var flags' := flags + [E.FileCommitted(step.reply)];
      if E.FileOk(step.reply) {
        ApplyGroupsIsSafe(step.world, names, groups, env, flags');
        SafeStepTransitive(w, step.world, E.ApplyGroups(step.world, names, groups, env, flags').world);
      }
    }
  }

  lemma {:induction false} RollbackGroupsIsSafe(w: World, groups: seq<E.Group>, saved: seq<File>, flags: seq<bool>,
                                                i: nat, env: nat -> RestoreIo)
    requires Sound(w) && i <= |flags| <= |groups| && |saved| == |groups|
    ensures SafeStep(w, E.RollbackGroups(w, groups, saved, flags, i, env).world)
    decreases i
  {
    hide SafeStep, Sound, RestoreFile;
    NothingIsSafe(w);
    if i > 0 {
      if flags[i - 1] {
        var step := RestoreFile(w, groups[i - 1].path, saved[i - 1].content, saved[i - 1].mode, env(i - 1));
        RestoreFileIsSafe(w, groups[i - 1].path, saved[i - 1].content, saved[i - 1].mode, env(i - 1));
        StepIsSound(w, step.world);
        RollbackGroupsIsSafe(step.world, groups, saved, flags, i - 1, env);
        SafeStepTransitive(w, step.world, E.RollbackGroups(step.world, groups, saved, flags, i - 1, env).world);
      } else {
        RollbackGroupsIsSafe(w, groups, saved, flags, i - 1, env);
      }
    }
  }

  lemma {:induction false} RunGroupsIsSafe(w: World, names: Names, groups: seq<E.Group>, saved: seq<File>,
                                           env: E.MultiEnv)
    requires Sound(w) && |saved| == |groups|
    ensures SafeStep(w, E.RunGroups(w, names, groups, saved, env).world)
  {
    hide SafeStep, Sound, E.ApplyGroups, E.RollbackGroups;
    var run := E.ApplyGroups(w, names, groups, env, []);
    ApplyGroupsIsSafe(w, names, groups, env, []);
    StepIsSound(w, run.world);
    RollbackGroupsIsSafe(run.world, groups, saved, run.flags, |run.flags|, env.restore);
    SafeStepTransitive(w, run.world,
                       E.RollbackGroups(run.world, groups, saved, run.flags, |run.flags|, env.restore).world);
  }

  lemma {:induction false} MultiEditIsSafe(w: World, names: Names, edits: seq<X.EditRequest>, env: E.MultiEnv)
    requires Sound(w)
    ensures SafeStep(w, E.MultiEdit(w, names, edits, env).world)
  {
    hide SafeStep, Sound, External, E.GroupEdits, E.CaptureAll, E.RunGroups;
    var grouped := E.GroupEdits(w, names, edits, env.group, 0, E.Grouping(false, []));
    GroupEditsIsSafe(w, names, edits, env.group, 0, E.Grouping(false, []));
    StepIsSound(w, grouped.world);
    var w' := External(grouped.world, env.beforeSnapshot);
    ExternalIsSafe(grouped.world, env.beforeSnapshot);
    SafeStepTransitive(w, grouped.world, w');
    StepIsSound(w, w');
    if grouped.grouping.Grouping? {
      var groups := grouped.grouping.groups;
      E.CaptureCount(w', groups);
      if E.CaptureAll(w', groups).Some? {
        RunGroupsIsSafe(w', names, groups, E.CaptureAll(w', groups).value, env);
        SafeStepTransitive(w, w', E.RunGroups(w', names, groups, E.CaptureAll(w', groups).value, env).world);
      }
    }
  }

  // ----- Patches -----

  lemma {:induction false} PatchTargetIsSafe(w: World, names: Names, name: string, e: P.PlanEnv)
    requires Sound(w)
    ensures
      var step := P.ReadPatchTarget(w, names, name, e);
      && SafeStep(w, step.world) && step.world.tokens == w.tokens
      && (step.plan.Planned? ==> name in names && BasisHolds(step.world, names[name], Some(step.plan.value)))
  {
    hide SafeStep, External, Sound, BasisHolds;
    NothingIsSafe(w);
    if name in names {
      var w1 := External(w, e.beforeCheck);
      ExternalIsSafe(w, e.beforeCheck);
      StepIsSound(w, w1);
      var w2 := External(w1, e.beforeRead);
      ReadIsSafe(w1, names, name, e.readPolicy, e.beforeRead, false);
      SafeStepTransitive(w, w1, Read(w1, names, name, e.readPolicy, e.beforeRead, false).world);
      ExternalIsSafe(w1, e.beforeRead);
      StepIsSound(w1, w2);
      if names[name] in w2.files {
        ReadHoldsBasis(w2, names[name]);
      }
    }
  }

  /** The plan of one file knows its path, and its basis is what the registered token names. */
  ghost predicate PlanHolds(w: World, names: Names, f: P.PlanFile) {
    f.name in names && names[f.name] == f.path && BasisHolds(w, f.path, f.basis)
  }

  lemma {:induction false} PlanOneIsSafe(w: World, names: Names, f: D.PatchFile, e: P.PlanEnv)
    requires Sound(w)
    ensures
      var step := P.PlanOne(w, names, f, e);
      && SafeStep(w, step.world) && step.world.tokens == w.tokens
      && (step.plan.Planned? ==> PlanHolds(step.world, names, step.plan.value))
  {
    hide SafeStep, Sound, P.ReadPatchTarget;
    NothingIsSafe(w);
    PatchTargetIsSafe(w, names, f.oldPath, e);
  }

  ghost predicate AllPlansHold(w: World, names: Names, plan: seq<P.PlanFile>, from: nat) {
    forall i :: from <= i < |plan| ==> PlanHolds(w, names, plan[i])
  }

  lemma {:induction false} PlansStay(w: World, w': World, names: Names, plan: seq<P.PlanFile>, from: nat)
    requires AllPlansHold(w, names, plan, from) && Evolves(w, w')
    requires forall i :: from <= i < |plan| ==>
               plan[i].path in w'.tokens ==>
               plan[i].path in w.tokens && w'.tokens[plan[i].path] == w.tokens[plan[i].path]
    ensures AllPlansHold(w', names, plan, from)
  {
    hide Evolves, BasisHolds;
    forall i | from <= i < |plan| ensures PlanHolds(w', names, plan[i]) {
      assert PlanHolds(w, names, plan[i]);
      BasisStays(w, w', plan[i].path, plan[i].basis);
    }
  }

  lemma {:induction false} PlanFilesIsSafe(w: World, names: Names, files: seq<D.PatchFile>, env: nat -> P.PlanEnv,
                                           done: seq<P.PlanFile>)
    requires Sound(w) && |done| <= |files| && AllPlansHold(w, names, done, 0) && P.Distinct(done)
    ensures
      var step := P.PlanFiles(w, names, files, env, done);
      && SafeStep(w, step.world) && step.world.tokens == w.tokens
      && (step.plan.Planned? ==> AllPlansHold(step.world, names, step.plan.value, 0) && P.Distinct(step.plan.value))
    decreases |files| - |done|
  {
    hide SafeStep, Sound, PlanHolds, P.PlanOne, P.Touches;
    NothingIsSafe(w);
    if |done| < |files| {
      var step := P.PlanOne(w, names, files[|done|], env(|done|));
      PlanOneIsSafe(w, names, files[|done|], env(|done|));
      StepIsSound(w, step.world);
      if step.plan.Planned? && !P.Touches(done, step.plan.value.path) {
        var done' := done + [step.plan.value];
        PlansStay(w, step.world, names, done, 0);
        ExtendPlan(step.world, names, done, step.plan.value);
        PlanFilesIsSafe(step.world, names, files, env, done');
        SafeStepTransitive(w, step.world, P.PlanFiles(step.world, names, files, env, done').world);
      }
    }
  }

  lemma {:induction false} ExtendPlan(w: World, names: Names, done: seq<P.PlanFile>, f: P.PlanFile)
    requires AllPlansHold(w, names, done, 0) && P.Distinct(done) && PlanHolds(w, names, f) && !P.Touches(done, f.path)
    ensures AllPlansHold(w, names, done + [f], 0) && P.Distinct(done + [f])
  {
    hide PlanHolds;
  }

  /** An operation on one path leaves the tokens of the others alone. */
  ghost predicate OtherTokens(w: World, w': World, p: Path) {
    forall q :: q != p ==> (q in w'.tokens <==> q in w.tokens) && (q in w.tokens ==> w'.tokens[q] == w.tokens[q])
  }

  lemma {:induction false} ExternalTokens(w: World, c: Change)
    ensures External(w, c).tokens == w.tokens
  {
  }

  lemma {:induction false} LandTokens(w: World, p: Path, content: string, mode: nat, e: Env, token: Option<Token>,
                                      backup: Option<string>, basis: Option<string>)
    ensures OtherTokens(w, Land(w, p, content, mode, e, token, backup, basis).world, p)
  {
    hide External, Ancestors;
    var entry := Commit(p, Lookup(w, p), Some(File(content, mode, w.clock)), token, backup, basis);
    ExternalTokens(Logged(PutFile(w, p, content, mode), entry), e.beforeReread);
  }

  lemma {:induction false} WriteTokens(w: World, names: Names, r: WriteRequest, e: Env, basis: Option<string>)
    requires r.name in names
    ensures OtherTokens(w, Write(w, names, r, e, basis).world, names[r.name])
  {
    hide External, Land, Ancestors, BelowFile;
    var p, w' := names[r.name], External(w, e.beforeStat);
    var mode := WriteMode(r.mode, Lookup(w', p));
    var w1 := External(w', e.beforeCheck);
    var w2 := External(w1, e.beforeBackup);
    var w3 := External(w2, e.beforeCommit);
    var c3 := External(w', e.beforeCommit);
    ExternalTokens(w, e.beforeStat);
    ExternalTokens(w', e.beforeCheck);
    ExternalTokens(w1, e.beforeBackup);
    ExternalTokens(w2, e.beforeCommit);
    ExternalTokens(w', e.beforeCommit);
    LandTokens(c3, p, r.content, mode, e, None, None, None);
    if p in w.tokens && p in w2.files {
      LandTokens(w3, p, r.content, mode, e, Some(w.tokens[p]), Some(w2.files[p].content), basis);
    }
  }

  lemma {:induction false} DeleteTokens(w: World, names: Names, name: string, e: Env, basis: Option<string>)
    requires name in names
    ensures OtherTokens(w, Delete(w, names, name, e, basis).world, names[name])
  {
    hide External;
    var w' := External(w, e.beforeStat);
    ExternalTokens(w, e.beforeStat);
    ExternalTokens(w', e.beforeCheck);
    ExternalTokens(External(w', e.beforeCheck), e.beforeBackup);
    ExternalTokens(External(External(w', e.beforeCheck), e.beforeBackup), e.beforeCommit);
  }

  lemma {:induction false} CommitFileIsSafe(w: World, names: Names, f: P.PlanFile, e: Env)
    requires Sound(w) && PlanHolds(w, names, f)
    ensures SafeStep(w, P.CommitFile(w, names, f, e).world)
    ensures OtherTokens(w, P.CommitFile(w, names, f, e).world, f.path)
  {
    hide SafeStep, Sound, Write, Delete, OtherTokens;
    match f.operation
    case OpCreate =>
      NoBasis(w, f.path);
      WriteIsSafe(w, names, WriteRequest(f.name, f.content, Create, f.mode), e, None);
      WriteTokens(w, names, WriteRequest(f.name, f.content, Create, f.mode), e, None);
    case OpModify =>
      WriteIsSafe(w, names, WriteRequest(f.name, f.content, Overwrite, f.mode), e, f.basis);
      WriteTokens(w, names, WriteRequest(f.name, f.content, Overwrite, f.mode), e, f.basis);
    case OpDelete =>
      DeleteIsSafe(w, names, f.name, e, f.basis);
      DeleteTokens(w, names, f.name, e, f.basis);
  }

  lemma {:induction false} NoBasis(w: World, p: Path)
    ensures BasisHolds(w, p, None)
  {
  }

  lemma {:induction false} LaterPlansStay(w: World, w': World, names: Names, plan: seq<P.PlanFile>, i: nat)
    requires i < |plan| && AllPlansHold(w, names, plan, i) && P.Distinct(plan)
    requires Evolves(w, w') && OtherTokens(w, w', plan[i].path)
    ensures AllPlansHold(w', names, plan, i + 1)
  {
    hide Evolves, PlanHolds;
    PlansStay(w, w', names, plan, i + 1);
  }

  lemma {:induction false} CommitAllIsSafe(w: World, names: Names, plan: seq<P.PlanFile>, env: nat -> Env,
                                           flags: seq<bool>)
    requires Sound(w) && |flags| <= |plan| && AllPlansHold(w, names, plan, |flags|) && P.Distinct(plan)
    ensures SafeStep(w, P.CommitAll(w, names, plan, env, flags).world)
    decreases |plan| - |flags|
  {
    hide SafeStep, Sound, PlanHolds, P.CommitFile, OtherTokens;
    NothingIsSafe(w);
    if |flags| < |plan| {
      var i := |flags|;
      var step := P.CommitFile(w, names, plan[i], env(i));
      CommitFileIsSafe(w, names, plan[i], env(i));
      StepIsSound(w, step.world);
      if step.ok {
        LaterPlansStay(w, step.world, names, plan, i);
        CommitAllIsSafe(step.world, names, plan, env, flags + [true]);
        SafeStepTransitive(w, step.world, P.CommitAll(step.world, names, plan, env, flags + [true]).world);
      }
    }
  }

  lemma {:induction false} RollbackIsSafe(w: World, snapshots: seq<P.Snapshot>, flags: seq<bool>, i: nat,
                                          env: nat -> RestoreIo)
    requires Sound(w) && i <= |flags| <= |snapshots|
    ensures SafeStep(w, P.Rollback(w, snapshots, flags, i, env).world)
    decreases i
  {
    hide SafeStep, Sound, RestoreFile, RemoveCreated;
    NothingIsSafe(w);
    if i > 0 {
      if flags[i - 1] {
        var s := snapshots[i - 1];
        var step := P.RollbackEntry(w, s, env(i - 1));
        if s.existed.Some? {
          RestoreFileIsSafe(w, s.path, s.existed.value.content, s.existed.value.mode, env(i - 1));
        } else {
          RemoveCreatedIsSafe(w, s.path, s.madeDirs, env(i - 1));
        }
        StepIsSound(w, step.world);
        RollbackIsSafe(step.world, snapshots, flags, i - 1, env);
        SafeStepTransitive(w, step.world, P.Rollback(step.world, snapshots, flags, i - 1, env).world);
      } else {
        RollbackIsSafe(w, snapshots, flags, i - 1, env);
      }
    }
  }

  lemma {:induction false} RunPlanIsSafe(w: World, names: Names, plan: seq<P.PlanFile>, snapshots: seq<P.Snapshot>,
                                         env: P.PatchEnv)
    requires Sound(w) && |snapshots| == |plan| && AllPlansHold(w, names, plan, 0) && P.Distinct(plan)
    ensures SafeStep(w, P.RunPlan(w, names, plan, snapshots, env).world)
  {
    hide SafeStep, Sound, P.CommitAll, P.Rollback, P.CountTrue, AllPlansHold;
    var run := P.CommitAll(w, names, plan, env.commit, []);
    CommitAllIsSafe(w, names, plan, env.commit, []);
    StepIsSound(w, run.world);
    RollbackIsSafe(run.world, snapshots, run.flags, |run.flags|, env.restore);
    SafeStepTransitive(w, run.world, P.Rollback(run.world, snapshots, run.flags, |run.flags|, env.restore).world);
  }

  /** Every write and delete of a patch replaces the bytes its hunks were applied to. */
  lemma {:induction false} ApplyPatchIsSafe(w: World, names: Names, patch: string, lib: D.PathLibrary, env: P.PatchEnv)
    requires Sound(w)
    ensures SafeStep(w, P.ApplyPatch(w, names, patch, lib, env).world)
  {
    hide SafeStep, Sound, External, PlanHolds, P.PlanFiles, P.TakeSnapshots, P.RunPlan, D.ParsePatch, Evolves;
    NothingIsSafe(w);
    if D.ParsePatch(patch, lib).Success? {
      var files := D.ParsePatch(patch, lib).value;
      var planned := P.PlanFiles(w, names, files, env.plan, []);
      PlanFilesIsSafe(w, names, files, env.plan, []);
      StepIsSound(w, planned.world);
      var w' := External(planned.world, env.beforeSnapshot);
      ExternalIsSafe(planned.world, env.beforeSnapshot);
      SafeStepTransitive(w, planned.world, w');
      StepIsSound(planned.world, w');
      if planned.plan.Planned? {
        var plan := planned.plan.value;
        PlansStay(planned.world, w', names, plan, 0);
        P.SnapshotCount(w', plan);
        if P.TakeSnapshots(w', plan).Some? {
          RunPlanIsSafe(w', names, plan, P.TakeSnapshots(w', plan).value, env);
          SafeStepTransitive(w, w', P.RunPlan(w', names, plan, P.TakeSnapshots(w', plan).value, env).world);
        }
      }
    }
  }

  // ----- Whole runs -----

  /** The calls a session can make on the file service, and what other writers do in between. */
  datatype Operation =
    | DoRead(name: string, policy: Policy, beforeRead: Change)
    | DoWrite(request: WriteRequest, env: Env)
    | DoDelete(name: string, env: Env)
    | DoEdit(edit: X.EditRequest, prepare: E.PrepareEnv, env: Env)
    | DoMultiEdit(edits: seq<X.EditRequest>, multiEnv: E.MultiEnv)
    | DoPatch(patch: string, lib: D.PathLibrary, patchEnv: P.PatchEnv)
    | DoExternal(change: Change)

  function Perform(w: World, names: Names, op: Operation): World {
    match op
    case DoRead(name, policy, beforeRead) => Read(w, names, name, policy, beforeRead, true).world
    case DoWrite(request, env) => Write(w, names, request, env, None).world
    case DoDelete(name, env) => Delete(w, names, name, env, None).world
    case DoEdit(edit, prepare, env) => E.Edit(w, names, edit, prepare, env).world
    case DoMultiEdit(edits, multiEnv) => E.MultiEdit(w, names, edits, multiEnv).world
    case DoPatch(patch, lib, patchEnv) => P.ApplyPatch(w, names, patch, lib, patchEnv).world
    case DoExternal(change) => External(w, change)
  }

  function Run(w: World, names: Names, ops: seq<Operation>): World
    decreases |ops|
  {
    if ops == [] then w else Perform(Run(w, names, ops[..|ops| - 1]), names, ops[|ops| - 1])
  }

  lemma {:induction false} PerformIsSafe(w: World, names: Names, op: Operation)
    requires Sound(w)
    ensures SafeStep(w, Perform(w, names, op))
  {
    hide SafeStep, Sound, BasisHolds, Read, Write, Delete, External, E.Edit, E.MultiEdit, P.ApplyPatch;
    match op
    case DoRead(name, policy, beforeRead) => ReadIsSafe(w, names, name, policy, beforeRead, true);
    case DoWrite(request, env) =>
      if request.name in names {
        NoBasis(w, names[request.name]);
      }
      WriteIsSafe(w, names, request, env, None);
    case DoDelete(name, env) =>
      if name in names {
        NoBasis(w, names[name]);
      }
      DeleteIsSafe(w, names, name, env, None);
    case DoEdit(edit, prepare, env) => EditIsSafe(w, names, edit, prepare, env);
    case DoMultiEdit(edits, multiEnv) => MultiEditIsSafe(w, names, edits, multiEnv);
    case DoPatch(patch, lib, patchEnv) => ApplyPatchIsSafe(w, names, patch, lib, patchEnv);
    case DoExternal(change) => ExternalIsSafe(w, change);
  }

  /**
   * No lost update: over any run of service calls interleaved with any other writers, every commit over an
   * existing file replaced the version last recorded for it, kept its bytes in the backup, and, for edits and
   * patches, was computed from those bytes.
   */
  lemma {:induction false} RunsAreSafe(w: World, names: Names, ops: seq<Operation>)
    requires Sound(w)
    ensures SafeStep(w, Run(w, names, ops))
    ensures SafeLog(Run(w, names, ops).log)
    decreases |ops|
  {
    hide SafeStep, Sound, Perform, SafeLog;
    NothingIsSafe(w);
    if ops != [] {
      var before := Run(w, names, ops[..|ops| - 1]);
      RunsAreSafe(w, names, ops[..|ops| - 1]);
      StepIsSound(w, before);
      PerformIsSafe(before, names, ops[|ops| - 1]);
      SafeStepTransitive(w, before, Run(w, names, ops));
    }
    StepIsSound(w, Run(w, names, ops));
    SoundLog(Run(w, names, ops));
  }

  lemma {:induction false} SoundLog(w: World)
    requires Sound(w)
    ensures SafeLog(w.log)
  {
  }
}
