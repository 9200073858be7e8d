/** All-or-nothing patches: every outcome of a patch transaction, with failures at any point. */
module AllOrNothing {
  import opened Wrappers
  import opened Workspace
  import opened Restores
  import opened PatchTransaction
  import opened DirectoryRollback

  /** No other writer acts during the commit, and a refused write leaves no directory behind. */
  predicate QuietGaps(e: Env) {
    && e.beforeStat == Nothing && e.beforeCheck == Nothing && e.beforeBackup == Nothing
    && e.beforeCommit == Nothing && e.beforeReread == Nothing
    && (e.io.Refused? ==> !e.io.madeDirs)
  }

  /** A quiet commit whose re-read of the written file works. */
  predicate Quiet(e: Env) {
    QuietGaps(e) && !e.io.RereadFails?
  }

  ghost predicate QuietRun(env: nat -> Env) {
    forall i :: Quiet(env(i))
  }

  predicate SameState(w: World, w': World) {
    w'.files == w.files && w'.dirs == w.dirs && w'.tokens == w.tokens
  }

  // ----- One commit -----

  /** The file a committed create or modify leaves. */
  function Written(w: World, f: PlanFile): File {
    File(f.content, WriteMode(f.mode, Lookup(w, f.path)), w.clock)
  }

  /** What a committed file does to the workspace; its token follows unless the commit is uncertain. */
  ghost predicate CommitEffect(w: World, f: PlanFile, ok: bool, w': World) {
    var p := f.path;
    match f.operation
    case OpCreate =>
      && p !in w.files && p !in w.dirs && !BelowFile(w, p)
      && w'.files == w.files[p := Written(w, f)] && w'.dirs == w.dirs + Ancestors(p)
      && w'.tokens == if ok then w.tokens[p := TokenOf(Written(w, f))] else w.tokens
    case OpModify =>
      && HasValidToken(w, p)
      && w'.files == w.files[p := Written(w, f)] && w'.dirs == w.dirs + Ancestors(p)
      && w'.tokens == if ok then w.tokens[p := TokenOf(Written(w, f))] else w.tokens
    case OpDelete =>
      && HasValidToken(w, p)
      && w'.files == w.files - {p} && w'.dirs == w.dirs
      && w'.tokens == if ok then w.tokens - {p} else w.tokens
  }

  lemma {:induction false} QuietExternal(w: World)
    ensures External(w, Nothing) == w
  {
  }

  lemma {:induction false} QuietWrite(w: World, names: Names, r: WriteRequest, e: Env, basis: Option<string>)
    requires r.name in names && Quiet(e) && r.operation != CreateOrOverwrite
    ensures
      var p, step := names[r.name], Write(w, names, r, e, basis);
      var f := File(r.content, WriteMode(r.mode, Lookup(w, p)), w.clock);
      var expected := if r.operation == Create then Created else Overwritten;
      var ok := step.reply == Reply(expected);
      if ok || step.reply == Reply(CommitUncertain) then
        && (if r.operation == Create then p !in w.files && p !in w.dirs && !BelowFile(w, p) else HasValidToken(w, p))
        && step.world.files == w.files[p := f] && step.world.dirs == w.dirs + Ancestors(p)
        && step.world.tokens == if ok then w.tokens[p := TokenOf(f)] else w.tokens
      else SameState(w, step.world)
  {
    hide BelowFile, Ancestors, WriteMode;
    QuietExternal(w);
    var p := names[r.name];
    assert Write(w, names, r, e, basis) == WriteResolved(w, p, r, e, basis);
  }

  lemma {:induction false} QuietDelete(w: World, names: Names, name: string, e: Env, basis: Option<string>)
    requires name in names && Quiet(e)
    ensures
      var p, step := names[name], Delete(w, names, name, e, basis);
      var ok := step.reply == Reply(Deleted);
      if ok || step.reply == Reply(CommitUncertain) then
        && HasValidToken(w, p) && step.world.files == w.files - {p} && step.world.dirs == w.dirs
        && step.world.tokens == if ok then w.tokens - {p} else w.tokens
      else SameState(w, step.world)
  {
  }

  /** A commit either takes place as planned, or changes nothing at all. */
  lemma {:induction false} CommitFileEffect(w: World, names: Names, f: PlanFile, e: Env)
    requires f.name in names && names[f.name] == f.path && Quiet(e)
    ensures
      var step := CommitFile(w, names, f, e);
      && (step.ok ==> step.committed)
      && (if step.committed then CommitEffect(w, f, step.ok, step.world) else SameState(w, step.world))
  {
    hide Write, Delete, BelowFile, Ancestors, WriteMode;
    match f.operation
    case OpCreate => QuietWrite(w, names, WriteRequest(f.name, f.content, Create, f.mode), e, None);
    case OpModify => QuietWrite(w, names, WriteRequest(f.name, f.content, Overwrite, f.mode), e, f.basis);
    case OpDelete => QuietDelete(w, names, f.name, e, f.basis);
  }

  // ----- The commit phase -----

  predicate Alike(a: Option<File>, b: Option<File>) {
    a.Some? == b.Some? && (a.Some? ==> a.value.content == b.value.content && a.value.mode == b.value.mode)
  }

  /** Existence, content, mode and the validity of the read token are those of `w0`. */
  predicate AsBefore(w0: World, w: World, p: Path) {
    Alike(Lookup(w0, p), Lookup(w, p)) && (HasValidToken(w, p) <==> HasValidToken(w0, p))
  }

  /** The state a plan entry asks for. */
  predicate NewState(w0: World, w: World, f: PlanFile) {
    match f.operation
    case OpDelete => f.path !in w.files
    case _ => Alike(Lookup(w, f.path), Some(File(f.content, WriteMode(f.mode, Lookup(w0, f.path)), 0)))
  }

  ghost predicate Named(names: Names, plan: seq<PlanFile>) {
    forall i :: 0 <= i < |plan| ==> plan[i].name in names && names[plan[i].name] == plan[i].path && plan[i].path != []
  }

  /** No entry below `n` is about `p`. */
  ghost predicate Outside(plan: seq<PlanFile>, n: nat, p: Path)
    requires n <= |plan|
  {
    forall i :: 0 <= i < n ==> plan[i].path != p
  }

  /** The directories the creates below `n` need. */
  function MadeDirs(plan: seq<PlanFile>, n: nat): set<Path>
    requires n <= |plan|
  {
    if n == 0 then {}
    else
      MadeDirs(plan, n - 1) + if plan[n - 1].operation == OpCreate then Ancestors(plan[n - 1].path) else {}
  }

  lemma {:induction false} MadeDirsMeaning(plan: seq<PlanFile>, n: nat)
    requires n <= |plan|
    ensures forall i :: 0 <= i < n && plan[i].operation == OpCreate ==> Ancestors(plan[i].path) <= MadeDirs(plan, n)
    ensures forall d :: d in MadeDirs(plan, n) ==>
              exists i :: 0 <= i < n && plan[i].operation == OpCreate && d in Ancestors(plan[i].path)
  {
    if n > 0 {
      MadeDirsMeaning(plan, n - 1);
    }
  }

  lemma {:induction false} MadeDirsGrow(plan: seq<PlanFile>, n: nat, m: nat)
    requires n <= m <= |plan|
    ensures MadeDirs(plan, n) <= MadeDirs(plan, m)
    decreases m
  {
    if n < m {
      MadeDirsGrow(plan, n, m - 1);
    }
  }

  /** What was true of a committed entry before the patch. */
  ghost predicate WasReady(w0: World, f: PlanFile) {
    if f.operation == OpCreate then f.path !in w0.files && f.path !in w0.dirs else HasValidToken(w0, f.path)
  }

  /** After the first `n` entries have been committed. */
  ghost predicate Committed(w0: World, w: World, plan: seq<PlanFile>, n: nat)
    requires n <= |plan|
  {
    && (forall p :: Outside(plan, n, p) ==> AsBefore(w0, w, p))
    && (forall i :: 0 <= i < n ==> WasReady(w0, plan[i]) && NewState(w0, w, plan[i]))
    && w.dirs == w0.dirs + MadeDirs(plan, n)
    && IsTree(w)
  }

  lemma {:induction false} EffectKeepsTree(w: World, f: PlanFile, ok: bool, w': World)
    requires IsTree(w) && CommitEffect(w, f, ok, w') && f.path != []
    ensures IsTree(w')
    ensures f.operation != OpCreate ==> w'.dirs == w.dirs
  {
    var p := f.path;
    assert p !in Ancestors(p) by {
      if p in Ancestors(p) {
        AncestorsNested(p, p);
      }
    }
    forall d | d in w'.dirs ensures d != [] && Ancestors(d) <= w'.dirs {
      if d !in w.dirs {
        AncestorsNested(p, d);
      }
    }
    forall q | q in w'.files ensures q != [] && q !in w'.dirs && Ancestors(q) <= w'.dirs {
      if q != p {
        assert q in w.files;
      }
    }
  }

  lemma {:induction false} EffectElsewhere(w0: World, w: World, f: PlanFile, ok: bool, w': World, q: Path)
    requires CommitEffect(w, f, ok, w') && q != f.path && AsBefore(w0, w, q)
    ensures AsBefore(w0, w', q)
  {
  }

  lemma {:induction false} EffectHere(w0: World, w: World, f: PlanFile, ok: bool, w': World)
    requires CommitEffect(w, f, ok, w') && AsBefore(w0, w, f.path)
    requires f.operation == OpCreate ==> w0.dirs <= w.dirs
    ensures WasReady(w0, f) && NewState(w0, w', f)
    ensures ok && f.operation != OpDelete ==> HasValidToken(w', f.path)
  {
  }

  lemma {:induction false} EffectOnOthers(w0: World, w: World, f: PlanFile, ok: bool, w': World, g: PlanFile)
    requires CommitEffect(w, f, ok, w') && g.path != f.path && NewState(w0, w, g)
    ensures NewState(w0, w', g)
    ensures HasValidToken(w, g.path) ==> HasValidToken(w', g.path)
  {
  }

  lemma {:induction false} CommitOneMore(w0: World, w: World, plan: seq<PlanFile>, n: nat, ok: bool, w': World)
    requires n < |plan| && Distinct(plan) && plan[n].path != []
    requires Committed(w0, w, plan, n) && CommitEffect(w, plan[n], ok, w')
    ensures Committed(w0, w', plan, n + 1)
    ensures ok && plan[n].operation != OpDelete ==> HasValidToken(w', plan[n].path)
    ensures forall i :: 0 <= i < n && HasValidToken(w, plan[i].path) ==> HasValidToken(w', plan[i].path)
  {
    hide CommitEffect, AsBefore, NewState, WasReady, IsTree, HasValidToken;
    var f := plan[n];
    assert Outside(plan, n, f.path);
    EffectKeepsTree(w, f, ok, w');
    EffectHere(w0, w, f, ok, w');
    forall p | Outside(plan, n + 1, p) ensures AsBefore(w0, w', p) {
      assert plan[n].path != p;
      assert Outside(plan, n, p);
      EffectElsewhere(w0, w, f, ok, w', p);
    }
    forall i | 0 <= i < n
      ensures NewState(w0, w', plan[i]) && (HasValidToken(w, plan[i].path) ==> HasValidToken(w', plan[i].path))
    {
      EffectOnOthers(w0, w, f, ok, w', plan[i]);
    }
    CreateDirs(w, f, ok, w');
  }

  lemma {:induction false} CreateDirs(w: World, f: PlanFile, ok: bool, w': World)
    requires CommitEffect(w, f, ok, w')
    ensures f.operation == OpCreate ==> w'.dirs == w.dirs + Ancestors(f.path)
  {
  }

  ghost predicate TokensValid(w: World, plan: seq<PlanFile>, n: nat)
    requires n <= |plan|
  {
    forall i :: 0 <= i < n && plan[i].operation != OpDelete ==> HasValidToken(w, plan[i].path)
  }

  ghost predicate AllTrue(flags: seq<bool>, n: nat)
    requires n <= |flags|
  {
    forall i :: 0 <= i < n ==> flags[i]
  }

  lemma {:induction false} SameStateKeepsCommitted(w0: World, w: World, plan: seq<PlanFile>, n: nat, w': World)
    requires n <= |plan| && Committed(w0, w, plan, n) && SameState(w, w')
    ensures Committed(w0, w', plan, n)
  {
    forall p | Outside(plan, n, p) ensures AsBefore(w0, w', p) {
      assert AsBefore(w0, w, p);
    }
    forall i | 0 <= i < n ensures NewState(w0, w', plan[i]) {
      assert NewState(w0, w, plan[i]);
    }
  }

  /** Every run of the commit phase: the entries flagged are a prefix, committed, and nothing else has changed. */
  lemma {:induction false} CommitPhase(w0: World, w: World, names: Names, plan: seq<PlanFile>, env: nat -> Env,
                                       flags: seq<bool>)
    requires Distinct(plan) && Named(names, plan) && QuietRun(env) && |flags| <= |plan|
    requires AllTrue(flags, |flags|) && Committed(w0, w, plan, |flags|) && TokensValid(w, plan, |flags|)
    ensures
      var run := CommitAll(w, names, plan, env, flags);
      if run.ok then
        |run.flags| == |plan| && Committed(w0, run.world, plan, |plan|) && TokensValid(run.world, plan, |plan|)
      else
        && |run.flags| > 0 && AllTrue(run.flags, |run.flags| - 1)
        && Committed(w0, run.world, plan, if run.flags[|run.flags| - 1] then |run.flags| else |run.flags| - 1)
    decreases |plan| - |flags|
  {
    hide CommitEffect, Committed, HasValidToken, CommitFile, Quiet, SameState;
    var n := |flags|;
    if n < |plan| {
      var step := CommitFile(w, names, plan[n], env(n));
      CommitFileEffect(w, names, plan[n], env(n));
      if step.committed {
        CommitOneMore(w0, w, plan, n, step.ok, step.world);
      } else {
        SameStateKeepsCommitted(w0, w, plan, n, step.world);
      }
      if step.ok {
        CommitPhase(w0, step.world, names, plan, env, flags + [true]);
      }
    }
  }

  // ----- The rollback phase -----

  /** The snapshots were taken from `w0`, one for each entry. */
  ghost predicate SnapshotsOf(w0: World, plan: seq<PlanFile>, snapshots: seq<Snapshot>) {
    |snapshots| == |plan| && forall i :: 0 <= i < |plan| ==> TakeSnapshot(w0, plan[i]) == Some(snapshots[i])
  }

  lemma {:induction false} TakeSnapshotsGives(w0: World, plan: seq<PlanFile>)
    requires TakeSnapshots(w0, plan).Some?
    ensures SnapshotsOf(w0, plan, TakeSnapshots(w0, plan).value)
    decreases |plan|
  {
    hide TakeSnapshot;
    if plan != [] {
      TakeSnapshotsGives(w0, plan[..|plan| - 1]);
      var done := TakeSnapshots(w0, plan[..|plan| - 1]).value;
      forall i | 0 <= i < |plan| ensures TakeSnapshot(w0, plan[i]) == Some(TakeSnapshots(w0, plan).value[i]) {
        if i < |plan| - 1 {
          assert plan[i] == plan[..|plan| - 1][i];
        }
      }
    }
  }

  /** Facts about the `n` committed entries that rollback does not change. */
  ghost predicate Undoable(w0: World, plan: seq<PlanFile>, n: nat)
    requires n <= |plan|
  {
    && IsTree(w0)
    && forall i :: 0 <= i < n ==>
         WasReady(w0, plan[i]) && (plan[i].operation == OpCreate ==> plan[i].path !in MadeDirs(plan, n))
  }

  /** Entries `i` and above have been undone. */
  ghost predicate UndoneTo(w0: World, w: World, plan: seq<PlanFile>, i: nat)
    requires i <= |plan|
  {
    && (forall p :: Outside(plan, i, p) ==> AsBefore(w0, w, p))
    && (forall j :: 0 <= j < i && plan[j].operation == OpCreate ==> plan[j].path in w.files)
    && w.dirs == w0.dirs + MadeDirs(plan, i)
  }

  lemma {:induction false} CommittedIsUndoable(w0: World, w: World, plan: seq<PlanFile>, n: nat)
    requires n <= |plan| && Committed(w0, w, plan, n) && IsTree(w0)
    ensures Undoable(w0, plan, n) && UndoneTo(w0, w, plan, n)
  {
    hide AsBefore;
    forall j | 0 <= j < n && plan[j].operation == OpCreate
      ensures plan[j].path in w.files && plan[j].path !in MadeDirs(plan, n)
    {
      assert NewState(w0, w, plan[j]);
    }
  }

  /** Undoing an overwrite or a delete: the snapshot goes back, with a valid token. */
  lemma {:induction false} UndoExisting(w0: World, w: World, plan: seq<PlanFile>, i: nat, s: Snapshot, io: RestoreIo)
    requires i < |plan| && Distinct(plan) && plan[i].operation != OpCreate
    requires IsTree(w0) && WasReady(w0, plan[i]) && UndoneTo(w0, w, plan, i + 1)
    requires TakeSnapshot(w0, plan[i]) == Some(s)
    requires RollbackEntry(w, s, io).ok
    ensures UndoneTo(w0, RollbackEntry(w, s, io).world, plan, i)
  {
    var p, w' := plan[i].path, RollbackEntry(w, s, io).world;
    assert s.existed == Some(w0.files[p]) && s.path == p;
    assert w'.dirs == w.dirs;
    forall q | Outside(plan, i, q) ensures AsBefore(w0, w', q) {
      if q != p {
        assert Outside(plan, i + 1, q);
        assert AsBefore(w0, w, q);
      }
    }
  }

  lemma {:induction false} MadeDirsStep(plan: seq<PlanFile>, i: nat)
    requires i < |plan| && plan[i].operation == OpCreate
    ensures MadeDirs(plan, i + 1) == MadeDirs(plan, i) + Ancestors(plan[i].path)
  {
  }

  /** Only the creates below `i` put anything below a directory that creating entry `i` made. */
  lemma {:induction false} ReadyToUndo(w0: World, w: World, plan: seq<PlanFile>, i: nat, n: nat, chain: seq<Path>,
                                       w': World)
    requires i < n <= |plan| && plan[i].operation == OpCreate && Undoable(w0, plan, n)
    requires UndoneTo(w0, w, plan, i + 1) && plan[i].path != []
    requires MissingFrom(w0, Parent(plan[i].path)) == Some(chain)
    requires w'.files == w.files - {plan[i].path} && w'.dirs == w.dirs && Distinct(plan)
    ensures ReadyToRemove(w', w0.dirs, MadeDirs(plan, i), chain)
  {
    hide MissingFrom, MadeDirs, AsBefore, WasReady;
    MadeDirsStep(plan, i);
    var p := plan[i].path;
    var needed := MadeDirs(plan, i);
    ChainIsMissing(w0, p, chain);
    MadeDirsMeaning(plan, i);
    MadeDirsGrow(plan, i, n);
    MadeDirsGrow(plan, i + 1, n);
    forall d | d in chain ensures d !in w0.dirs && d !in w'.files {
      NotAFile(w0, w, plan, i, n, d);
    }
    forall d, q | d in chain && q in w'.files && d in Ancestors(q) ensures d in needed {
      FileBelowIsCreated(w0, w, plan, i, q, d);
    }
    forall d, c | d in chain && c in w0.dirs + needed && d in Ancestors(c) ensures d in needed {
      if c in needed {
        var j :| 0 <= j < i && plan[j].operation == OpCreate && c in Ancestors(plan[j].path);
        AncestorsNested(plan[j].path, c);
      }
    }
    forall d | d in chain && d in needed ensures exists q :: q in w'.files && d in Ancestors(q) {
      var j :| 0 <= j < i && plan[j].operation == OpCreate && d in Ancestors(plan[j].path);
      assert plan[j].path in w'.files;
    }
    forall c | c in needed ensures Ancestors(c) <= needed {
      var j :| 0 <= j < i && plan[j].operation == OpCreate && c in Ancestors(plan[j].path);
      AncestorsNested(plan[j].path, c);
    }
  }

  lemma {:induction false} ChainIsMissing(w0: World, p: Path, chain: seq<Path>)
    requires IsTree(w0) && p != [] && MissingFrom(w0, Parent(p)) == Some(chain)
    ensures IsChain(chain) && ElementsOf(chain) == Ancestors(p) - w0.dirs
    ensures forall d :: d in Ancestors(p) ==> d !in w0.files
    ensures forall d :: d in chain ==> d in Ancestors(p) && d !in w0.dirs
  {
    var up := Parent(p);
    MissingFromMeaning(w0, up);
    assert Ancestors(up) + (if up == [] then {} else {up}) == Ancestors(p) by {
      if |p| > 1 {
        AncestorsOfChild(p);
      }
    }
    forall d | d in chain ensures d in Ancestors(p) && d !in w0.dirs {
      assert d in ElementsOf(chain);
    }
  }

  lemma {:induction false} NotAFile(w0: World, w: World, plan: seq<PlanFile>, i: nat, n: nat, d: Path)
    requires i < n <= |plan| && plan[i].operation == OpCreate && Undoable(w0, plan, n) && UndoneTo(w0, w, plan, i + 1)
    requires d in Ancestors(plan[i].path) && d !in w0.files
    ensures d !in w.files
  {
    MadeDirsMeaning(plan, n);
    assert d in MadeDirs(plan, n);
    forall j | 0 <= j <= i ensures plan[j].path != d {
      assert WasReady(w0, plan[j]);
    }
    assert Outside(plan, i + 1, d);
    assert AsBefore(w0, w, d);
  }

  lemma {:induction false} FileBelowIsCreated(w0: World, w: World, plan: seq<PlanFile>, i: nat, q: Path, d: Path)
    requires i < |plan| && IsTree(w0) && UndoneTo(w0, w, plan, i + 1)
    requires forall j :: 0 <= j <= i ==> WasReady(w0, plan[j])
    requires q in w.files && q != plan[i].path && d in Ancestors(q) && d !in w0.dirs
    ensures d in MadeDirs(plan, i)
  {
    MadeDirsMeaning(plan, i);
    assert q !in w0.files;
    assert AsBefore(w0, w, q) || !Outside(plan, i + 1, q);
    var j :| 0 <= j < i + 1 && plan[j].path == q;
    assert WasReady(w0, plan[j]);
  }

  /** Undoing a create: the file goes, and the parents no earlier create needs go with it. */
  lemma {:induction false} UndoCreate(w0: World, w: World, plan: seq<PlanFile>, i: nat, n: nat, s: Snapshot,
                                      io: RestoreIo)
    requires i < n <= |plan| && Distinct(plan) && plan[i].operation == OpCreate && plan[i].path != []
    requires Undoable(w0, plan, n) && UndoneTo(w0, w, plan, i + 1)
    requires TakeSnapshot(w0, plan[i]) == Some(s)
    requires RollbackEntry(w, s, io).ok
    ensures UndoneTo(w0, RollbackEntry(w, s, io).world, plan, i)
  {
    hide RemoveDirs, MissingFrom, ReadyToRemove, IsTree;
    var p := plan[i].path;
    assert WasReady(w0, plan[i]) && p in w.files;
    var forgotten := Forget(Logged(RemoveFile(w, p), Restored(p, None)), p);
    assert RollbackEntry(w, s, io) == RemoveDirs(forgotten, s.madeDirs);
    ReadyToUndo(w0, w, plan, i, n, s.madeDirs, forgotten);
    RemoveDirsUndoes(forgotten, w0.dirs, MadeDirs(plan, i), s.madeDirs);
    var w' := RollbackEntry(w, s, io).world;
    forall q | Outside(plan, i, q) ensures AsBefore(w0, w', q) {
      if q != p {
        assert Outside(plan, i + 1, q);
        assert AsBefore(w0, w, q);
      }
    }
  }

  /** A rollback that reports success has put every committed entry back. */
  lemma {:induction false} RollbackPhase(w0: World, w: World, names: Names, plan: seq<PlanFile>,
                                         snapshots: seq<Snapshot>,
                                         flags: seq<bool>, i: nat, n: nat, env: nat -> RestoreIo)
    requires i <= n <= |flags| <= |plan| && Distinct(plan) && Named(names, plan)
    requires SnapshotsOf(w0, plan, snapshots) && AllTrue(flags, n)
    requires Undoable(w0, plan, n) && UndoneTo(w0, w, plan, i)
    ensures var back := Rollback(w, snapshots, flags, i, env); back.ok ==> UndoneTo(w0, back.world, plan, 0)
    decreases i
  {
    hide Undoable, UndoneTo, RollbackEntry, TakeSnapshot, WasReady;
    if i > 0 {
      var step := RollbackEntry(w, snapshots[i - 1], env(i - 1));
      if step.ok {
        UndoableGives(w0, plan, n, i - 1);
        if plan[i - 1].operation == OpCreate {
          UndoCreate(w0, w, plan, i - 1, n, snapshots[i - 1], env(i - 1));
        } else {
          UndoExisting(w0, w, plan, i - 1, snapshots[i - 1], env(i - 1));
        }
        RollbackPhase(w0, step.world, names, plan, snapshots, flags, i - 1, n, env);
      }
    }
  }

  lemma {:induction false} UndoableGives(w0: World, plan: seq<PlanFile>, n: nat, i: nat)
    requires i < n <= |plan| && Undoable(w0, plan, n)
    ensures IsTree(w0) && WasReady(w0, plan[i])
  {
  }

  // ----- The transaction -----

  /** Every file, every directory, and the validity of every read token are those of `w0`. */
  ghost predicate NothingHappened(w0: World, w: World) {
    (forall p :: AsBefore(w0, w, p)) && w.dirs == w0.dirs
  }

  /** Every planned file is in its new state with a valid token if it exists, and everything else is untouched. */
  ghost predicate EverythingHappened(w0: World, w: World, plan: seq<PlanFile>) {
    && (forall i :: 0 <= i < |plan| ==> NewState(w0, w, plan[i]))
    && TokensValid(w, plan, |plan|)
    && (forall p :: Outside(plan, |plan|, p) ==> AsBefore(w0, w, p))
    && w.dirs == w0.dirs + MadeDirs(plan, |plan|)
  }

  lemma {:induction false} UndoneIsNothing(w0: World, w: World, plan: seq<PlanFile>)
    requires UndoneTo(w0, w, plan, 0)
    ensures NothingHappened(w0, w)
  {
    forall p ensures AsBefore(w0, w, p) {
      assert Outside(plan, 0, p);
    }
  }

  lemma {:induction false} NothingCommitted(w0: World, plan: seq<PlanFile>)
    requires IsTree(w0)
    ensures Committed(w0, w0, plan, 0) && TokensValid(w0, plan, 0)
  {
  }

  lemma {:induction false} CommittedIsEverything(w0: World, w: World, plan: seq<PlanFile>)
    requires Committed(w0, w, plan, |plan|) && TokensValid(w, plan, |plan|)
    ensures EverythingHappened(w0, w, plan)
  {
  }

  lemma {:induction false} CountPrefix(flags: seq<bool>, n: nat)
    requires n <= |flags| && AllTrue(flags, n) && (n < |flags| ==> n == |flags| - 1 && !flags[n])
    ensures CountTrue(flags) == n
    ensures true in flags <==> n > 0
    decreases |flags|
  {
    if flags != [] {
      var init := flags[..|flags| - 1];
      var m := if n == |flags| then n - 1 else n;
      CountPrefix(init, m);
      if n > 0 {
        assert flags[0];
      }
    }
  }

  /**
   * All or nothing. Whatever each commit meets, an applied patch leaves every planned file in its new state and
   * the rest untouched; a failed one whose rollback reports success, or that committed nothing, leaves every
   * file, directory and read token as they were.
   */
  lemma {:induction false} PatchIsAllOrNothing(w0: World, names: Names, plan: seq<PlanFile>,
                                               snapshots: seq<Snapshot>, env: PatchEnv)
    requires IsTree(w0) && Distinct(plan) && Named(names, plan) && QuietRun(env.commit)
    requires TakeSnapshots(w0, plan) == Some(snapshots) && |snapshots| == |plan|
    ensures
      var step := RunPlan(w0, names, plan, snapshots, env);
      && (step.reply.PatchApplied? || step.reply.PatchFailed?)
      && (step.reply.PatchApplied? ==> EverythingHappened(w0, step.world, plan))
      && (step.reply.PatchFailed? && (step.reply.rollbackSucceeded || !step.reply.rollbackAttempted) ==>
            NothingHappened(w0, step.world))
  {
    hide Committed, TokensValid, UndoneTo, Undoable, CommitAll, Rollback, IsTree, EverythingHappened, NothingHappened,
         QuietRun, SnapshotsOf, CountTrue, TakeSnapshots, Distinct, Named;
    var run := CommitAll(w0, names, plan, env.commit, []);
    NothingCommitted(w0, plan);
    CommitPhase(w0, w0, names, plan, env.commit, []);
    TakeSnapshotsGives(w0, plan);
    if run.ok {
      CommittedIsEverything(w0, run.world, plan);
    } else {
      var n := if run.flags[|run.flags| - 1] then |run.flags| else |run.flags| - 1;
      CountPrefix(run.flags, n);
      CommittedIsUndoable(w0, run.world, plan, n);
      RollbackPhase(w0, run.world, names, plan, snapshots, run.flags, n, n, env.restore);
      SkipLast(run.world, snapshots, run.flags, n, env.restore);
      if n == 0 {
        UndoneIsNothing(w0, run.world, plan);
      } else if Rollback(run.world, snapshots, run.flags, n, env.restore).ok {
        UndoneIsNothing(w0, Rollback(run.world, snapshots, run.flags, n, env.restore).world, plan);
      }
    }
  }

  lemma {:induction false} SkipLast(w: World, snapshots: seq<Snapshot>, flags: seq<bool>, n: nat, env: nat -> RestoreIo)
    requires n <= |flags| <= |snapshots| && (n < |flags| ==> n == |flags| - 1 && !flags[n])
    ensures Rollback(w, snapshots, flags, |flags|, env) == Rollback(w, snapshots, flags, n, env)
  {
  }
}
