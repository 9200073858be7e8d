/** The managed file service as an object: each method changes the workspace exactly as its specification says. */
module FileService {
  import opened Wrappers
  import W = Workspace
  import R = Restores
  import X = ExactEdit
  import E = Edits
  import P = PatchTransaction
  import D = UnifiedDiff
  import H = Hunks
  import Reader = PatchReader
  import L = LineRanges
  import N = NoLostUpdate
  import Safe = SafeRuns
  import O = PatchOutcome
  import M = MultiEditOutcome

  // ----- Facts the loops use -----

  /** The same verdict and, when the edits go through, the same content. */
  ghost predicate SameEnd(a: X.ExactResult, b: X.ExactResult) {
    if a.Ok() then b.Ok() && a.content == b.content else !b.Ok() && a.status == b.status
  }

  lemma {:induction false} EditsStep(content: string, edits: seq<X.EditRequest>, i: nat)
    requires i < |edits|
    ensures
      var first := X.ApplyExactEdit(content, edits[i]);
      SameEnd(E.ApplyEdits(content, edits[i..]),
              if first.Ok() then E.ApplyEdits(first.content, edits[i + 1..]) else first)
  {
    hide X.ApplyExactEdit;
    assert edits[i..][0] == edits[i] && edits[i..][1..] == edits[i + 1..];
  }

  lemma {:induction false} CaptureStep(w: W.World, groups: seq<E.Group>, i: nat)
    requires i < |groups| && E.CaptureAll(w, groups[..i]).Some?
    ensures
      E.CaptureAll(w, groups[..i + 1]) ==
      if groups[i].path in w.files then Some(E.CaptureAll(w, groups[..i]).value + [w.files[groups[i].path]]) else None
    ensures E.CaptureAll(w, groups[..i + 1]).None? ==> E.CaptureAll(w, groups).None?
  {
    assert groups[..i + 1][..i] == groups[..i];
    if E.CaptureAll(w, groups[..i + 1]).None? {
      CaptureStuck(w, groups, i + 1);
    }
  }

  lemma {:induction false} CaptureStuck(w: W.World, groups: seq<E.Group>, n: nat)
    requires n <= |groups| && E.CaptureAll(w, groups[..n]).None?
    ensures E.CaptureAll(w, groups).None?
    decreases |groups|
  {
    if n == |groups| {
      assert groups[..n] == groups;
    } else {
      assert groups[..|groups| - 1][..n] == groups[..n];
      CaptureStuck(w, groups[..|groups| - 1], n);
    }
  }

  lemma {:induction false} UncommittedGroups(w: W.World, groups: seq<E.Group>, saved: seq<W.File>, flags: seq<bool>,
                                             n: nat, i: nat, env: nat -> R.RestoreIo)
    requires n <= i <= |flags| <= |groups| == |saved| && forall k :: n <= k < |flags| ==> !flags[k]
    ensures E.RollbackGroups(w, groups, saved, flags, i, env) == E.RollbackGroups(w, groups, saved, flags[..n], n, env)
    ensures true in flags <==> true in flags[..n]
    decreases i
  {
    hide R.RestoreFile;
    if i > n {
      UncommittedGroups(w, groups, saved, flags, n, i - 1, env);
    } else {
      assert forall k :: 0 <= k < n ==> flags[..n][k] == flags[k];
      GroupPrefixOnly(w, groups, saved, flags, flags[..n], n, env);
    }
  }

  lemma {:induction false} GroupPrefixOnly(w: W.World, groups: seq<E.Group>, saved: seq<W.File>, a: seq<bool>,
                                           b: seq<bool>, i: nat, env: nat -> R.RestoreIo)
    requires i <= |a| <= |groups| == |saved| && i <= |b| <= |groups| && forall k :: 0 <= k < i ==> a[k] == b[k]
    ensures E.RollbackGroups(w, groups, saved, a, i, env) == E.RollbackGroups(w, groups, saved, b, i, env)
    decreases i
  {
    hide R.RestoreFile;
    if i > 0 {
      var w' :=
        if a[i - 1] then R.RestoreFile(w, groups[i - 1].path, saved[i - 1].content, saved[i - 1].mode, env(i - 1)).world
        else w;
      GroupPrefixOnly(w', groups, saved, a, b, i - 1, env);
    }
  }

  /** At most one group per path, so the position the service remembers is the one the search finds. */
  ghost predicate OneGroupEach(groups: seq<E.Group>) {
    forall i, j :: 0 <= i < j < |groups| ==> groups[i].path != groups[j].path
  }

  ghost predicate Indexes(index: map<W.Path, nat>, groups: seq<E.Group>) {
    && (forall p :: p in index ==> index[p] < |groups| && groups[index[p]].path == p)
    && (forall i :: 0 <= i < |groups| ==> groups[i].path in index)
  }

  lemma {:induction false} IndexFinds(index: map<W.Path, nat>, groups: seq<E.Group>, p: W.Path)
    requires OneGroupEach(groups) && Indexes(index, groups)
    ensures E.GroupIndex(groups, p) == if p in index then Some(index[p]) else None
  {
    var found := E.GroupIndex(groups, p);
    assert p in index ==> groups[index[p]].path == p;
    if found.Some? {
      assert groups[found.value].path in index;
      assert groups[index[p]].path == groups[found.value].path;
    }
  }

  lemma {:induction false} NoGroups()
    ensures OneGroupEach([]) && Indexes(map[], [])
  {
  }

  lemma {:induction false} GroupAdded(index: map<W.Path, nat>, groups: seq<E.Group>, p: W.Path, r: X.EditRequest)
    requires OneGroupEach(groups) && Indexes(index, groups)
    ensures E.GroupIndex(groups, p) == if p in index then Some(index[p]) else None
    ensures
      var groups' := E.AddToGroup(groups, p, r);
      OneGroupEach(groups') && Indexes(if p in index then index else index[p := |groups|], groups')
  {
    hide E.GroupIndex;
    IndexFinds(index, groups, p);
    if p !in index {
      assert forall i :: 0 <= i < |groups| ==> groups[i].path in index;
    }
  }

  function Backwards<T>(s: seq<T>): (r: seq<T>)
    ensures |r| == |s| && forall k :: 0 <= k < |s| ==> r[k] == s[|s| - 1 - k]
  {
    seq(|s|, k requires 0 <= k < |s| => s[|s| - 1 - k])
  }

  lemma {:induction false} UncommittedTail(w: W.World, snapshots: seq<P.Snapshot>, flags: seq<bool>, n: nat, i: nat,
                                           env: nat -> R.RestoreIo)
    requires n <= i <= |flags| <= |snapshots| && forall k :: n <= k < |flags| ==> !flags[k]
    ensures P.Rollback(w, snapshots, flags, i, env) == P.Rollback(w, snapshots, flags[..n], n, env)
    ensures true in flags <==> true in flags[..n]
    decreases i
  {
    hide P.RollbackEntry;
    if i > n {
      UncommittedTail(w, snapshots, flags, n, i - 1, env);
    } else {
      assert forall k :: 0 <= k < n ==> flags[..n][k] == flags[k];
      PrefixOnly(w, snapshots, flags, flags[..n], n, env);
    }
  }

  lemma {:induction false} PrefixOnly(w: W.World, snapshots: seq<P.Snapshot>, a: seq<bool>, b: seq<bool>, i: nat,
                                      env: nat -> R.RestoreIo)
    requires i <= |a| <= |snapshots| && i <= |b| <= |snapshots| && forall k :: 0 <= k < i ==> a[k] == b[k]
    ensures P.Rollback(w, snapshots, a, i, env) == P.Rollback(w, snapshots, b, i, env)
    decreases i
  {
    hide P.RollbackEntry;
    if i > 0 {
      PrefixOnly(if a[i - 1] then P.RollbackEntry(w, snapshots[i - 1], env(i - 1)).world else w, snapshots, a, b, i - 1,
                 env);
    }
  }

  lemma {:induction false} TouchesOneMore(entries: seq<P.PlanFile>, f: P.PlanFile)
    ensures forall p :: P.Touches(entries + [f], p) <==> P.Touches(entries, p) || p == f.path
  {
    var more := entries + [f];
    forall p ensures P.Touches(more, p) <==> P.Touches(entries, p) || p == f.path {
      if P.Touches(entries, p) {
        var i :| 0 <= i < |entries| && entries[i].path == p;
        assert more[i].path == p;
      }
      assert more[|entries|].path == f.path;
    }
  }

  /** The directories found above, then those already collected from the deepest up. */
  function Below(above: Option<seq<W.Path>>, found: seq<W.Path>): Option<seq<W.Path>> {
    if above.None? then None else Some(above.value + Backwards(found))
  }

  lemma {:induction false} BelowStep(above: Option<seq<W.Path>>, found: seq<W.Path>, dir: W.Path)
    ensures Below(if above.None? then None else Some(above.value + [dir]), found) == Below(above, found + [dir])
  {
    if above.Some? {
      assert above.value + [dir] + Backwards(found) == above.value + Backwards(found + [dir]);
    }
  }

  lemma {:induction false} NothingBelow(above: Option<seq<W.Path>>)
    ensures Below(above, []) == above
  {
    if above.Some? {
      assert above.value + Backwards([]) == above.value;
    }
  }

  lemma {:induction false} SnapshotStep(w: W.World, plan: seq<P.PlanFile>, i: nat)
    requires i < |plan| && P.TakeSnapshots(w, plan[..i]).Some?
    ensures
      P.TakeSnapshots(w, plan[..i + 1]) ==
      match P.TakeSnapshot(w, plan[i]) case None => None case Some(s) => Some(P.TakeSnapshots(w, plan[..i]).value + [s])
    ensures P.TakeSnapshots(w, plan[..i + 1]).None? ==> P.TakeSnapshots(w, plan).None?
  {
    hide P.TakeSnapshot;
    assert plan[..i + 1][..i] == plan[..i];
    if P.TakeSnapshots(w, plan[..i + 1]).None? {
      SnapshotStuck(w, plan, i + 1);
    }
  }

  lemma {:induction false} SnapshotStuck(w: W.World, plan: seq<P.PlanFile>, n: nat)
    requires n <= |plan| && P.TakeSnapshots(w, plan[..n]).None?
    ensures P.TakeSnapshots(w, plan).None?
    decreases |plan|
  {
    hide P.TakeSnapshot;
    if n == |plan| {
      assert plan[..n] == plan;
    } else {
      assert plan[..|plan| - 1][..n] == plan[..n];
      SnapshotStuck(w, plan[..|plan| - 1], n);
    }
  }

  lemma {:induction false} CountTail(flags: seq<bool>, n: nat)
    requires n <= |flags| && forall k :: n <= k < |flags| ==> !flags[k]
    ensures P.CountTrue(flags) == P.CountTrue(flags[..n])
    decreases |flags|
  {
    if n == |flags| {
      assert flags[..n] == flags;
    } else {
      assert flags[..|flags| - 1][..n] == flags[..n];
      CountTail(flags[..|flags| - 1], n);
    }
  }

  // ----- The service -----

  /** From a sound history on, no update is lost: the history stays sound and only grows. */
  ghost predicate KeepsSafe(before: W.World, after: W.World) {
    N.Sound(before) ==> N.SafeStep(before, after)
  }

  lemma {:induction false} MultiEditFacts(w: W.World, names: W.Names, edits: seq<X.EditRequest>, env: E.MultiEnv)
    ensures KeepsSafe(w, E.MultiEdit(w, names, edits, env).world)
    ensures W.IsTree(w) && M.QuietMulti(env) ==>
            M.FoldOrNothing(w, names, edits, env, E.MultiEdit(w, names, edits, env))
  {
    hide E.MultiEdit, N.Sound, N.SafeStep, W.IsTree, M.QuietMulti, M.FoldOrNothing;
    if N.Sound(w) {
      Safe.MultiEditIsSafe(w, names, edits, env);
    }
    if W.IsTree(w) && M.QuietMulti(env) {
      M.MultiEditRefinesFold(w, names, edits, env);
    }
  }

  lemma {:induction false} PatchFacts(w: W.World, names: W.Names, patch: string, lib: D.PathLibrary, env: P.PatchEnv)
    ensures KeepsSafe(w, P.ApplyPatch(w, names, patch, lib, env).world)
    ensures W.IsTree(w) && O.BelowRoot(names) && O.QuietPatch(env)
            ==> O.WholeOrNothing(w, names, patch, lib, P.ApplyPatch(w, names, patch, lib, env))
  {
    hide P.ApplyPatch, N.Sound, N.SafeStep, W.IsTree, O.BelowRoot, O.QuietPatch, O.WholeOrNothing;
    if N.Sound(w) {
      Safe.ApplyPatchIsSafe(w, names, patch, lib, env);
    }
    if W.IsTree(w) && O.BelowRoot(names) && O.QuietPatch(env) {
      O.ApplyPatchOutcome(w, names, patch, lib, env);
    }
  }

  /** What a commit does in the workspace it finds; the second half of a write. */
  ghost function CommitOutcome(w: W.World, p: W.Path, content: string, mode: nat, expected: Option<W.Token>, e: W.Env,
                               backup: Option<string>, basis: Option<string>): W.Step
  {
    if e.io.Refused? then W.Step(W.Errored, W.RefusedWorld(w, p, e.io.madeDirs))
    else if expected.Some? then
      match W.CheckAgainst(w, p, expected.value)
      case Mismatch => W.Step(W.Reply(W.StaleReadToken), w)
      case Valid(_) => W.Land(w, p, content, mode, e, expected, backup, basis)
      case _ => W.Step(W.Errored, w)
    else if p in w.files || p in w.dirs then W.Step(W.Reply(W.AlreadyExists), w)
    else if W.BelowFile(w, p) then W.Step(W.Errored, w)
    else W.Land(w, p, content, mode, e, None, backup, basis)
  }

  class Service {
    var files: map<W.Path, W.File>
    var dirs: set<W.Path>
    var tokens: map<W.Path, W.Token>
    var clock: nat
    ghost var log: seq<W.Entry>
    const names: W.Names

    ghost function State(): W.World
      reads this
    {
      W.World(files, dirs, tokens, clock, log)
    }

    /** A service begins with an empty registry on whatever files are there. */
    constructor (files: map<W.Path, W.File>, dirs: set<W.Path>, clock: nat, names: W.Names)
      requires forall p :: p in files ==> files[p].version < clock
      ensures State() == W.World(files, dirs, map[], clock, [W.Foreign(files, dirs)]) && this.names == names
      ensures N.Sound(State())
    {
      this.files, this.dirs, this.tokens, this.clock, this.log := files, dirs, map[], clock, [W.Foreign(files, dirs)];
      this.names := names;
      new;
      N.InitialIsSound(files, dirs, clock);
    }

    /** Other writers, between two steps of the service. */
    method Interfere(c: W.Change)
      modifies this
      ensures State() == W.External(old(State()), c)
    {
      match c
      case Nothing =>
      case Change(puts, removes, after) =>
        var kept := map p | p in files && p !in puts && p !in removes :: files[p];
        var put := map p | p in puts :: W.File(puts[p].content, puts[p].mode, clock);
        files, dirs, clock := kept + put, after, clock + 1;
        log := log + [W.Foreign(kept + put, after)];
    }

    // ----- The token registry -----

    method RecordToken(p: W.Path, t: W.Token)
      modifies this
      ensures State() == W.Record(old(State()), p, t)
    {
      tokens := tokens[p := t];
      log := log + [W.Recorded(p, Some(t))];
    }

    method ForgetToken(p: W.Path)
      modifies this
      ensures State() == W.Forget(old(State()), p)
    {
      tokens := tokens - {p};
      log := log + [W.Recorded(p, None)];
    }

    method Compare(p: W.Path, t: W.Token) returns (check: W.Check)
      ensures check == W.CheckAgainst(State(), p, t)
    {
      if p !in files {
        return W.Vanished;
      }
      check := if W.Matches(t, files[p]) then W.Valid(t) else W.Mismatch;
    }

    method ValidateCurrent(p: W.Path) returns (check: W.Check)
      ensures check == W.ValidateCurrent(State(), p)
    {
      if p !in tokens {
        return W.NoToken;
      }
      check := Compare(p, tokens[p]);
    }

    // ----- File system steps -----

    method Rename(p: W.Path, content: string, mode: nat)
      modifies this
      ensures State() == W.PutFile(old(State()), p, content, mode)
    {
      files := files[p := W.File(content, mode, clock)];
      dirs, clock := dirs + W.Ancestors(p), clock + 1;
    }

    method Unlink(p: W.Path)
      modifies this
      ensures State() == W.RemoveFile(old(State()), p)
    {
      files, clock := files - {p}, clock + 1;
    }

    // ----- Single-file operations -----

    method Read(name: string, policy: W.Policy, beforeRead: W.Change, issueToken: bool) returns (reply: W.ReadReply)
      modifies this
      ensures W.ReadStep(reply, State()) == W.Read(old(State()), names, name, policy, beforeRead, issueToken)
      ensures KeepsSafe(old(State()), State())
    {
      hide N.Sound, N.SafeStep;
      if N.Sound(State()) {
        N.ReadIsSafe(State(), names, name, policy, beforeRead, issueToken);
      }
      if name !in names {
        return W.ReadUnsafe;
      }
      var p := names[name];
      if p in dirs {
        return W.ReadDirectory;
      }
      if p !in files {
        return W.ReadNotFound;
      }
      if policy.PolicyError? {
        return W.ReadErrored;
      }
      if policy.Deny? {
        return W.ReadDenied;
      }
      Interfere(beforeRead);
      if p !in files {
        return W.ReadErrored;
      }
      var file := files[p];
      if issueToken {
        RecordToken(p, W.TokenOf(file));
      }
      reply := W.ReadOk(file.content);
    }

    /** A read of some of the lines; the token it issues is for the whole file. */
    method ReadLines(name: string, start: int, end: int, policy: W.Policy, beforeRead: W.Change, issueToken: bool)
      returns (reply: W.ReadReply)
      modifies this
      ensures
        if !L.ValidRange(start, end) then reply == W.ReadErrored && State() == old(State())
        else
          var whole := W.Read(old(State()), names, name, policy, beforeRead, issueToken);
          && State() == whole.world
          && reply == if whole.reply.ReadOk? then W.ReadOk(L.Selected(whole.reply.content, start, end)) else whole.reply
      ensures L.ValidRange(start, end) ==> KeepsSafe(old(State()), State())
    {
      hide KeepsSafe, W.Read, L.Selected;
      if !L.ValidRange(start, end) {
        return W.ReadErrored;
      }
      reply := Read(name, policy, beforeRead, issueToken);
      if reply.ReadOk? {
        var selected := L.SelectLineRange(reply.content, start, end);
        reply := W.ReadOk(selected);
      }
    }

    /** The commit of a write: rename over the version that was read, or link where nothing is. */
    method Commit(p: W.Path, content: string, mode: nat, expected: Option<W.Token>, e: W.Env,
                  ghost backup: Option<string>, ghost basis: Option<string>)
      returns (reply: W.Reply)
      modifies this
      ensures W.Step(reply, State()) ==
              CommitOutcome(W.External(old(State()), e.beforeCommit), p, content, mode, expected, e, backup, basis)
    {
      hide W.External;
      Interfere(e.beforeCommit);
      if e.io.Refused? {
        if e.io.madeDirs {
          dirs := dirs + W.Ancestors(p);
        }
        return W.Errored;
      }
      if expected.Some? {
        var check := Compare(p, expected.value);
        if check.Mismatch? {
          return W.Reply(W.StaleReadToken);
        }
        if !check.Valid? {
          return W.Errored;
        }
      } else {
        if p in files || p in dirs {
          return W.Reply(W.AlreadyExists);
        }
        if exists a :: a in W.Ancestors(p) && a in files {
          return W.Errored;
        }
      }
      ghost var before := W.Lookup(State(), p);
      Rename(p, content, mode);
      log := log + [W.Commit(p, before, Some(files[p]), expected, backup, basis)];
      if e.io.Uncertain? {
        return W.Reply(W.CommitUncertain);
      }
      Interfere(e.beforeReread);
      if e.io.RereadFails? || p !in files {
        return W.Errored;
      }
      RecordToken(p, W.TokenOf(files[p]));
      reply := W.Reply(if expected.Some? then W.Overwritten else W.Created);
    }

    method Write(r: W.WriteRequest, e: W.Env, ghost basis: Option<string>) returns (reply: W.Reply)
      modifies this
      ensures W.Step(reply, State()) == W.Write(old(State()), names, r, e, basis)
      ensures (r.name in names ==> N.BasisHolds(old(State()), names[r.name], basis)) ==>
              KeepsSafe(old(State()), State())
    {
      hide W.External, W.Land, N.Sound, N.SafeStep, N.BasisHolds;
      if N.Sound(State()) && (r.name in names ==> N.BasisHolds(State(), names[r.name], basis)) {
        N.WriteIsSafe(State(), names, r, e, basis);
      }
      if r.name !in names {
        return W.Reply(W.UnsafePath);
      }
      Interfere(e.beforeStat);
      var p := names[r.name];
      var present := p in files;
      if r.operation == W.Overwrite && !present && p !in dirs {
        return W.Reply(W.NotFound);
      }
      if p in dirs {
        return W.Reply(W.IsDirectory);
      }
      if r.operation == W.Create && present {
        return W.Reply(W.AlreadyExists);
      }
      if e.policy.PolicyError? {
        return W.Errored;
      }
      if e.policy.Deny? {
        return W.Reply(W.Denied);
      }
      var mode := W.WriteMode(r.mode, if present then Some(files[p]) else None);
      var expected: Option<W.Token> := None;
      if present {
        Interfere(e.beforeCheck);
        var check := ValidateCurrent(p);
        match check
        case NoToken => return W.Reply(W.MissingReadToken);
        case Vanished => return W.Errored;
        case Mismatch => return W.Reply(W.StaleReadToken);
        case Valid(token) => expected := Some(token);
      }
      if !e.secretFree {
        return W.Reply(W.SecretRejected);
      }
      ghost var backup: Option<string> := None;
      if present {
        Interfere(e.beforeBackup);
        if e.backupFails || p !in files {
          return W.Errored;
        }
        backup := Some(files[p].content);
      }
      reply := Commit(p, r.content, mode, expected, e, backup, if present then basis else None);
    }

    method Delete(name: string, e: W.Env, ghost basis: Option<string>) returns (reply: W.Reply)
      modifies this
      ensures W.Step(reply, State()) == W.Delete(old(State()), names, name, e, basis)
      ensures (name in names ==> N.BasisHolds(old(State()), names[name], basis)) ==> KeepsSafe(old(State()), State())
    {
      hide W.External, N.Sound, N.SafeStep, N.BasisHolds;
      if N.Sound(State()) && (name in names ==> N.BasisHolds(State(), names[name], basis)) {
        N.DeleteIsSafe(State(), names, name, e, basis);
      }
      if name !in names {
        return W.Reply(W.UnsafePath);
      }
      Interfere(e.beforeStat);
      var p := names[name];
      if p in dirs {
        return W.Reply(W.IsDirectory);
      }
      if p !in files {
        return W.Reply(W.NotFound);
      }
      if e.policy.PolicyError? {
        return W.Errored;
      }
      if e.policy.Deny? {
        return W.Reply(W.Denied);
      }
      Interfere(e.beforeCheck);
      var check := ValidateCurrent(p);
      if check.NoToken? {
        return W.Reply(W.MissingReadToken);
      }
      if check.Vanished? {
        return W.Errored;
      }
      if check.Mismatch? {
        return W.Reply(W.StaleReadToken);
      }
      Interfere(e.beforeBackup);
      if e.backupFails || p !in files {
        return W.Errored;
      }
      ghost var backup := files[p].content;
      Interfere(e.beforeCommit);
      var now := Compare(p, check.token);
      if now.Mismatch? {
        return W.Reply(W.StaleReadToken);
      }
      if !now.Valid? || e.io.Refused? {
        return W.Errored;
      }
      ghost var before := W.Lookup(State(), p);
      Unlink(p);
      log := log + [W.Commit(p, before, None, Some(check.token), Some(backup), basis)];
      if e.io.Uncertain? {
        return W.Reply(W.CommitUncertain);
      }
      ForgetToken(p);
      reply := W.Reply(W.Deleted);
    }

    // ----- Edits -----

    method PrepareEditFile(name: string, e: E.PrepareEnv) returns (prepared: E.Prepared)
      modifies this
      ensures E.PrepareStep(prepared, State()) == E.PrepareEdit(old(State()), names, name, e)
    {
      hide W.External;
      if name !in names {
        return E.Unready(X.UnsafePath);
      }
      var p := names[name];
      Interfere(e.beforeStat);
      if p in dirs {
        return E.Unready(X.IsDirectory);
      }
      if p !in files {
        return E.Unready(X.NotFound);
      }
      Interfere(e.beforeCheck);
      var check := ValidateCurrent(p);
      if check.NoToken? {
        return E.Unready(X.MissingReadToken);
      }
      if check.Vanished? {
        return E.PrepareError;
      }
      if check.Mismatch? {
        return E.Unready(X.StaleReadToken);
      }
      Interfere(e.beforeRead);
      if p !in files {
        return E.PrepareError;
      }
      prepared := E.Ready(p, files[p].content);
    }

    method OverwriteEdited(name: string, content: string, basis: string, e: W.Env) returns (reply: E.EditReply)
      modifies this
      ensures E.EditStep(reply, State()) == E.CommitEdit(old(State()), names, name, content, basis, e)
    {
      hide W.Write;
      var written := Write(W.WriteRequest(name, content, W.Overwrite, 0), e, Some(basis));
      if written.Errored? {
        return E.EditError;
      }
      if written.status != W.Overwritten {
        return E.EditReply(X.MutationRejected, written.status == W.CommitUncertain);
      }
      reply := E.EditReply(X.Changed, false);
    }

    method Edit(r: X.EditRequest, prepare: E.PrepareEnv, e: W.Env) returns (reply: E.EditReply)
      modifies this
      ensures E.EditStep(reply, State()) == E.Edit(old(State()), names, r, prepare, e)
      ensures KeepsSafe(old(State()), State())
    {
      hide E.PrepareEdit, E.CommitEdit, X.ApplyExactEdit, N.Sound, N.SafeStep;
      if N.Sound(State()) {
        Safe.EditIsSafe(State(), names, r, prepare, e);
      }
      var prepared := PrepareEditFile(r.name, prepare);
      match prepared
      case PrepareError => reply := E.EditError;
      case Unready(status) => reply := E.EditReply(status, false);
      case Ready(_, content) =>
        var result := X.ApplyExactEdit(content, r);
        if result.status != X.Changed {
          return E.EditReply(result.status, false);
        }
        reply := OverwriteEdited(r.name, result.content, content, e);
    }

    method GroupEditRequests(edits: seq<X.EditRequest>, env: nat -> E.PrepareEnv) returns (g: E.Grouping)
      modifies this
      ensures E.GroupStep(g, State()) == E.GroupEdits(old(State()), names, edits, env, 0, E.Grouping(false, []))
    {
      hide E.PrepareEdit, E.GroupIndex, OneGroupEach;
      var failed, groups, index: map<W.Path, nat> := false, [], map[];
      NoGroups();
      ghost var goal := E.GroupEdits(State(), names, edits, env, 0, E.Grouping(false, []));
      for i := 0 to |edits|
        invariant goal == E.GroupEdits(State(), names, edits, env, i, E.Grouping(failed, groups))
        invariant OneGroupEach(groups) && Indexes(index, groups)
      {
        var edit := edits[i];
        var prepared := PrepareEditFile(edit.name, env(i));
        match prepared
        case PrepareError => return E.GroupError;
        case Unready(_) => failed := true;
        case Ready(p, _) =>
          GroupAdded(index, groups, p, edit);
          if p !in index {
            index := index[p := |groups|];
            groups := groups + [E.Group(p, edit.name, [edit])];
          } else {
            var k := index[p];
            groups := groups[k := groups[k].(edits := groups[k].edits + [edit])];
          }
      }
      g := E.Grouping(failed, groups);
    }

    /** One file's edits, in order, and a single overwrite if the content has changed. */
    method ApplyEditGroup(group: E.Group, prepare: E.PrepareEnv, e: W.Env) returns (reply: E.EditReply)
      modifies this
      ensures E.EditStep(reply, State()) == E.ApplyGroup(old(State()), names, group, prepare, e)
    {
      hide E.PrepareEdit, E.CommitEdit, X.ApplyExactEdit;
      var prepared := PrepareEditFile(group.name, prepare);
      match prepared
      case PrepareError => reply := E.EditError;
      case Unready(status) => reply := E.EditReply(status, false);
      case Ready(_, start) =>
        var content := start;
        ghost var ready := State();
        for i := 0 to |group.edits|
          invariant State() == ready
          invariant SameEnd(E.ApplyEdits(start, group.edits), E.ApplyEdits(content, group.edits[i..]))
        {
          var result := X.ApplyExactEdit(content, group.edits[i]);
          EditsStep(content, group.edits, i);
          if result.status != X.Changed && result.status != X.Unchanged {
            return E.EditReply(result.status, false);
          }
          content := result.content;
        }
        if content == start {
          return E.EditReply(X.Unchanged, false);
        }
        reply := OverwriteEdited(group.name, content, start, e);
    }

    method CaptureRollback(groups: seq<E.Group>) returns (saved: Option<seq<W.File>>)
      ensures saved == E.CaptureAll(State(), groups)
    {
      var entries: seq<W.File> := [];
      assert groups[..0] == [];
      for i := 0 to |groups|
        invariant E.CaptureAll(State(), groups[..i]) == Some(entries)
      {
        CaptureStep(State(), groups, i);
        if groups[i].path !in files {
          return None;
        }
        entries := entries + [files[groups[i].path]];
      }
      assert groups[..|groups|] == groups;
      saved := Some(entries);
    }

    method Restore(p: W.Path, content: string, mode: nat, io: R.RestoreIo) returns (ok: bool)
      modifies this
      ensures R.RestoreStep(ok, State()) == R.RestoreFile(old(State()), p, content, mode, io)
    {
      if io == R.RestoreFails(false) {
        return false;
      }
      Rename(p, content, mode);
      log := log + [W.Restored(p, Some(files[p]))];
      if io.RestoreFails? {
        return false;
      }
      RecordToken(p, W.TokenOf(files[p]));
      ok := true;
    }

    /** Restores every committed entry, last first, whether or not another one fails. */
    method RollbackMultiEdit(groups: seq<E.Group>, saved: seq<W.File>, committed: seq<bool>, env: nat -> R.RestoreIo)
      returns (ok: bool)
      requires |committed| == |saved| == |groups|
      modifies this
      ensures R.RestoreStep(ok, State()) == E.RollbackGroups(old(State()), groups, saved, committed, |groups|, env)
    {
      hide R.RestoreFile;
      ok := true;
      var i := |groups|;
      ghost var goal := E.RollbackGroups(State(), groups, saved, committed, i, env);
      while i > 0
        invariant 0 <= i <= |groups|
        invariant
          var rest := E.RollbackGroups(State(), groups, saved, committed, i, env);
          goal.ok == (ok && rest.ok) && goal.world == rest.world
      {
        i := i - 1;
        if committed[i] {
          var restored := Restore(groups[i].path, saved[i].content, saved[i].mode, env(i));
          ok := ok && restored;
        }
      }
    }

    method MultiEdit(edits: seq<X.EditRequest>, env: E.MultiEnv) returns (reply: E.MultiReply)
      modifies this
      ensures E.MultiStep(reply, State()) == E.MultiEdit(old(State()), names, edits, env)
      ensures KeepsSafe(old(State()), State())
      ensures W.IsTree(old(State())) && M.QuietMulti(env)
              ==> M.FoldOrNothing(old(State()), names, edits, env, E.MultiStep(reply, State()))
    {
      hide W.External, E.GroupEdits, E.CaptureAll, E.RunGroups, N.Sound, N.SafeStep, W.IsTree, M.QuietMulti,
           M.FoldOrNothing;
      MultiEditFacts(State(), names, edits, env);
      var grouping := GroupEditRequests(edits, env.group);
      if grouping.GroupError? {
        return E.MultiError;
      }
      if grouping.failed {
        return E.MultiRefused;
      }
      Interfere(env.beforeSnapshot);
      var saved := CaptureRollback(grouping.groups);
      if saved.None? {
        return E.MultiError;
      }
      E.CaptureCount(State(), grouping.groups);
      reply := RunEditGroups(grouping.groups, saved.value, env);
    }

    method RunEditGroups(groups: seq<E.Group>, saved: seq<W.File>, env: E.MultiEnv) returns (reply: E.MultiReply)
      requires |saved| == |groups|
      modifies this
      ensures E.MultiStep(reply, State()) == E.RunGroups(old(State()), names, groups, saved, env)
    {
      hide E.ApplyGroup, E.RollbackGroups, E.FileOk, E.FileCommitted;
      var committed := seq(|groups|, _ => false);
      ghost var start, goal := State(), E.ApplyGroups(State(), names, groups, env, []);
      for i := 0 to |groups|
        invariant |committed| == |groups| && forall k :: i <= k < |groups| ==> !committed[k]
        invariant goal == E.ApplyGroups(State(), names, groups, env, committed[..i])
      {
        var result := ApplyEditGroup(groups[i], env.prepare(i), env.commit(i));
        var flag := E.FileCommitted(result);
        committed := committed[i := flag];
        assert committed[..i + 1] == committed[..i] + [flag];
        if !E.FileOk(result) {
          assert goal == E.MultiRun(false, committed[..i + 1], State());
          UncommittedGroups(State(), groups, saved, committed, i + 1, |groups|, env.restore);
          if true !in committed {
            return E.MultiFailed(false, false);
          }
          var ok := RollbackMultiEdit(groups, saved, committed, env.restore);
          return E.MultiFailed(true, ok);
        }
      }
      reply := E.MultiApplied;
    }

    // ----- Patches: planning -----

    method ReadPatchTarget(name: string, e: P.PlanEnv) returns (plan: P.Plan<string>)
      modifies this
      ensures P.PlanStep(plan, State()) == P.ReadPatchTarget(old(State()), names, name, e)
    {
      hide W.External, W.Read;
      if name !in names || (names[name] !in files && names[name] !in dirs) {
        return P.Rejected;
      }
      Interfere(e.beforeCheck);
      var check := ValidateCurrent(names[name]);
      if check.Vanished? {
        return P.PlanError;
      }
      if !check.Valid? {
        return P.Rejected;
      }
      var read := Read(name, e.readPolicy, e.beforeRead, false);
      match read
      case ReadOk(content) => plan := P.Planned(content);
      case ReadErrored => plan := P.PlanError;
      case _ => plan := P.Rejected;
    }

    method PlanPatchCreate(f: D.PatchFile, e: P.PlanEnv) returns (plan: P.Plan<P.PlanFile>)
      ensures plan == P.PlanCreate(State(), names, f, e)
    {
      hide H.PatchedContent;
      if f.newPath !in names || names[f.newPath] in dirs || names[f.newPath] in files {
        return P.Rejected;
      }
      var content := H.ApplyPatchHunks("", f.hunks);
      if content.Failure? || !e.secretFree {
        return P.Rejected;
      }
      plan := P.PolicyGate(e, P.PlanFile(P.OpCreate, f.newPath, names[f.newPath], content.value, f.newMode, None));
    }

    method PlanPatchModify(f: D.PatchFile, e: P.PlanEnv) returns (plan: P.Plan<P.PlanFile>)
      modifies this
      ensures P.PlanStep(plan, State()) == P.PlanModify(old(State()), names, f, e)
    {
      hide H.PatchedContent, P.ReadPatchTarget;
      var read := ReadPatchTarget(f.oldPath, e);
      if read.PlanError? {
        return P.PlanError;
      }
      if read.Rejected? {
        return P.Rejected;
      }
      var content := H.ApplyPatchHunks(read.value, f.hunks);
      if content.Failure? || !e.secretFree || f.oldPath !in names {
        return P.Rejected;
      }
      plan := P.PolicyGate(e, P.PlanFile(P.OpModify, f.newPath, names[f.oldPath], content.value, f.newMode,
                                         Some(read.value)));
    }

    method PlanPatchDelete(f: D.PatchFile, e: P.PlanEnv) returns (plan: P.Plan<P.PlanFile>)
      modifies this
      ensures P.PlanStep(plan, State()) == P.PlanDelete(old(State()), names, f, e)
    {
      hide H.PatchedContent, P.ReadPatchTarget;
      var read := ReadPatchTarget(f.oldPath, e);
      if read.PlanError? {
        return P.PlanError;
      }
      if read.Rejected? {
        return P.Rejected;
      }
      var content := H.ApplyPatchHunks(read.value, f.hunks);
      if content.Failure? || content.value != "" || f.oldPath !in names {
        return P.Rejected;
      }
      plan := P.PolicyGate(e, P.PlanFile(P.OpDelete, f.oldPath, names[f.oldPath], "", 0, Some(read.value)));
    }

    method PlanPatchFile(f: D.PatchFile, e: P.PlanEnv) returns (plan: P.Plan<P.PlanFile>)
      modifies this
      ensures P.PlanStep(plan, State()) == P.PlanOne(old(State()), names, f, e)
    {
      hide P.PlanCreate, P.PlanModify, P.PlanDelete;
      if f.oldDevNull && f.newDevNull {
        return P.Rejected;
      }
      if f.oldDevNull {
        plan := PlanPatchCreate(f, e);
      } else if f.newDevNull {
        plan := PlanPatchDelete(f, e);
      } else if f.oldPath != f.newPath {
        plan := P.Rejected;
      } else {
        plan := PlanPatchModify(f, e);
      }
    }

    method PlanPatch(parsed: seq<D.PatchFile>, env: nat -> P.PlanEnv) returns (plan: P.Plan<seq<P.PlanFile>>)
      modifies this
      ensures P.PlanStep(plan, State()) == P.PlanFiles(old(State()), names, parsed, env, [])
    {
      hide P.PlanOne;
      var entries: seq<P.PlanFile> := [];
      var seen: set<W.Path> := {};
      ghost var goal := P.PlanFiles(State(), names, parsed, env, entries);
      for i := 0 to |parsed|
        invariant |entries| == i
        invariant goal == P.PlanFiles(State(), names, parsed, env, entries)
        invariant forall p :: p in seen <==> P.Touches(entries, p)
      {
        var planned := PlanPatchFile(parsed[i], env(i));
        if planned.PlanError? {
          return P.PlanError;
        }
        if planned.Rejected? || planned.value.path in seen {
          return P.Rejected;
        }
        TouchesOneMore(entries, planned.value);
        seen := seen + {planned.value.path};
        entries := entries + [planned.value];
      }
      plan := P.Planned(entries);
    }

    // ----- Patches: snapshots -----

    method TurnedAround(s: seq<W.Path>) returns (r: seq<W.Path>)
      ensures r == Backwards(s)
    {
      r := s;
      var i, j := 0, |s| - 1;
      while i < j
        invariant 0 <= i <= j + 1 && j == |s| - 1 - i && |r| == |s|
        invariant forall k :: 0 <= k < i ==> r[k] == s[|s| - 1 - k] && r[|s| - 1 - k] == s[k]
        invariant forall k :: i <= k <= j ==> r[k] == s[k]
      {
        r := r[i := r[j]][j := r[i]];
        i, j := i + 1, j - 1;
      }
      assert r == Backwards(s);
    }

    /** The absent directories above a file, shallowest first: found from the deepest up, then turned around. */
    method MissingParentDirs(path: W.Path) returns (missing: Option<seq<W.Path>>)
      requires path != []
      ensures missing == R.MissingFrom(State(), R.Parent(path))
    {
      var dir := R.Parent(path);
      var found: seq<W.Path> := [];
      ghost var goal := R.MissingFrom(State(), dir);
      NothingBelow(goal);
      while dir != [] && dir !in dirs
        invariant goal == Below(R.MissingFrom(State(), dir), found)
        decreases |dir|
      {
        if dir in files {
          return None;
        }
        BelowStep(R.MissingFrom(State(), R.Parent(dir)), found, dir);
        found := found + [dir];
        dir := R.Parent(dir);
      }
      var ordered := TurnedAround(found);
      assert [] + Backwards(found) == Backwards(found);
      missing := Some(ordered);
    }

    method SnapshotFile(f: P.PlanFile) returns (s: Option<P.Snapshot>)
      ensures s == P.TakeSnapshot(State(), f)
    {
      if f.path in dirs {
        return None;
      }
      if f.path in files {
        return Some(P.Snapshot(f.path, Some(files[f.path]), []));
      }
      if f.operation != P.OpCreate || f.path == [] {
        return Some(P.Snapshot(f.path, None, []));
      }
      var missing := MissingParentDirs(f.path);
      s := if missing.None? then None else Some(P.Snapshot(f.path, None, missing.value));
    }

    method PreparePatchRollback(plan: seq<P.PlanFile>) returns (snapshots: Option<seq<P.Snapshot>>)
      ensures snapshots == P.TakeSnapshots(State(), plan)
    {
      hide P.TakeSnapshot;
      var entries: seq<P.Snapshot> := [];
      assert plan[..0] == [];
      for i := 0 to |plan|
        invariant P.TakeSnapshots(State(), plan[..i]) == Some(entries)
      {
        SnapshotStep(State(), plan, i);
        var s := SnapshotFile(plan[i]);
        if s.None? {
          return None;
        }
        entries := entries + [s.value];
      }
      assert plan[..|plan|] == plan;
      snapshots := Some(entries);
    }

    // ----- Patches: commit and rollback -----

    method CommitPatchFile(f: P.PlanFile, e: W.Env) returns (ok: bool, committed: bool)
      modifies this
      ensures P.CommitStep(ok, committed, State()) == P.CommitFile(old(State()), names, f, e)
      ensures ok ==> committed
    {
      hide W.Write, W.Delete;
      var reply;
      match f.operation {
        case OpCreate =>
          reply := Write(W.WriteRequest(f.name, f.content, W.Create, f.mode), e, None);
          ok := reply == W.Reply(W.Created);
        case OpModify =>
          reply := Write(W.WriteRequest(f.name, f.content, W.Overwrite, f.mode), e, f.basis);
          ok := reply == W.Reply(W.Overwritten);
        case OpDelete =>
          reply := Delete(f.name, e, f.basis);
          ok := reply == W.Reply(W.Deleted);
      }
      committed := ok || reply == W.Reply(W.CommitUncertain);
    }

    /** Removes the directories made for a created file, deepest first, while they are empty. */
    method RemoveCreatedParentDirs(made: seq<W.Path>) returns (ok: bool)
      modifies this
      ensures R.RestoreStep(ok, State()) == R.RemoveDirs(old(State()), made)
    {
      var i := |made|;
      ghost var goal := R.RemoveDirs(State(), made);
      assert made[..i] == made;
      while i > 0
        invariant 0 <= i <= |made| && goal == R.RemoveDirs(State(), made[..i])
      {
        assert made[..i][..i - 1] == made[..i - 1];
        i := i - 1;
        var dir := made[i];
        if dir in files {
          return false;
        }
        if dir in dirs {
          if (exists p :: p in files && dir in W.Ancestors(p)) || (exists d :: d in dirs && dir in W.Ancestors(d)) {
            return true;
          }
          dirs := dirs - {dir};
        }
      }
      ok := true;
    }

    method RollbackPatchEntry(s: P.Snapshot, io: R.RestoreIo) returns (ok: bool)
      modifies this
      ensures R.RestoreStep(ok, State()) == P.RollbackEntry(old(State()), s, io)
    {
      hide R.RemoveDirs, R.RestoreFile;
      if s.existed.Some? {
        ok := Restore(s.path, s.existed.value.content, s.existed.value.mode, io);
        return;
      }
      if io == R.RestoreFails(false) {
        return false;
      }
      if io.RestoreDone? && s.path in dirs {
        return false;
      }
      if s.path in files {
        Unlink(s.path);
        log := log + [W.Restored(s.path, None)];
      }
      if io.RestoreFails? {
        return false;
      }
      ForgetToken(s.path);
      ok := RemoveCreatedParentDirs(s.madeDirs);
    }

    /** Undoes the committed entries, last first, and stops at the first that fails. */
    method RollbackPatch(snapshots: seq<P.Snapshot>, committed: seq<bool>, env: nat -> R.RestoreIo)
      returns (ok: bool, count: nat)
      requires |committed| == |snapshots|
      modifies this
      ensures R.RestoreStep(ok, State()) == P.Rollback(old(State()), snapshots, committed, |snapshots|, env)
      ensures ok ==> count == P.CountTrue(committed)
    {
      hide P.RollbackEntry;
      var i := |snapshots|;
      count := 0;
      ghost var goal := P.Rollback(State(), snapshots, committed, i, env);
      assert committed[..i] == committed;
      while i > 0
        invariant 0 <= i <= |snapshots|
        invariant goal == P.Rollback(State(), snapshots, committed, i, env)
        invariant count + P.CountTrue(committed[..i]) == P.CountTrue(committed)
      {
        i := i - 1;
        assert committed[..i + 1][..i] == committed[..i];
        if committed[i] {
          ok := RollbackPatchEntry(snapshots[i], env(i));
          if !ok {
            return;
          }
          count := count + 1;
        }
      }
      ok := true;
    }

    method CommitPlan(plan: seq<P.PlanFile>, snapshots: seq<P.Snapshot>, env: P.PatchEnv) returns (reply: P.PatchReply)
      requires |snapshots| == |plan|
      modifies this
      ensures P.PatchStep(reply, State()) == P.RunPlan(old(State()), names, plan, snapshots, env)
    {
      hide P.CommitFile, P.Rollback;
      var committed := seq(|plan|, _ => false);
      ghost var goal := P.CommitAll(State(), names, plan, env.commit, []);
      for i := 0 to |plan|
        invariant |committed| == |plan| && forall k :: i <= k < |plan| ==> !committed[k]
        invariant goal == P.CommitAll(State(), names, plan, env.commit, committed[..i])
      {
        var ok, flag := CommitPatchFile(plan[i], env.commit(i));
        committed := committed[i := flag];
        assert committed[..i + 1] == committed[..i] + [flag];
        if !ok {
          assert goal == P.CommitRun(false, committed[..i + 1], State());
          UncommittedTail(State(), snapshots, committed, i + 1, |plan|, env.restore);
          if true !in committed {
            return P.PatchFailed(false, false, 0);
          }
          CountTail(committed, i + 1);
          var undone, count := RollbackPatch(snapshots, committed, env.restore);
          return P.PatchFailed(true, undone, if undone then count else 0);
        }
      }
      reply := P.PatchApplied;
    }

    /** Applies a unified diff: parse, plan every file, snapshot, commit in order, roll back on the first failure. */
    method ApplyPatch(patch: string, lib: D.PathLibrary, env: P.PatchEnv) returns (reply: P.PatchReply)
      modifies this
      ensures P.PatchStep(reply, State()) == P.ApplyPatch(old(State()), names, patch, lib, env)
      ensures KeepsSafe(old(State()), State())
      ensures W.IsTree(old(State())) && O.BelowRoot(names) && O.QuietPatch(env)
              ==> O.WholeOrNothing(old(State()), names, patch, lib, P.PatchStep(reply, State()))
    {
      hide D.ParsePatch, P.PlanFiles, P.TakeSnapshots, P.RunPlan, W.External, N.Sound, N.SafeStep, W.IsTree,
           O.BelowRoot, O.QuietPatch, O.WholeOrNothing;
      PatchFacts(State(), names, patch, lib, env);
      var parsed := Reader.ParseUnifiedPatch(patch, lib);
      if parsed.Failure? {
        return P.PatchRefused;
      }
      var plan := PlanPatch(parsed.value, env.plan);
      if plan.PlanError? {
        return P.PatchError;
      }
      if plan.Rejected? {
        return P.PatchRefused;
      }
      Interfere(env.beforeSnapshot);
      var snapshots := PreparePatchRollback(plan.value);
      if snapshots.None? {
        return P.PatchError;
      }
      P.SnapshotCount(State(), plan.value);
      reply := CommitPlan(plan.value, snapshots.value, env);
    }
  }
}
