/** What the steps of a commit leave to other writers: their files, their directories, and every other token. */
module OtherWriters {
  import opened Wrappers
  import opened Workspace
  import opened Restores

  // ----- What other writers made of the workspace -----

  /** The file at `p` as the last other writer of this stretch of history left it, or as it was at its start. */
  function Seen(start: map<Path, File>, history: seq<Entry>, p: Path): Option<File> {
    if history == [] then if p in start then Some(start[p]) else None
    else
      match history[|history| - 1]
      case Foreign(files, _) => if p in files then Some(files[p]) else None
      case _ => Seen(start, history[..|history| - 1], p)
  }

  /** The directories as the last other writer left them, or as they were at the start. */
  function SeenDirs(start: set<Path>, history: seq<Entry>): set<Path> {
    if history == [] then start
    else
      match history[|history| - 1]
      case Foreign(_, dirs) => dirs
      case _ => SeenDirs(start, history[..|history| - 1])
  }

  /** Something has been committed at `p`. */
  predicate CommittedIn(history: seq<Entry>, p: Path) {
    exists k :: 0 <= k < |history| && history[k].Commit? && history[k].path == p
  }

  predicate SameToken(w: World, w': World, p: Path) {
    (p in w'.tokens <==> p in w.tokens) && (p in w.tokens && p in w'.tokens ==> w'.tokens[p] == w.tokens[p])
  }

  /** From `w` to `w'`: what is at `p` is other writers' doing, its token is untouched, nothing is committed there. */
  ghost predicate Spared(w: World, w': World, p: Path) {
    && w.log <= w'.log && Lookup(w', p) == Seen(w.files, w'.log[|w.log|..], p) && SameToken(w, w', p)
    && !CommittedIn(w'.log[|w.log|..], p)
  }

  /** From `w` to `w'`: the directories are other writers', with some of `made` and without some of `gone`. */
  ghost predicate DirsBetween(w: World, w': World, made: set<Path>, gone: set<Path>) {
    && w.log <= w'.log
    && SeenDirs(w.dirs, w'.log[|w.log|..]) - gone <= w'.dirs <= SeenDirs(w.dirs, w'.log[|w.log|..]) + made
  }

  // ----- Joining two stretches -----

  lemma {:induction false} LogJoins(a: World, b: World, c: World)
    requires a.log <= b.log && b.log <= c.log
    ensures a.log <= c.log && c.log[|a.log|..] == b.log[|a.log|..] + c.log[|b.log|..]
  {
  }

  lemma {:induction false} SeenJoins(start: map<Path, File>, before: seq<Entry>, middle: map<Path, File>,
                                     after: seq<Entry>, p: Path)
    requires Seen(start, before, p) == if p in middle then Some(middle[p]) else None
    ensures Seen(start, before + after, p) == Seen(middle, after, p)
    decreases |after|
  {
    if after == [] {
      assert before + after == before;
    } else {
      assert (before + after)[..|before + after| - 1] == before + after[..|after| - 1];
      SeenJoins(start, before, middle, after[..|after| - 1], p);
    }
  }

  lemma {:induction false} CommittedJoins(before: seq<Entry>, after: seq<Entry>, p: Path)
    ensures CommittedIn(before + after, p) <==> CommittedIn(before, p) || CommittedIn(after, p)
  {
    var all := before + after;
    if CommittedIn(before, p) {
      var k :| 0 <= k < |before| && before[k].Commit? && before[k].path == p;
      assert all[k] == before[k];
    }
    if CommittedIn(after, p) {
      var k :| 0 <= k < |after| && after[k].Commit? && after[k].path == p;
      assert all[|before| + k] == after[k];
    }
  }

  lemma {:induction false} SparedJoins(a: World, b: World, c: World, p: Path)
    requires Spared(a, b, p) && Spared(b, c, p)
    ensures Spared(a, c, p)
  {
    hide Seen, CommittedIn;
    LogJoins(a, b, c);
    SeenJoins(a.files, b.log[|a.log|..], b.files, c.log[|b.log|..], p);
    CommittedJoins(b.log[|a.log|..], c.log[|b.log|..], p);
  }

  /** Either other writers came after, and only what they left counts, or none did. */
  lemma {:induction false} SeenDirsJoins(start: set<Path>, before: seq<Entry>, middle: set<Path>, after: seq<Entry>)
    ensures SeenDirs(start, before + after) == SeenDirs(middle, after)
            || (SeenDirs(start, before + after) == SeenDirs(start, before) && SeenDirs(middle, after) == middle)
    decreases |after|
  {
    if after == [] {
      assert before + after == before;
    } else {
      assert (before + after)[..|before + after| - 1] == before + after[..|after| - 1];
      SeenDirsJoins(start, before, middle, after[..|after| - 1]);
    }
  }

  lemma {:induction false} DirsJoin(a: World, b: World, c: World, made: set<Path>, gone: set<Path>)
    requires DirsBetween(a, b, made, gone) && DirsBetween(b, c, made, gone)
    ensures DirsBetween(a, c, made, gone)
  {
    hide SeenDirs;
    LogJoins(a, b, c);
    SeenDirsJoins(a.dirs, b.log[|a.log|..], b.dirs, c.log[|b.log|..]);
  }

  lemma {:induction false} DirsWiden(w: World, w': World, made: set<Path>, gone: set<Path>, made': set<Path>,
                                     gone': set<Path>)
    requires DirsBetween(w, w', made, gone) && made <= made' && gone <= gone'
    ensures DirsBetween(w, w', made', gone')
  {
    hide SeenDirs;
  }

  // ----- Single steps -----

  lemma {:induction false} NoStep(w: World, w': World, p: Path)
    requires w'.log == w.log && Lookup(w', p) == Lookup(w, p) && SameToken(w, w', p)
    ensures Spared(w, w', p)
  {
    assert w'.log[|w.log|..] == [];
  }

  lemma {:induction false} OneEntry(w: World, w': World, entry: Entry, p: Path)
    requires w'.log == w.log + [entry] && SameToken(w, w', p)
    requires if entry.Foreign? then w'.files == entry.files else Lookup(w', p) == Lookup(w, p)
    requires entry.Commit? ==> entry.path != p
    ensures Spared(w, w', p)
  {
    assert w'.log[|w.log|..] == [entry];
    assert [entry][..0] == [];
  }

  lemma {:induction false} NoEntryDirs(w: World, w': World, made: set<Path>, gone: set<Path>)
    requires w'.log == w.log && w.dirs - gone <= w'.dirs <= w.dirs + made
    ensures DirsBetween(w, w', made, gone)
  {
    assert w'.log[|w.log|..] == [];
  }

  lemma {:induction false} OneEntryDirs(w: World, w': World, entry: Entry, made: set<Path>)
    requires w'.log == w.log + [entry]
    requires if entry.Foreign? then w'.dirs == entry.dirs else w.dirs <= w'.dirs <= w.dirs + made
    ensures DirsBetween(w, w', made, {})
  {
    assert w'.log[|w.log|..] == [entry];
    assert [entry][..0] == [];
  }

  /** What holds of a step at `own`: another path is spared, and so is its own unless something is committed there. */
  ghost predicate CommitsOnly(w: World, w': World, own: Path, p: Path) {
    && w.log <= w'.log && (Spared(w, w', p) || (p == own && CommittedIn(w'.log[|w.log|..], p)))
    && DirsBetween(w, w', Ancestors(own), {})
  }

  /** A step that spares everything. */
  ghost predicate Spares(w: World, w': World, own: Path, p: Path) {
    Spared(w, w', p) && DirsBetween(w, w', Ancestors(own), {})
  }

  lemma {:induction false} SparesJoin(a: World, b: World, c: World, own: Path, p: Path)
    requires Spares(a, b, own, p) && Spares(b, c, own, p)
    ensures Spares(a, c, own, p)
  {
    hide Spared, DirsBetween, Ancestors;
    SparedJoins(a, b, c, p);
    DirsJoin(a, b, c, Ancestors(own), {});
  }

  lemma {:induction false} SparesOnly(w: World, w': World, own: Path, p: Path)
    requires Spares(w, w', own, p)
    ensures CommitsOnly(w, w', own, p)
  {
    hide DirsBetween, Ancestors;
  }

  lemma {:induction false} CommitAfterOthers(a: World, b: World, c: World, own: Path, p: Path)
    requires Spares(a, b, own, p) && CommitsOnly(b, c, own, p)
    ensures CommitsOnly(a, c, own, p)
  {
    hide Spared, DirsBetween, Ancestors, CommittedIn;
    SparedGrows(a, b, p);
    LogJoins(a, b, c);
    DirsJoin(a, b, c, Ancestors(own), {});
    if Spared(b, c, p) {
      SparedJoins(a, b, c, p);
    } else {
      CommittedJoins(b.log[|a.log|..], c.log[|b.log|..], p);
    }
  }

  lemma {:induction false} SparedGrows(w: World, w': World, p: Path)
    requires Spared(w, w', p)
    ensures w.log <= w'.log && !CommittedIn(w'.log[|w.log|..], p)
  {
  }

  lemma {:induction false} NoStepSpares(w: World, own: Path, p: Path)
    ensures Spares(w, w, own, p)
  {
    NoStep(w, w, p);
    NoEntryDirs(w, w, Ancestors(own), {});
  }

  lemma {:induction false} OthersSpare(w: World, c: Change, own: Path, p: Path)
    ensures Spares(w, External(w, c), own, p)
  {
    hide Spared, DirsBetween, Ancestors;
    var w' := External(w, c);
    match c
    case Nothing => NoStepSpares(w, own, p);
    case Change(_, _, _) =>
      OneEntry(w, w', w'.log[|w.log|], p);
      OneEntryDirs(w, w', w'.log[|w.log|], Ancestors(own));
  }

  // ----- One commit -----

  /** A step that may do anything to `own`, and spares the rest. */
  ghost predicate Elsewhere(w: World, w': World, own: Path, p: Path) {
    w.log <= w'.log && (p != own ==> Spared(w, w', p)) && DirsBetween(w, w', Ancestors(own), {})
  }

  lemma {:induction false} SparesElsewhere(w: World, w': World, own: Path, p: Path)
    requires Spares(w, w', own, p)
    ensures Elsewhere(w, w', own, p)
  {
    hide DirsBetween, Ancestors;
  }

  lemma {:induction false} ElsewhereJoins(a: World, b: World, c: World, own: Path, p: Path)
    requires Elsewhere(a, b, own, p) && Elsewhere(b, c, own, p)
    ensures Elsewhere(a, c, own, p)
    ensures CommittedIn(b.log[|a.log|..], own) ==> CommittedIn(c.log[|a.log|..], own)
  {
    hide Spared, DirsBetween, Ancestors, CommittedIn;
    LogJoins(a, b, c);
    DirsJoin(a, b, c, Ancestors(own), {});
    CommittedJoins(b.log[|a.log|..], c.log[|b.log|..], own);
    if p != own {
      SparedJoins(a, b, c, p);
    }
  }

  /** One entry about `own`. */
  lemma {:induction false} EntryElsewhere(w: World, w': World, entry: Entry, own: Path, p: Path)
    requires w'.log == w.log + [entry] && !entry.Foreign? && w.dirs <= w'.dirs <= w.dirs + Ancestors(own)
    requires p != own ==> Lookup(w', p) == Lookup(w, p) && SameToken(w, w', p)
    requires entry.Commit? ==> entry.path == own
    ensures Elsewhere(w, w', own, p)
    ensures entry.Commit? ==> CommittedIn(w'.log[|w.log|..], own)
  {
    hide Ancestors;
    OneEntryDirs(w, w', entry, Ancestors(own));
    assert w'.log[|w.log|..] == [entry];
    assert w'.log[|w.log|..][0] == entry;
    if p != own {
      OneEntry(w, w', entry, p);
    }
  }

  lemma {:induction false} CommittedOnly(w: World, w': World, own: Path, p: Path)
    requires Elsewhere(w, w', own, p) && CommittedIn(w'.log[|w.log|..], own)
    ensures CommitsOnly(w, w', own, p)
  {
    hide Spared, DirsBetween, Ancestors, CommittedIn;
  }

  lemma {:induction false} LandCommitsOnly(w: World, own: Path, content: string, mode: nat, e: Env,
                                           token: Option<Token>, backup: Option<string>, basis: Option<string>, p: Path)
    ensures CommitsOnly(w, Land(w, own, content, mode, e, token, backup, basis).world, own, p)
  {
    hide Elsewhere, Spares, Ancestors, External, CommittedIn, CommitsOnly;
    var put := PutFile(w, own, content, mode);
    var entry := Commit(own, Lookup(w, own), Some(put.files[own]), token, backup, basis);
    var landed := Logged(put, entry);
    EntryElsewhere(w, landed, entry, own, p);
    CommittedOnly(w, landed, own, p);
    if !e.io.Uncertain? {
      var seen := External(landed, e.beforeReread);
      OthersSpare(landed, e.beforeReread, own, p);
      SparesElsewhere(landed, seen, own, p);
      ElsewhereJoins(w, landed, seen, own, p);
      CommittedOnly(w, seen, own, p);
      if !e.io.RereadFails? && own in seen.files {
        var recorded := Record(seen, own, TokenOf(seen.files[own]));
        EntryElsewhere(seen, recorded, Recorded(own, Some(TokenOf(seen.files[own]))), own, p);
        ElsewhereJoins(w, seen, recorded, own, p);
        CommittedOnly(w, recorded, own, p);
      }
    }
  }

  lemma {:induction false} UnlinkCommitsOnly(w: World, own: Path, e: Env, token: Token, backup: string,
                                             basis: Option<string>, p: Path)
    requires own in w.files
    ensures CommitsOnly(w, Unlink(w, own, e, token, backup, basis).world, own, p)
  {
    hide Elsewhere, Ancestors, CommittedIn, CommitsOnly;
    var entry := Commit(own, Lookup(w, own), None, Some(token), Some(backup), basis);
    var removed := Logged(RemoveFile(w, own), entry);
    EntryElsewhere(w, removed, entry, own, p);
    CommittedOnly(w, removed, own, p);
    if !e.io.Uncertain? {
      EntryElsewhere(removed, Forget(removed, own), Recorded(own, None), own, p);
      ElsewhereJoins(w, removed, Forget(removed, own), own, p);
      CommittedOnly(w, Forget(removed, own), own, p);
    }
  }

  lemma {:induction false} NewCommitsOnly(w: World, own: Path, content: string, mode: nat, e: Env, p: Path)
    ensures CommitsOnly(w, CreateNew(w, own, content, mode, e).world, own, p)
  {
    hide Spares, CommitsOnly, Ancestors, BelowFile, Land, RefusedWorld;
    var seen := External(w, e.beforeCommit);
    OthersSpare(w, e.beforeCommit, own, p);
    LandCommitsOnly(seen, own, content, mode, e, None, None, None, p);
    CommitAfterOthers(w, seen, Land(seen, own, content, mode, e, None, None, None).world, own, p);
    RefusalSpares(w, seen, own, p);
    NoStepSpares(w, own, p);
    SparesOnly(w, w, own, p);
    SparesOnly(w, seen, own, p);
  }

  lemma {:induction false} RefusalSpares(w: World, seen: World, own: Path, p: Path)
    requires Spares(w, seen, own, p)
    ensures CommitsOnly(w, RefusedWorld(seen, own, true), own, p)
            && CommitsOnly(w, RefusedWorld(seen, own, false), own, p)
  {
    hide Ancestors, Spared, CommitsOnly, DirsBetween;
    var refused := RefusedWorld(seen, own, true);
    NoStep(seen, refused, p);
    NoEntryDirs(seen, refused, Ancestors(own), {});
    SparesJoin(w, seen, refused, own, p);
    SparesOnly(w, refused, own, p);
    SparesOnly(w, seen, own, p);
  }

  lemma {:induction false} ReplaceCommitsOnly(w: World, own: Path, content: string, mode: nat, e: Env,
                                              basis: Option<string>, p: Path)
    ensures CommitsOnly(w, Replace(w, own, content, mode, e, basis).world, own, p)
  {
    hide Spares, CommitsOnly, Ancestors, Land, ValidateCurrent, RefusedWorld;
    var w1 := External(w, e.beforeCheck);
    var w2 := External(w1, e.beforeBackup);
    var w3 := External(w2, e.beforeCommit);
    ThreeGaps(w, e, own, p);
    SparesOnly(w, w1, own, p);
    SparesOnly(w, w2, own, p);
    SparesOnly(w, w3, own, p);
    RefusalSpares(w, w3, own, p);
    var check := ValidateCurrent(w1, own);
    if check.Valid? && own in w2.files {
      var backup := Some(w2.files[own].content);
      LandCommitsOnly(w3, own, content, mode, e, Some(check.token), backup, basis, p);
      CommitAfterOthers(w, w3, Land(w3, own, content, mode, e, Some(check.token), backup, basis).world, own, p);
    }
  }

  /** The gaps before a commit. */
  lemma {:induction false} ThreeGaps(w: World, e: Env, own: Path, p: Path)
    ensures
      var w1 := External(w, e.beforeCheck);
      var w2 := External(w1, e.beforeBackup);
      Spares(w, w1, own, p) && Spares(w, w2, own, p) && Spares(w, External(w2, e.beforeCommit), own, p)
  {
    hide Spares, External;
    var w1 := External(w, e.beforeCheck);
    var w2 := External(w1, e.beforeBackup);
    OthersSpare(w, e.beforeCheck, own, p);
    OthersSpare(w1, e.beforeBackup, own, p);
    OthersSpare(w2, e.beforeCommit, own, p);
    SparesJoin(w, w1, w2, own, p);
    SparesJoin(w, w2, External(w2, e.beforeCommit), own, p);
  }

  /** A managed write, whatever it meets. */
  lemma {:induction false} WriteCommitsOnly(w: World, names: Names, r: WriteRequest, e: Env, basis: Option<string>,
                                            own: Path, p: Path)
    requires r.name in names && names[r.name] == own
    ensures CommitsOnly(w, Write(w, names, r, e, basis).world, own, p)
  {
    hide Spares, CommitsOnly, Replace, CreateNew, External, WriteMode;
    var seen := External(w, e.beforeStat);
    var mode := WriteMode(r.mode, Lookup(seen, own));
    OthersSpare(w, e.beforeStat, own, p);
    SparesOnly(w, seen, own, p);
    ReplaceCommitsOnly(seen, own, r.content, mode, e, basis, p);
    NewCommitsOnly(seen, own, r.content, mode, e, p);
    CommitAfterOthers(w, seen, Replace(seen, own, r.content, mode, e, basis).world, own, p);
    CommitAfterOthers(w, seen, CreateNew(seen, own, r.content, mode, e).world, own, p);
  }

  lemma {:induction false} RemovalCommitsOnly(w: World, own: Path, e: Env, basis: Option<string>, p: Path)
    ensures CommitsOnly(w, DeleteResolved(w, own, e, basis).world, own, p)
  {
    hide Spares, CommitsOnly, Unlink, External, ValidateCurrent;
    var w1 := External(w, e.beforeCheck);
    var w2 := External(w1, e.beforeBackup);
    var w3 := External(w2, e.beforeCommit);
    ThreeGaps(w, e, own, p);
    NoStepSpares(w, own, p);
    SparesOnly(w, w, own, p);
    SparesOnly(w, w1, own, p);
    SparesOnly(w, w2, own, p);
    SparesOnly(w, w3, own, p);
    var check := ValidateCurrent(w1, own);
    if check.Valid? && own in w2.files && own in w3.files {
      UnlinkCommitsOnly(w3, own, e, check.token, w2.files[own].content, basis, p);
      CommitAfterOthers(w, w3, Unlink(w3, own, e, check.token, w2.files[own].content, basis).world, own, p);
    }
  }

  /** A managed delete, whatever it meets. */
  lemma {:induction false} DeleteCommitsOnly(w: World, names: Names, name: string, e: Env, basis: Option<string>,
                                             own: Path, p: Path)
    requires name in names && names[name] == own
    ensures CommitsOnly(w, Delete(w, names, name, e, basis).world, own, p)
  {
    hide Spares, CommitsOnly, DeleteResolved, External;
    var seen := External(w, e.beforeStat);
    OthersSpare(w, e.beforeStat, own, p);
    RemovalCommitsOnly(seen, own, e, basis, p);
    CommitAfterOthers(w, seen, DeleteResolved(seen, own, e, basis).world, own, p);
  }

  // ----- Restores -----

  /** The file of `w0` is back, content and mode, with a valid token; or there is again no file, and no token. */
  ghost predicate PutBack(w0: World, w: World, p: Path) {
    if p in w0.files then
      HasValidToken(w, p) && w.files[p].content == w0.files[p].content && w.files[p].mode == w0.files[p].mode
    else p !in w.files && p !in w.tokens
  }

  /** Restoring `own` leaves every other path as it is. */
  lemma {:induction false} RestoreSpares(w: World, own: Path, content: string, mode: nat, io: RestoreIo, p: Path)
    ensures
      var w' := RestoreFile(w, own, content, mode, io).world;
      && (p != own ==> Spared(w, w', p) && Lookup(w', p) == Lookup(w, p) && SameToken(w, w', p))
      && DirsBetween(w, w', Ancestors(own), {})
  {
    hide Elsewhere, Ancestors;
    var entry := Restored(own, Some(File(content, mode, w.clock)));
    var put := Logged(PutFile(w, own, content, mode), entry);
    var recorded := Record(put, own, TokenOf(put.files[own]));
    NoStepSpares(w, own, p);
    EntryElsewhere(w, put, entry, own, p);
    EntryElsewhere(put, recorded, Recorded(own, Some(TokenOf(put.files[own]))), own, p);
    ElsewhereJoins(w, put, recorded, own, p);
    ElsewhereMeans(w, put, own, p);
    ElsewhereMeans(w, recorded, own, p);
  }

  lemma {:induction false} ElsewhereMeans(w: World, w': World, own: Path, p: Path)
    requires Elsewhere(w, w', own, p)
    ensures (p != own ==> Spared(w, w', p)) && DirsBetween(w, w', Ancestors(own), {})
  {
  }
}
