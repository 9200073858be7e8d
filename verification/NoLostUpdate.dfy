/** No lost update: what every commit over an existing file replaces, backs up and was computed from. */
module NoLostUpdate {
  import opened Wrappers
  import opened Workspace

  /** The token last put in the registry for a path, by a read or by the service's own write. */
  function LastRecorded(log: seq<Entry>, p: Path): Option<Token> {
    if log == [] then None
    else
      var last := log[|log| - 1];
      if last.Recorded? && last.path == p then last.registered else LastRecorded(log[..|log| - 1], p)
  }

  /**
   * A commit over an existing file replaces exactly the version its token names, its backup holds exactly
   * the replaced bytes, and content computed from a read was computed from those bytes.
   */
  predicate SafeCommit(c: Entry) {
    c.Commit? && c.before.Some? ==>
      && c.token.Some? && Matches(c.token.value, c.before.value)
      && c.backup == Some(c.before.value.content)
      && (c.basis.Some? ==> c.basis == c.backup)
  }

  function WithFile(files: map<Path, File>, p: Path, f: Option<File>): map<Path, File> {
    if f.Some? then files[p := f.value] else files - {p}
  }

  /** What one history entry makes of the files. */
  function ReplayOne(files: map<Path, File>, c: Entry): map<Path, File> {
    match c
    case Commit(p, _, after, _, _, _) => WithFile(files, p, after)
    case Restored(p, after) => WithFile(files, p, after)
    case Recorded(_, _) => files
    case Foreign(files', _) => files'
  }

  /** The files the history leads to. */
  function Replay(log: seq<Entry>): map<Path, File> {
    if log == [] then map[] else ReplayOne(Replay(log[..|log| - 1]), log[|log| - 1])
  }

  /** A safe commit, authorised by the token last recorded for its path, that says truly what it replaced. */
  predicate SafeAfter(log: seq<Entry>, c: Entry) {
    && SafeCommit(c)
    && (c.Commit? && c.before.Some? ==> c.token == LastRecorded(log, c.path))
    && (c.Commit? ==> c.before == if c.path in Replay(log) then Some(Replay(log)[c.path]) else None)
  }

  ghost predicate SafeLog(log: seq<Entry>) {
    forall i :: 0 <= i < |log| ==> SafeAfter(log[..i], log[i])
  }

  /** The registry is what the history says was recorded last. */
  ghost predicate Registered(w: World) {
    forall p :: LastRecorded(w.log, p) == if p in w.tokens then Some(w.tokens[p]) else None
  }

  /** The history is complete: it explains the files and the registry, and every commit in it is safe. */
  ghost predicate Sound(w: World) {
    Dated(w) && Registered(w) && Replay(w.log) == w.files && SafeLog(w.log)
  }

  /** What one operation may do: time moves on, the history grows, and it stays safe. */
  ghost predicate SafeStep(w: World, w': World) {
    Evolves(w, w') && w.log <= w'.log && Sound(w')
  }

  /** The bytes a new content was computed from are those of the version the registered token names. */
  ghost predicate BasisHolds(w: World, p: Path, basis: Option<string>) {
    basis.Some? && p in w.tokens ==> Pinned(w, p, w.tokens[p].version, basis.value)
  }

  // ----- Composition -----

  lemma {:induction false} SafeStepTransitive(a: World, b: World, c: World)
    requires SafeStep(a, b) && SafeStep(b, c)
    ensures SafeStep(a, c)
  {
    hide Sound;
    EvolvesTransitive(a, b, c);
  }

  lemma {:induction false} StepIsSound(w: World, w': World)
    requires SafeStep(w, w')
    ensures Sound(w') && Evolves(w, w')
  {
  }

  lemma {:induction false} NothingIsSafe(w: World)
    requires Sound(w)
    ensures SafeStep(w, w)
  {
  }

  lemma {:induction false} AppendSafe(log: seq<Entry>, c: Entry)
    requires SafeLog(log) && SafeAfter(log, c)
    ensures SafeLog(log + [c])
  {
    hide SafeAfter;
    forall i | 0 <= i < |log| + 1
      ensures SafeAfter((log + [c])[..i], (log + [c])[i])
    {
      assert (log + [c])[..i] == log[..i];
      if i == |log| {
        assert log[..i] == log;
      }
    }
  }

  lemma {:induction false} LastOfAppend(log: seq<Entry>, c: Entry, p: Path)
    ensures LastRecorded(log + [c], p) == if c.Recorded? && c.path == p then c.registered else LastRecorded(log, p)
    ensures Replay(log + [c]) == ReplayOne(Replay(log), c)
  {
    assert (log + [c])[..|log|] == log;
  }

  /** Adding a history entry, with the files and the registry following it. */
  lemma {:induction false} LoggedIsSafe(w: World, c: Entry, w': World)
    requires Sound(w) && SafeAfter(w.log, c)
    requires w'.log == w.log + [c] && Evolves(w, w') && Dated(w')
    requires w'.files == ReplayOne(w.files, c)
    requires w'.tokens == match c
             case Recorded(p, Some(t)) => w.tokens[p := t]
             case Recorded(p, None) => w.tokens - {p}
             case _ => w.tokens
    ensures SafeStep(w, w')
  {
    hide Dated, Evolves, SafeAfter, LastRecorded, SafeLog, Replay, ReplayOne;
    AppendSafe(w.log, c);
    LastOfAppend(w.log, c, []);
    forall p ensures LastRecorded(w'.log, p) == if p in w'.tokens then Some(w'.tokens[p]) else None {
      LastOfAppend(w.log, c, p);
    }
  }

  lemma {:induction false} ExternalIsSafe(w: World, c: Change)
    requires Sound(w)
    ensures SafeStep(w, External(w, c)) && External(w, c).tokens == w.tokens
  {
    hide SafeLog, LastRecorded, Replay;
    ExternalEvolves(w, c);
    if c.Change? {
      LoggedIsSafe(w, Foreign(External(w, c).files, External(w, c).dirs), External(w, c));
    }
  }

  /** A service that starts on any files with an empty registry is sound. */
  lemma {:induction false} InitialIsSound(files: map<Path, File>, dirs: set<Path>, clock: nat)
    requires forall p :: p in files ==> files[p].version < clock
    ensures Sound(World(files, dirs, map[], clock, [Foreign(files, dirs)]))
  {
    assert [Foreign(files, dirs)][..0] == [];
  }

  lemma {:induction false} BasisStays(w: World, w': World, p: Path, basis: Option<string>)
    requires BasisHolds(w, p, basis) && Evolves(w, w')
    requires p in w'.tokens ==> p in w.tokens && w'.tokens[p] == w.tokens[p]
    ensures BasisHolds(w', p, basis)
  {
  }

  // ----- Commits -----

  lemma {:induction false} RecordIsSafe(w: World, p: Path, t: Token)
    requires Sound(w) && t.version < w.clock
    ensures SafeStep(w, Record(w, p, t))
  {
    hide SafeLog, LastRecorded, Replay;
    LoggedIsSafe(w, Recorded(p, Some(t)), Record(w, p, t));
  }

  lemma {:induction false} ForgetIsSafe(w: World, p: Path)
    requires Sound(w)
    ensures SafeStep(w, Forget(w, p))
  {
    hide SafeLog, LastRecorded, Replay;
    LoggedIsSafe(w, Recorded(p, None), Forget(w, p));
  }

  lemma {:induction false} PutIsSafe(w: World, p: Path, content: string, mode: nat, c: Entry)
    requires Sound(w) && SafeAfter(w.log, c) && (c.Commit? || c.Restored?)
    requires c.path == p && c.after == Some(File(content, mode, w.clock))
    ensures SafeStep(w, Logged(PutFile(w, p, content, mode), c))
  {
    hide SafeLog, LastRecorded, SafeAfter, Replay;
    LoggedIsSafe(w, c, Logged(PutFile(w, p, content, mode), c));
  }

  lemma {:induction false} RemoveIsSafe(w: World, p: Path, c: Entry)
    requires Sound(w) && SafeAfter(w.log, c) && (c.Commit? || c.Restored?) && c.path == p && c.after == None
    ensures SafeStep(w, Logged(RemoveFile(w, p), c))
  {
    hide SafeLog, LastRecorded, SafeAfter, Replay;
    LoggedIsSafe(w, c, Logged(RemoveFile(w, p), c));
  }

  lemma {:induction false} LandIsSafe(w: World, p: Path, content: string, mode: nat, e: Env, token: Option<Token>,
                                      backup: Option<string>, basis: Option<string>)
    requires Sound(w)
    requires SafeAfter(w.log, Commit(p, Lookup(w, p), Some(File(content, mode, w.clock)), token, backup, basis))
    ensures SafeStep(w, Land(w, p, content, mode, e, token, backup, basis).world)
  {
    hide Sound, SafeStep, SafeAfter, External;
    var entry := Commit(p, Lookup(w, p), Some(File(content, mode, w.clock)), token, backup, basis);
    var landed := Logged(PutFile(w, p, content, mode), entry);
    var seen := External(landed, e.beforeReread);
    PutIsSafe(w, p, content, mode, entry);
    StepIsSound(w, landed);
    ExternalIsSafe(landed, e.beforeReread);
    SafeStepTransitive(w, landed, seen);
    StepIsSound(w, seen);
    if p in seen.files {
      SoundIsDated(seen, p);
      RecordIsSafe(seen, p, TokenOf(seen.files[p]));
      SafeStepTransitive(w, seen, Record(seen, p, TokenOf(seen.files[p])));
    }
  }

  lemma {:induction false} SoundIsDated(w: World, p: Path)
    requires Sound(w)
    ensures p in w.files ==> w.files[p].version < w.clock
    ensures LastRecorded(w.log, p) == if p in w.tokens then Some(w.tokens[p]) else None
    ensures Replay(w.log) == w.files
  {
  }

  /** The version validated last is the one backed up in between, and the one the basis was read from. */
  lemma {:induction false} ValidatedTwice(w0: World, w2: World, w3: World, p: Path, after: Option<File>,
                                          basis: Option<string>)
    requires Dated(w0) && BasisHolds(w0, p, basis) && Evolves(w0, w2) && Evolves(w2, w3)
    requires p in w0.tokens && p in w2.files && CheckAgainst(w3, p, w0.tokens[p]).Valid?
    ensures SafeCommit(Commit(p, Lookup(w3, p), after, Some(w0.tokens[p]), Some(w2.files[p].content), basis))
  {
    assert w3.files[p].version < w2.clock;
  }

  lemma {:induction false} AuthorisedCommit(w0: World, w2: World, w3: World, p: Path, after: Option<File>,
                                            basis: Option<string>)
    requires Sound(w0) && Sound(w3) && BasisHolds(w0, p, basis) && Evolves(w0, w2) && Evolves(w2, w3)
    requires w3.tokens == w0.tokens
    requires p in w0.tokens && p in w2.files && CheckAgainst(w3, p, w0.tokens[p]).Valid?
    ensures SafeAfter(w3.log, Commit(p, Lookup(w3, p), after, Some(w0.tokens[p]), Some(w2.files[p].content), basis))
  {
    hide SafeLog, LastRecorded, SafeCommit, Evolves, BasisHolds, Replay;
    ValidatedTwice(w0, w2, w3, p, after, basis);
    SoundIsDated(w3, p);
  }

  lemma {:induction false} ThreeGaps(w0: World, e: Env) returns (w1: World, w2: World, w3: World)
    requires Sound(w0)
    ensures w1 == External(w0, e.beforeCheck) && w2 == External(w1, e.beforeBackup)
            && w3 == External(w2, e.beforeCommit)
    ensures SafeStep(w0, w1) && SafeStep(w0, w2) && SafeStep(w2, w3) && SafeStep(w0, w3)
    ensures w1.tokens == w0.tokens && w2.tokens == w0.tokens && w3.tokens == w0.tokens
  {
    hide SafeStep, External, Sound;
    w1, w2 := External(w0, e.beforeCheck), External(External(w0, e.beforeCheck), e.beforeBackup);
    w3 := External(w2, e.beforeCommit);
    ExternalIsSafe(w0, e.beforeCheck);
    StepIsSound(w0, w1);
    ExternalIsSafe(w1, e.beforeBackup);
    StepIsSound(w1, w2);
    ExternalIsSafe(w2, e.beforeCommit);
    SafeStepTransitive(w0, w1, w2);
    SafeStepTransitive(w0, w2, w3);
  }

  lemma {:induction false} RefusedIsSafe(w: World, p: Path, madeDirs: bool)
    requires Sound(w)
    ensures SafeStep(w, RefusedWorld(w, p, madeDirs))
  {
    hide SafeLog, LastRecorded, Replay;
  }

  lemma {:induction false} ReplaceIsSafe(w0: World, p: Path, content: string, mode: nat, e: Env, basis: Option<string>)
    requires Sound(w0) && BasisHolds(w0, p, basis)
    ensures SafeStep(w0, Replace(w0, p, content, mode, e, basis).world)
  {
    hide SafeStep, External, Land, RefusedWorld, Sound, Evolves, BasisHolds, SafeAfter;
    var w1, w2, w3 := ThreeGaps(w0, e);
    StepIsSound(w0, w2);
    StepIsSound(w2, w3);
    RefusedIsSafe(w3, p, e.io.Refused? && e.io.madeDirs);
    SafeStepTransitive(w0, w3, RefusedWorld(w3, p, e.io.Refused? && e.io.madeDirs));
    if p in w0.tokens && p in w2.files && CheckAgainst(w3, p, w0.tokens[p]).Valid? {
      var token, backup := Some(w0.tokens[p]), Some(w2.files[p].content);
      AuthorisedCommit(w0, w2, w3, p, Some(File(content, mode, w3.clock)), basis);
      LandIsSafe(w3, p, content, mode, e, token, backup, basis);
      SafeStepTransitive(w0, w3, Land(w3, p, content, mode, e, token, backup, basis).world);
    }
  }

  lemma {:induction false} FreshCommit(w: World, p: Path, after: Option<File>)
    requires Sound(w) && p !in w.files
    ensures SafeAfter(w.log, Commit(p, Lookup(w, p), after, None, None, None))
  {
    hide SafeLog, LastRecorded, Replay;
  }

  lemma {:induction false} CreateNewIsSafe(w0: World, p: Path, content: string, mode: nat, e: Env)
    requires Sound(w0)
    ensures SafeStep(w0, CreateNew(w0, p, content, mode, e).world)
  {
    hide SafeStep, External, Land, RefusedWorld, Sound, BelowFile;
    var w := External(w0, e.beforeCommit);
    NothingIsSafe(w0);
    ExternalIsSafe(w0, e.beforeCommit);
    StepIsSound(w0, w);
    RefusedIsSafe(w, p, e.io.Refused? && e.io.madeDirs);
    SafeStepTransitive(w0, w, RefusedWorld(w, p, e.io.Refused? && e.io.madeDirs));
    if p !in w.files {
      FreshCommit(w, p, Some(File(content, mode, w.clock)));
      LandIsSafe(w, p, content, mode, e, None, None, None);
      SafeStepTransitive(w0, w, Land(w, p, content, mode, e, None, None, None).world);
    }
  }

  // ----- The operations -----

  lemma {:induction false} WriteResolvedIsSafe(w: World, p: Path, r: WriteRequest, e: Env, basis: Option<string>)
    requires Sound(w) && BasisHolds(w, p, basis)
    ensures SafeStep(w, WriteResolved(w, p, r, e, basis).world)
  {
    hide Replace, CreateNew, WriteMode, SafeStep, BasisHolds, Sound;
    NothingIsSafe(w);
    ReplaceIsSafe(w, p, r.content, WriteMode(r.mode, Lookup(w, p)), e, basis);
    CreateNewIsSafe(w, p, r.content, WriteMode(r.mode, Lookup(w, p)), e);
  }

  /** A managed write, whatever other writers do between its steps. */
  lemma {:induction false} WriteIsSafe(w: World, names: Names, r: WriteRequest, e: Env, basis: Option<string>)
    requires Sound(w)
    requires r.name in names ==> BasisHolds(w, names[r.name], basis)
    ensures SafeStep(w, Write(w, names, r, e, basis).world)
  {
    hide WriteResolved, External, SafeStep, BasisHolds, Sound;
    NothingIsSafe(w);
    if r.name in names {
      var w', p := External(w, e.beforeStat), names[r.name];
      ExternalIsSafe(w, e.beforeStat);
      StepIsSound(w, w');
      BasisStays(w, w', p, basis);
      WriteResolvedIsSafe(w', p, r, e, basis);
      SafeStepTransitive(w, w', WriteResolved(w', p, r, e, basis).world);
    }
  }

  lemma {:induction false} UnlinkIsSafe(w: World, p: Path, e: Env, token: Token, backup: string, basis: Option<string>)
    requires Sound(w) && p in w.files
    requires SafeAfter(w.log, Commit(p, Lookup(w, p), None, Some(token), Some(backup), basis))
    ensures SafeStep(w, Unlink(w, p, e, token, backup, basis).world)
  {
    hide SafeStep, Sound, SafeAfter;
    var entry := Commit(p, Lookup(w, p), None, Some(token), Some(backup), basis);
    var removed := Logged(RemoveFile(w, p), entry);
    RemoveIsSafe(w, p, entry);
    StepIsSound(w, removed);
    ForgetIsSafe(removed, p);
    SafeStepTransitive(w, removed, Forget(removed, p));
  }

  lemma {:induction false} DeleteResolvedIsSafe(w0: World, p: Path, e: Env, basis: Option<string>)
    requires Sound(w0) && BasisHolds(w0, p, basis)
    ensures SafeStep(w0, DeleteResolved(w0, p, e, basis).world)
  {
    hide SafeStep, External, Unlink, Sound, Evolves, BasisHolds, SafeAfter;
    NothingIsSafe(w0);
    var w1, w2, w3 := ThreeGaps(w0, e);
    StepIsSound(w0, w2);
    StepIsSound(w2, w3);
    if p in w0.tokens && p in w2.files && CheckAgainst(w3, p, w0.tokens[p]).Valid? {
      var token, backup := w0.tokens[p], w2.files[p].content;
      AuthorisedCommit(w0, w2, w3, p, None, basis);
      UnlinkIsSafe(w3, p, e, token, backup, basis);
      SafeStepTransitive(w0, w3, Unlink(w3, p, e, token, backup, basis).world);
    }
  }

  /** A managed delete, whatever other writers do between its steps. */
  lemma {:induction false} DeleteIsSafe(w: World, names: Names, name: string, e: Env, basis: Option<string>)
    requires Sound(w)
    requires name in names ==> BasisHolds(w, names[name], basis)
    ensures SafeStep(w, Delete(w, names, name, e, basis).world)
  {
    hide DeleteResolved, External, SafeStep, BasisHolds, Sound;
    NothingIsSafe(w);
    if name in names {
      var w', p := External(w, e.beforeStat), names[name];
      ExternalIsSafe(w, e.beforeStat);
      StepIsSound(w, w');
      BasisStays(w, w', p, basis);
      DeleteResolvedIsSafe(w', p, e, basis);
      SafeStepTransitive(w, w', DeleteResolved(w', p, e, basis).world);
    }
  }

  /** A managed read, with or without a token. */
  lemma {:induction false} ReadIsSafe(w0: World, names: Names, name: string, policy: Policy, beforeRead: Change,
                                      issueToken: bool)
    requires Sound(w0)
    ensures SafeStep(w0, Read(w0, names, name, policy, beforeRead, issueToken).world)
  {
    hide SafeStep, External, Sound;
    NothingIsSafe(w0);
    if name in names {
      var w, p := External(w0, beforeRead), names[name];
      ExternalIsSafe(w0, beforeRead);
      StepIsSound(w0, w);
      if p in w.files {
        SoundIsDated(w, p);
        RecordIsSafe(w, p, TokenOf(w.files[p]));
        SafeStepTransitive(w0, w, Record(w, p, TokenOf(w.files[p])));
      }
    }
  }
}
