/** The managed workspace: files, directories, read tokens, external writers, and the commit history. */
module Workspace {
  import opened Wrappers

  /** Path components below the trusted root. */
  type Path = seq<string>

  /** A regular file; every write gives it a version never used before (its inode and modification time). */
  datatype File = File(content: string, mode: nat, version: nat)

  /** What a read token records: the hash of the content, taken as injective, and the version. */
  datatype Token = Token(content: string, version: nat)

  /**
   * The history: committed mutations, with the token that authorised each and the backup taken for it,
   * rollback restores, changes of the token registry, and what other writers left behind.
   */
  datatype Entry =
    | Commit(path: Path, before: Option<File>, after: Option<File>, token: Option<Token>, backup: Option<string>,
             basis: Option<string>)
    | Recorded(path: Path, registered: Option<Token>)
    | Restored(path: Path, after: Option<File>)
    | Foreign(files: map<Path, File>, dirs: set<Path>)

  datatype World = World(
    files: map<Path, File>, dirs: set<Path>, tokens: map<Path, Token>, clock: nat, log: seq<Entry>)

  // ----- External writers -----

  datatype Payload = Payload(content: string, mode: nat)

  /** What other writers did between two steps: new content or removal per path, and the directories now there. */
  datatype Change = Nothing | Change(puts: map<Path, Payload>, removes: set<Path>, dirs: set<Path>)

  function External(w: World, c: Change): World {
    match c
    case Nothing => w
    case Change(puts, removes, dirs) =>
      var kept := map p | p in w.files && p !in puts && p !in removes :: w.files[p];
      var put := map p | p in puts :: File(puts[p].content, puts[p].mode, w.clock);
      w.(files := kept + put, dirs := dirs, clock := w.clock + 1, log := w.log + [Foreign(kept + put, dirs)])
  }

  /** Time only moves forward: a file seen later is the same file, or carries a version that was not yet in use. */
  ghost predicate Evolves(w: World, w': World) {
    && w.clock <= w'.clock
    && forall p :: p in w'.files ==> (p in w.files && w'.files[p] == w.files[p]) || w.clock <= w'.files[p].version
  }

  lemma {:induction false} EvolvesTransitive(a: World, b: World, c: World)
    requires Evolves(a, b) && Evolves(b, c)
    ensures Evolves(a, c)
  {
  }

  /** Versions in use are older than the clock. */
  ghost predicate Dated(w: World) {
    && (forall p :: p in w.files ==> w.files[p].version < w.clock)
    && (forall p :: p in w.tokens ==> w.tokens[p].version < w.clock)
  }

  lemma {:induction false} ExternalEvolves(w: World, c: Change)
    requires Dated(w)
    ensures Evolves(w, External(w, c)) && Dated(External(w, c))
    ensures External(w, c).tokens == w.tokens
  {
  }

  // ----- Tokens -----

  predicate Matches(t: Token, f: File) {
    t.content == f.content && t.version == f.version
  }

  function TokenOf(f: File): Token {
    Token(f.content, f.version)
  }

  predicate HasValidToken(w: World, p: Path) {
    p in w.tokens && p in w.files && Matches(w.tokens[p], w.files[p])
  }

  datatype Check = NoToken | Vanished | Mismatch | Valid(token: Token)

  /** Compares the file now on disk with a registered token. */
  function CheckAgainst(w: World, p: Path, t: Token): Check {
    if p !in w.files then Vanished else if Matches(t, w.files[p]) then Valid(t) else Mismatch
  }

  function ValidateCurrent(w: World, p: Path): Check {
    if p in w.tokens then CheckAgainst(w, p, w.tokens[p]) else NoToken
  }

  /** The file that carries version `v`, if it is still there, has content `c`. */
  ghost predicate Pinned(w: World, p: Path, v: nat, c: string) {
    && v < w.clock
    && (p in w.files && w.files[p].version == v ==> w.files[p].content == c)
  }

  // ----- Directories -----

  function Ancestors(p: Path): set<Path> {
    set i | 0 < i < |p| :: p[..i]
  }

  /** Every file and directory hangs from directories, and no path is both. */
  ghost predicate IsTree(w: World) {
    && (forall p :: p in w.files ==> p != [] && p !in w.dirs && Ancestors(p) <= w.dirs)
    && (forall d :: d in w.dirs ==> d != [] && Ancestors(d) <= w.dirs)
  }

  predicate BelowFile(w: World, p: Path) {
    exists a :: a in Ancestors(p) && a in w.files
  }

  // ----- Requests and replies -----

  /** How request names resolve to paths in the workspace; a name outside the map is unsafe. */
  type Names = map<string, Path>

  datatype WriteOperation = Create | Overwrite | CreateOrOverwrite

  datatype WriteStatus =
    | Created | Overwritten | Denied | UnsafePath | AlreadyExists | NotFound | IsDirectory
    | MissingReadToken | StaleReadToken | SecretRejected | CommitUncertain | Deleted

  /** A structured result, or an error that carries no result. */
  datatype Reply = Reply(status: WriteStatus) | Errored

  datatype Step = Step(reply: Reply, world: World)

  /** What the system does with a commit. An uncertain commit took place but its directory sync failed. */
  datatype Io = Done | Refused(madeDirs: bool) | Uncertain | RereadFails

  datatype Policy = Allow | Deny | PolicyError

  /** Everything one mutation meets: policy, the secret scan, other writers between its steps, and the system. */
  datatype Env = Env(policy: Policy, secretFree: bool, beforeStat: Change, beforeCheck: Change, beforeBackup: Change,
                     backupFails: bool, beforeCommit: Change, io: Io, beforeReread: Change)

  datatype WriteRequest = WriteRequest(name: string, content: string, operation: WriteOperation, mode: nat)

  const DEFAULT_MODE: nat := 420

  function WriteMode(requested: nat, current: Option<File>): nat {
    if requested != 0 then requested else if current.Some? then current.value.mode else DEFAULT_MODE
  }

  function Lookup(w: World, p: Path): Option<File> {
    if p in w.files then Some(w.files[p]) else None
  }

  /** The rename or link itself: the new file gets a fresh version, missing parents appear. */
  function PutFile(w: World, p: Path, content: string, mode: nat): World {
    w.(files := w.files[p := File(content, mode, w.clock)], dirs := w.dirs + Ancestors(p), clock := w.clock + 1)
  }

  function RemoveFile(w: World, p: Path): World {
    w.(files := w.files - {p}, clock := w.clock + 1)
  }

  function Logged(w: World, entry: Entry): World {
    w.(log := w.log + [entry])
  }

  function Record(w: World, p: Path, t: Token): World {
    Logged(w.(tokens := w.tokens[p := t]), Recorded(p, Some(t)))
  }

  function Forget(w: World, p: Path): World {
    Logged(w.(tokens := w.tokens - {p}), Recorded(p, None))
  }

  /** The commit of new content, and the re-read that records the token of the written file. */
  function Land(w: World, p: Path, content: string, mode: nat, e: Env, token: Option<Token>, backup: Option<string>,
                basis: Option<string>): Step
  {
    var put := PutFile(w, p, content, mode);
    var entry := Commit(p, Lookup(w, p), Some(put.files[p]), token, backup, basis);
    var landed := Logged(put, entry);
    if e.io.Uncertain? then Step(Reply(CommitUncertain), landed)
    else
      var seen := External(landed, e.beforeReread);
      if e.io.RereadFails? || p !in seen.files then Step(Errored, seen)
      else
        var status := if token.Some? then Overwritten else Created;
        Step(Reply(status), Record(seen, p, TokenOf(seen.files[p])))
  }

  function RefusedWorld(w: World, p: Path, madeDirs: bool): World {
    if madeDirs then w.(dirs := w.dirs + Ancestors(p)) else w
  }

  /** Overwriting an existing file: validate, back up, validate again, rename. */
  function Replace(w0: World, p: Path, content: string, mode: nat, e: Env, basis: Option<string>): Step {
    var w1 := External(w0, e.beforeCheck);
    match ValidateCurrent(w1, p)
    case NoToken => Step(Reply(MissingReadToken), w1)
    case Vanished => Step(Errored, w1)
    case Mismatch => Step(Reply(StaleReadToken), w1)
    case Valid(token) =>
      if !e.secretFree then Step(Reply(SecretRejected), w1)
      else
        var w2 := External(w1, e.beforeBackup);
        if e.backupFails || p !in w2.files then Step(Errored, w2)
        else
          var w3 := External(w2, e.beforeCommit);
          if e.io.Refused? then Step(Errored, RefusedWorld(w3, p, e.io.madeDirs))
          else match CheckAgainst(w3, p, token)
            case Mismatch => Step(Reply(StaleReadToken), w3)
            case Valid(_) => Land(w3, p, content, mode, e, Some(token), Some(w2.files[p].content), basis)
            case _ => Step(Errored, w3)
  }

  /** Creating a file that was not there: link without replacing. */
  function CreateNew(w0: World, p: Path, content: string, mode: nat, e: Env): Step {
    if !e.secretFree then Step(Reply(SecretRejected), w0)
    else
      var w := External(w0, e.beforeCommit);
      if e.io.Refused? then Step(Errored, RefusedWorld(w, p, e.io.madeDirs))
      else if p in w.files || p in w.dirs then Step(Reply(AlreadyExists), w)
      else if BelowFile(w, p) then Step(Errored, w)
      else Land(w, p, content, mode, e, None, None, None)
  }

  /** A managed create or overwrite, from the status of its target on. */
  function WriteResolved(w: World, p: Path, r: WriteRequest, e: Env, basis: Option<string>): Step {
    if r.operation == Overwrite && p !in w.files && p !in w.dirs then Step(Reply(NotFound), w)
    else if p in w.dirs then Step(Reply(IsDirectory), w)
    else if r.operation == Create && p in w.files then Step(Reply(AlreadyExists), w)
    else match e.policy
      case PolicyError => Step(Errored, w)
      case Deny => Step(Reply(Denied), w)
      case Allow =>
        var mode := WriteMode(r.mode, Lookup(w, p));
        if p in w.files then Replace(w, p, r.content, mode, e, basis) else CreateNew(w, p, r.content, mode, e)
  }

  /** A managed create or overwrite. `basis` is the content the new content was computed from, if any. */
  function Write(w: World, names: Names, r: WriteRequest, e: Env, basis: Option<string>): Step {
    if r.name !in names then Step(Reply(UnsafePath), w)
    else WriteResolved(External(w, e.beforeStat), names[r.name], r, e, basis)
  }

  /** The unlink after the second validation. */
  function Unlink(w: World, p: Path, e: Env, token: Token, backup: string, basis: Option<string>): Step
    requires p in w.files
  {
    var removed := Logged(RemoveFile(w, p), Commit(p, Lookup(w, p), None, Some(token), Some(backup), basis));
    if e.io.Uncertain? then Step(Reply(CommitUncertain), removed)
    else Step(Reply(Deleted), Forget(removed, p))
  }

  /** A managed delete, from the status of its target on. */
  function DeleteResolved(w0: World, p: Path, e: Env, basis: Option<string>): Step {
    if p in w0.dirs then Step(Reply(IsDirectory), w0)
    else if p !in w0.files then Step(Reply(NotFound), w0)
    else match e.policy
      case PolicyError => Step(Errored, w0)
      case Deny => Step(Reply(Denied), w0)
      case Allow =>
        var w1 := External(w0, e.beforeCheck);
        match ValidateCurrent(w1, p)
        case NoToken => Step(Reply(MissingReadToken), w1)
        case Vanished => Step(Errored, w1)
        case Mismatch => Step(Reply(StaleReadToken), w1)
        case Valid(token) =>
          var w2 := External(w1, e.beforeBackup);
          if e.backupFails || p !in w2.files then Step(Errored, w2)
          else
            var w3 := External(w2, e.beforeCommit);
            match CheckAgainst(w3, p, token)
            case Mismatch => Step(Reply(StaleReadToken), w3)
            case Valid(_) =>
              if e.io.Refused? then Step(Errored, w3)
              else Unlink(w3, p, e, token, w2.files[p].content, basis)
            case _ => Step(Errored, w3)
  }

  function Delete(w: World, names: Names, name: string, e: Env, basis: Option<string>): Step {
    if name !in names then Step(Reply(UnsafePath), w)
    else DeleteResolved(External(w, e.beforeStat), names[name], e, basis)
  }

  datatype ReadReply = ReadOk(content: string) | ReadDenied | ReadUnsafe | ReadNotFound | ReadDirectory | ReadErrored

  datatype ReadStep = ReadStep(reply: ReadReply, world: World)

  /** A managed read; only a model-facing read issues a token. */
  function Read(w0: World, names: Names, name: string, policy: Policy, beforeRead: Change, issueToken: bool): ReadStep {
    if name !in names then ReadStep(ReadUnsafe, w0)
    else
      var p := names[name];
      if p in w0.dirs then ReadStep(ReadDirectory, w0)
      else if p !in w0.files then ReadStep(ReadNotFound, w0)
      else match policy
        case PolicyError => ReadStep(ReadErrored, w0)
        case Deny => ReadStep(ReadDenied, w0)
        case Allow =>
          var w := External(w0, beforeRead);
          if p !in w.files then ReadStep(ReadErrored, w)
          else
            ReadStep(ReadOk(w.files[p].content),
                     if issueToken then Record(w, p, TokenOf(w.files[p])) else w)
  }
}
