/** Targeted edits: a single edit, and edits grouped by resolved file with rollback of the whole request. */
module Edits {
  import opened Wrappers
  import W = Workspace
  import opened Restores
  import opened ExactEdit

  // ----- One edit -----

  /** What reading an edit target meets. */
  datatype PrepareEnv = PrepareEnv(beforeStat: W.Change, beforeCheck: W.Change, beforeRead: W.Change)

  datatype Prepared = Ready(path: W.Path, content: string) | Unready(status: EditStatus) | PrepareError

  datatype PrepareStep = PrepareStep(prepared: Prepared, world: W.World)

  /** Resolves an edit target, validates its read token and loads its content. */
  function PrepareEdit(w: W.World, names: W.Names, name: string, e: PrepareEnv): PrepareStep {
    if name !in names then PrepareStep(Unready(UnsafePath), w)
    else
      var p := names[name];
      var w0 := W.External(w, e.beforeStat);
      if p in w0.dirs then PrepareStep(Unready(IsDirectory), w0)
      else if p !in w0.files then PrepareStep(Unready(NotFound), w0)
      else
        var w1 := W.External(w0, e.beforeCheck);
        match W.ValidateCurrent(w1, p)
        case NoToken => PrepareStep(Unready(MissingReadToken), w1)
        case Vanished => PrepareStep(PrepareError, w1)
        case Mismatch => PrepareStep(Unready(StaleReadToken), w1)
        case Valid(_) =>
          var w2 := W.External(w1, e.beforeRead);
          if p !in w2.files then PrepareStep(PrepareError, w2) else PrepareStep(Ready(p, w2.files[p].content), w2)
  }

  datatype EditReply = EditReply(status: EditStatus, uncertain: bool) | EditError

  datatype EditStep = EditStep(reply: EditReply, world: W.World)

  /** Commits an edited content through the managed overwrite. */
  function CommitEdit(w: W.World, names: W.Names, name: string, content: string, basis: string, e: W.Env): EditStep {
    var step := W.Write(w, names, W.WriteRequest(name, content, W.Overwrite, 0), e, Some(basis));
    if step.reply.Errored? then EditStep(EditError, step.world)
    else if step.reply.status != W.Overwritten then
      EditStep(EditReply(MutationRejected, step.reply.status == W.CommitUncertain), step.world)
    else EditStep(EditReply(Changed, false), step.world)
  }

  function Edit(w: W.World, names: W.Names, r: EditRequest, prepare: PrepareEnv, e: W.Env): EditStep {
    var ready := PrepareEdit(w, names, r.name, prepare);
    match ready.prepared
    case PrepareError => EditStep(EditError, ready.world)
    case Unready(status) => EditStep(EditReply(status, false), ready.world)
    case Ready(_, content) =>
      var result := ApplyExactEdit(content, r);
      if result.status != Changed then EditStep(EditReply(result.status, false), ready.world)
      else CommitEdit(ready.world, names, r.name, result.content, content, e)
  }

  // ----- Grouping -----

  datatype Group = Group(path: W.Path, name: string, edits: seq<EditRequest>)

  /** Position of the group of a path. */
  function GroupIndex(groups: seq<Group>, p: W.Path): (r: Option<nat>)
    ensures r.Some? ==> r.value < |groups| && groups[r.value].path == p
    ensures r.None? ==> forall i :: 0 <= i < |groups| ==> groups[i].path != p
  {
    if groups == [] then None
    else if groups[0].path == p then Some(0)
    else match GroupIndex(groups[1..], p)
      case None =>
        assert forall i :: 1 <= i < |groups| ==> groups[i] == groups[1..][i - 1];
        None
      case Some(i) => Some(i + 1)
  }

  /** Appends an edit to the group of its file, opening the group if it is the first. */
  function AddToGroup(groups: seq<Group>, p: W.Path, r: EditRequest): seq<Group> {
    match GroupIndex(groups, p)
    case None => groups + [Group(p, r.name, [r])]
    case Some(i) => groups[i := groups[i].(edits := groups[i].edits + [r])]
  }

  datatype Grouping = Grouping(failed: bool, groups: seq<Group>) | GroupError

  datatype GroupStep = GroupStep(grouping: Grouping, world: W.World)

  function GroupEdits(w: W.World, names: W.Names, edits: seq<EditRequest>, env: nat -> PrepareEnv, done: nat,
                      g: Grouping): GroupStep
    requires done <= |edits| && g.Grouping?
    decreases |edits| - done
  {
    if done == |edits| then GroupStep(g, w)
    else
      var r := edits[done];
      var ready := PrepareEdit(w, names, r.name, env(done));
      match ready.prepared
      case PrepareError => GroupStep(GroupError, ready.world)
      case Unready(_) => GroupEdits(ready.world, names, edits, env, done + 1, g.(failed := true))
      case Ready(p, _) => GroupEdits(ready.world, names, edits, env, done + 1, g.(groups := AddToGroup(g.groups, p, r)))
  }

  // ----- Applying groups -----

  /** The edits of one group, applied in order to one content. */
  function ApplyEdits(content: string, edits: seq<EditRequest>): ExactResult
    decreases |edits|
  {
    if edits == [] then ExactResult(Unchanged, content, 0)
    else
      var first := ApplyExactEdit(content, edits[0]);
      if !first.Ok() then first
      else
        var rest := ApplyEdits(first.content, edits[1..]);
        if rest.Ok() then ExactResult(rest.status, rest.content, first.replacements + rest.replacements) else rest
  }

  function ApplyGroup(w: W.World, names: W.Names, group: Group, prepare: PrepareEnv, e: W.Env): EditStep {
    var ready := PrepareEdit(w, names, group.name, prepare);
    match ready.prepared
    case PrepareError => EditStep(EditError, ready.world)
    case Unready(status) => EditStep(EditReply(status, false), ready.world)
    case Ready(_, content) =>
      var result := ApplyEdits(content, group.edits);
      if !result.Ok() then EditStep(EditReply(result.status, false), ready.world)
      else if result.content == content then EditStep(EditReply(Unchanged, false), ready.world)
      else CommitEdit(ready.world, names, group.name, result.content, content, e)
  }

  /** What a whole multi-edit meets. */
  datatype MultiEnv = MultiEnv(group: nat -> PrepareEnv, beforeSnapshot: W.Change, prepare: nat -> PrepareEnv,
                               commit: nat -> W.Env, restore: nat -> RestoreIo)

  predicate FileOk(reply: EditReply) {
    reply.EditReply? && (reply.status == Changed || reply.status == Unchanged)
  }

  predicate FileCommitted(reply: EditReply) {
    reply.EditReply? && (reply.status == Changed || reply.uncertain)
  }

  datatype MultiRun = MultiRun(ok: bool, flags: seq<bool>, world: W.World)

  /** Applies the groups from the first unflagged one on; stops at the first that fails. */
  function ApplyGroups(w: W.World, names: W.Names, groups: seq<Group>, env: MultiEnv, flags: seq<bool>): (r: MultiRun)
    requires |flags| <= |groups|
    ensures |r.flags| <= |groups|
    decreases |groups| - |flags|
  {
    if |flags| == |groups| then MultiRun(true, flags, w)
    else
      var i := |flags|;
      var step := ApplyGroup(w, names, groups[i], env.prepare(i), env.commit(i));
      var flags' := flags + [FileCommitted(step.reply)];
      if FileOk(step.reply) then ApplyGroups(step.world, names, groups, env, flags')
      else MultiRun(false, flags', step.world)
  }

  // ----- Rollback -----

  function CaptureAll(w: W.World, groups: seq<Group>): Option<seq<W.File>>
    decreases |groups|
  {
    if groups == [] then Some([])
    else match CaptureAll(w, groups[..|groups| - 1])
      case None => None
      case Some(done) =>
        var p := groups[|groups| - 1].path;
        if p in w.files then Some(done + [w.files[p]]) else None
  }

  lemma {:induction false} CaptureCount(w: W.World, groups: seq<Group>)
    ensures CaptureAll(w, groups).Some? ==> |CaptureAll(w, groups).value| == |groups|
    decreases |groups|
  {
    if groups != [] {
      CaptureCount(w, groups[..|groups| - 1]);
    }
  }

  /** Restores the committed groups below `i`, last first; a restore that fails does not stop the others. */
  function RollbackGroups(w: W.World, groups: seq<Group>, saved: seq<W.File>, flags: seq<bool>, i: nat,
                          env: nat -> RestoreIo): RestoreStep
    requires i <= |flags| <= |groups| && |saved| == |groups|
    decreases i
  {
    if i == 0 then RestoreStep(true, w)
    else if !flags[i - 1] then RollbackGroups(w, groups, saved, flags, i - 1, env)
    else
      var step := RestoreFile(w, groups[i - 1].path, saved[i - 1].content, saved[i - 1].mode, env(i - 1));
      var rest := RollbackGroups(step.world, groups, saved, flags, i - 1, env);
      RestoreStep(step.ok && rest.ok, rest.world)
  }

  datatype MultiReply =
    | MultiError
    | MultiRefused
    | MultiApplied
    | MultiFailed(rollbackAttempted: bool, rollbackSucceeded: bool)

  datatype MultiStep = MultiStep(reply: MultiReply, world: W.World)

  function RunGroups(w: W.World, names: W.Names, groups: seq<Group>, saved: seq<W.File>, env: MultiEnv): MultiStep
    requires |saved| == |groups|
  {
    var run := ApplyGroups(w, names, groups, env, []);
    if run.ok then MultiStep(MultiApplied, run.world)
    else if true !in run.flags then MultiStep(MultiFailed(false, false), run.world)
    else
      var back := RollbackGroups(run.world, groups, saved, run.flags, |run.flags|, env.restore);
      MultiStep(MultiFailed(true, back.ok), back.world)
  }

  function MultiEdit(w: W.World, names: W.Names, edits: seq<EditRequest>, env: MultiEnv): MultiStep {
    var grouped := GroupEdits(w, names, edits, env.group, 0, Grouping(false, []));
    match grouped.grouping
    case GroupError => MultiStep(MultiError, grouped.world)
    case Grouping(failed, groups) =>
      if failed then MultiStep(MultiRefused, grouped.world)
      else
        var w' := W.External(grouped.world, env.beforeSnapshot);
        match CaptureAll(w', groups)
        case None => MultiStep(MultiError, w')
        case Some(saved) =>
          CaptureCount(w', groups);
          RunGroups(w', names, groups, saved, env)
  }
}
