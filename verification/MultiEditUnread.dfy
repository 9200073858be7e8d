/** Where the atomicity of a multi-edit ends: a file that landed but could not be read back for its token. */
module MultiEditUnread {
  import opened Wrappers
  import W = Workspace
  import opened Restores
  import opened ExactEdit
  import opened Edits
  import opened MultiEditFold
  import opened MultiEditOutcome
  import A = AllOrNothing
  import P = PatchTransaction
  import R = RereadFailure

  ghost predicate QuietGapsMulti(env: MultiEnv) {
    && (forall i :: env.group(i) == QUIET && env.prepare(i) == QUIET && A.QuietGaps(env.commit(i)))
    && env.beforeSnapshot == W.Nothing
  }

  /** The same request with re-reads that work. */
  function RereadableMulti(env: MultiEnv): MultiEnv {
    env.(commit := R.RereadableRun(env.commit))
  }

  /** A group whose file would have been changed, had it been read back. */
  predicate GroupLandsUnread(w: W.World, names: W.Names, g: Group, e: W.Env) {
    e.io.RereadFails? && ApplyGroup(w, names, g, QUIET, R.Rereadable(e)).reply == EditReply(Changed, false)
  }

  /** The group at which the run stops lands unread. */
  predicate StopsUnread(w: W.World, names: W.Names, groups: seq<Group>, env: MultiEnv, flags: seq<bool>)
    requires |flags| <= |groups|
    decreases |groups| - |flags|
  {
    if |flags| == |groups| then false
    else
      var i := |flags|;
      var step := ApplyGroup(w, names, groups[i], env.prepare(i), env.commit(i));
      if FileOk(step.reply) then StopsUnread(step.world, names, groups, env, flags + [FileCommitted(step.reply)])
      else GroupLandsUnread(w, names, groups[i], env.commit(i))
  }

  // ----- One group -----

  /** The overwrite of an edit, as a modify of a patch. */
  function AsModify(names: W.Names, name: string, content: string, basis: string): P.PlanFile
    requires name in names
  {
    P.PlanFile(P.OpModify, name, names[name], content, 0, Some(basis))
  }

  lemma {:induction false} EditIsCommit(w: W.World, names: W.Names, name: string, content: string, basis: string,
                                        e: W.Env)
    requires name in names
    ensures
      var step := CommitEdit(w, names, name, content, basis, e);
      var c := P.CommitFile(w, names, AsModify(names, name, content, basis), e);
      && step.world == c.world && (FileOk(step.reply) <==> c.ok) && (FileCommitted(step.reply) <==> c.committed)
      && (c.ok <==> step.reply == EditReply(Changed, false))
  {
    hide W.Write;
  }

  /** What a group does, by what its edits make of the content. */
  lemma {:induction false} GroupCases(w: W.World, names: W.Names, g: Group, e: W.Env)
    requires Editable(w, names, g.name) && names[g.name] == g.path
    ensures
      var content := w.files[g.path].content;
      var result, step := ApplyEdits(content, g.edits), ApplyGroup(w, names, g, QUIET, e);
      if result.Ok() && result.content != content then
        step == CommitEdit(w, names, g.name, result.content, content, e)
      else
        step.world == w && step.reply.EditReply? && !step.reply.uncertain && step.reply.status != Changed
        && (FileOk(step.reply) <==> result.Ok())
  {
    hide PrepareEdit, CommitEdit, ApplyEdits, Editable;
    NameOfEditable(w, names, g.name);
    QuietPrepare(w, names, g.name);
    EditsEnd(w.files[g.path].content, g.edits);
  }

  lemma {:induction false} EditsEnd(content: string, edits: seq<EditRequest>)
    ensures ApplyEdits(content, edits).status == Changed ==> ApplyEdits(content, edits).Ok()
  {
  }

  /** What the loop over the groups sees of a group. */
  ghost predicate SameForLoop(a: EditStep, b: EditStep) {
    a.world == b.world && (FileOk(a.reply) <==> FileOk(b.reply)) && (FileCommitted(a.reply) <==> FileCommitted(b.reply))
  }

  /** Unless the file landed unread, a failing re-read makes no difference. */
  lemma {:induction false} RereadMatters(w: W.World, names: W.Names, g: Group, e: W.Env)
    requires Editable(w, names, g.name) && names[g.name] == g.path && A.QuietGaps(e)
    requires !GroupLandsUnread(w, names, g, e)
    ensures SameForLoop(ApplyGroup(w, names, g, QUIET, e), ApplyGroup(w, names, g, QUIET, R.Rereadable(e)))
  {
    hide ApplyGroup, CommitEdit, P.CommitFile, ApplyEdits, Editable, A.QuietGaps;
    NameOfEditable(w, names, g.name);
    var content := w.files[g.path].content;
    var updated := ApplyEdits(content, g.edits).content;
    GroupCases(w, names, g, e);
    GroupCases(w, names, g, R.Rereadable(e));
    EditIsCommit(w, names, g.name, updated, content, e);
    EditIsCommit(w, names, g.name, updated, content, R.Rereadable(e));
    var f := AsModify(names, g.name, updated, content);
    if !R.LandsUnread(w, names, f, e) {
      R.RereadMattersOnlyOnLanding(w, names, f, e);
    }
  }

  lemma {:induction false} NameOfEditable(w: W.World, names: W.Names, name: string)
    requires Editable(w, names, name)
    ensures name in names && names[name] in w.files && W.HasValidToken(w, names[name])
  {
  }

  /** A file that landed unread holds its edited content under a token that is not valid any more. */
  lemma {:induction false} GroupLanded(w: W.World, names: W.Names, g: Group, e: W.Env)
    requires Editable(w, names, g.name) && names[g.name] == g.path && A.QuietGaps(e) && W.Dated(w)
    requires GroupLandsUnread(w, names, g, e)
    ensures
      var step := ApplyGroup(w, names, g, QUIET, e);
      && !FileOk(step.reply) && !FileCommitted(step.reply)
      && g.path in step.world.files && !W.HasValidToken(step.world, g.path)
      && step.world.files[g.path].content == ApplyEdits(w.files[g.path].content, g.edits).content
  {
    hide ApplyGroup, CommitEdit, P.CommitFile, ApplyEdits, Editable, A.QuietGaps, W.WriteMode;
    NameOfEditable(w, names, g.name);
    var content := w.files[g.path].content;
    var updated := ApplyEdits(content, g.edits).content;
    GroupCases(w, names, g, e);
    GroupCases(w, names, g, R.Rereadable(e));
    EditIsCommit(w, names, g.name, updated, content, e);
    EditIsCommit(w, names, g.name, updated, content, R.Rereadable(e));
    var f := AsModify(names, g.name, updated, content);
    R.LandedUnread(w, names, f, e);
  }

  lemma {:induction false} GroupKeepsDated(w: W.World, names: W.Names, g: Group, e: W.Env)
    requires Editable(w, names, g.name) && names[g.name] == g.path && A.QuietGaps(e) && W.Dated(w)
    ensures W.Dated(ApplyGroup(w, names, g, QUIET, e).world)
  {
    hide ApplyGroup, CommitEdit, P.CommitFile, ApplyEdits, Editable, A.QuietGaps, W.Dated;
    NameOfEditable(w, names, g.name);
    var content := w.files[g.path].content;
    var updated := ApplyEdits(content, g.edits).content;
    GroupCases(w, names, g, e);
    EditIsCommit(w, names, g.name, updated, content, e);
    R.CommitKeepsDated(w, names, AsModify(names, g.name, updated, content), e);
  }

  // ----- The groups -----

  ghost predicate Stopped(w0: W.World, groups: seq<Group>, run: MultiRun)
    requires |run.flags| <= |groups|
  {
    && !run.ok && run.flags != [] && !run.flags[|run.flags| - 1]
    && var g := groups[|run.flags| - 1];
       g.path in w0.files && g.path in run.world.files && W.HasValidToken(w0, g.path)
       && !W.HasValidToken(run.world, g.path)
       && run.world.files[g.path].content == ApplyEdits(w0.files[g.path].content, g.edits).content
  }

  /** A run either is that of re-reads that work, or stops at a file that landed unread. */
  lemma {:induction false} GroupsEitherWay(w0: W.World, w: W.World, names: W.Names, groups: seq<Group>,
                                           edits: seq<EditRequest>, env: MultiEnv, flags: seq<bool>)
    requires |flags| <= |groups| && QuietGapsMulti(env) && W.Dated(w)
    requires Grouped(w0, names, groups, edits) && GroupsDone(w0, w, groups, flags)
    ensures
      var run := ApplyGroups(w, names, groups, env, flags);
      if StopsUnread(w, names, groups, env, flags) then Stopped(w0, groups, run)
      else ApplyGroups(w, names, groups, RereadableMulti(env), flags) == run
    decreases |groups| - |flags|
  {
    hide ApplyGroup, ApplyEdits, GroupsDone, FileOk, FileCommitted, W.Dated, A.QuietGaps, Editable, W.HasValidToken,
         GroupLandsUnread, Grouped;
    if |flags| < |groups| {
      var i, g := |flags|, groups[|flags|];
      var e := env.commit(i);
      var step := ApplyGroup(w, names, g, env.prepare(i), e);
      NextIsEditable(w0, w, names, groups, edits, flags);
      NameOfEditable(w, names, g.name);
      if GroupLandsUnread(w, names, g, e) {
        GroupLanded(w, names, g, e);
        ValidThen(w0, w, g.path);
      } else {
        RereadMatters(w, names, g, e);
        if FileOk(step.reply) {
          GroupGoesOn(w0, w, names, groups, edits, e, flags);
          GroupsEitherWay(w0, step.world, names, groups, edits, env, flags + [FileCommitted(step.reply)]);
        }
      }
    }
  }

  lemma {:induction false} ValidThen(w0: W.World, w: W.World, p: W.Path)
    requires A.AsBefore(w0, w, p) && W.HasValidToken(w, p)
    ensures W.HasValidToken(w0, p)
  {
  }

  lemma {:induction false} GroupGoesOn(w0: W.World, w: W.World, names: W.Names, groups: seq<Group>,
                                       edits: seq<EditRequest>, e: W.Env, flags: seq<bool>)
    requires |flags| < |groups| && A.QuietGaps(e) && W.Dated(w)
    requires Grouped(w0, names, groups, edits) && GroupsDone(w0, w, groups, flags)
    requires !GroupLandsUnread(w, names, groups[|flags|], e)
    requires FileOk(ApplyGroup(w, names, groups[|flags|], QUIET, e).reply)
    ensures
      var step := ApplyGroup(w, names, groups[|flags|], QUIET, e);
      GroupsDone(w0, step.world, groups, flags + [FileCommitted(step.reply)]) && W.Dated(step.world)
  {
    hide ApplyGroup, ApplyEdits, GroupsDone, GroupDone, FileOk, FileCommitted, W.Dated, A.QuietGaps, A.Quiet, Editable,
         GroupLandsUnread, GroupHolds, A.AsBefore, W.IsTree;
    var g := groups[|flags|];
    var step := ApplyGroup(w, names, g, QUIET, e);
    NextIsEditable(w0, w, names, groups, edits, flags);
    RereadMatters(w, names, g, e);
    R.RereadableIsQuiet(e);
    DoneHere(w0, w, step.world, names, g, R.Rereadable(e));
    GroupsStep(w0, w, step.world, groups, flags, FileCommitted(step.reply));
    GroupKeepsDated(w, names, g, e);
  }

  // ----- The rollback leaves the unread file alone -----

  lemma {:induction false} RestoredElsewhere(w: W.World, own: W.Path, content: string, mode: nat, io: RestoreIo,
                                             p: W.Path)
    requires own != p
    ensures R.Untouched(w, RestoreFile(w, own, content, mode, io).world, p)
  {
    hide W.Ancestors;
  }

  lemma {:induction false} RollbackElsewhere(w: W.World, groups: seq<Group>, saved: seq<W.File>, flags: seq<bool>,
                                             i: nat, env: nat -> RestoreIo, p: W.Path)
    requires i <= |flags| <= |groups| && |saved| == |groups|
    requires forall k :: 0 <= k < i && flags[k] ==> groups[k].path != p
    ensures R.Untouched(w, RollbackGroups(w, groups, saved, flags, i, env).world, p)
    decreases i
  {
    hide RestoreFile;
    if i > 0 {
      if flags[i - 1] {
        var step := RestoreFile(w, groups[i - 1].path, saved[i - 1].content, saved[i - 1].mode, env(i - 1));
        RestoredElsewhere(w, groups[i - 1].path, saved[i - 1].content, saved[i - 1].mode, env(i - 1), p);
        RollbackElsewhere(step.world, groups, saved, flags, i - 1, env, p);
      } else {
        RollbackElsewhere(w, groups, saved, flags, i - 1, env, p);
      }
    }
  }

  // ----- The exact condition -----

  /** The groups of the request, in a workspace without other writers. */
  function GroupsOf(w: W.World, names: W.Names, edits: seq<EditRequest>, env: MultiEnv): Grouping {
    GroupEdits(w, names, edits, env.group, 0, Grouping(false, [])).grouping
  }

  /** The request stops at a file that landed unread. */
  predicate EndsUnread(w: W.World, names: W.Names, edits: seq<EditRequest>, env: MultiEnv) {
    var grouping := GroupsOf(w, names, edits, env);
    grouping.Grouping? && !grouping.failed && StopsUnread(w, names, grouping.groups, env, [])
  }

  /** Some file of the request holds its edited content, under a token that is not valid any more. */
  ghost predicate UnreadFileStays(w: W.World, names: W.Names, edits: seq<EditRequest>, w': W.World) {
    exists p :: p in w.files && p in w'.files && W.HasValidToken(w, p) && !W.HasValidToken(w', p)
                && w'.files[p].content == ApplyEdits(w.files[p].content, EditsOf(names, edits, p)).content
  }

  lemma {:induction false} UnreadStays(w: W.World, names: W.Names, groups: seq<Group>, edits: seq<EditRequest>,
                                       saved: seq<W.File>, env: MultiEnv)
    requires W.IsTree(w) && W.Dated(w) && QuietGapsMulti(env) && Grouped(w, names, groups, edits)
    requires |saved| == |groups| && StopsUnread(w, names, groups, env, [])
    ensures
      var step := RunGroups(w, names, groups, saved, env);
      step.reply.MultiFailed? && UnreadFileStays(w, names, edits, step.world)
  {
    hide ApplyGroups, StopsUnread, Grouped, GroupsDone, W.IsTree, W.Dated, QuietGapsMulti, RollbackGroups, ApplyEdits,
         EditsOf, W.HasValidToken;
    NothingApplied(w, groups);
    GroupsEitherWay(w, w, names, groups, edits, env, []);
    var run := ApplyGroups(w, names, groups, env, []);
    var n := |run.flags| - 1;
    var g, after := groups[n], RunGroups(w, names, groups, saved, env).world;
    GroupsApart(w, names, groups, edits, n);
    RollbackElsewhere(run.world, groups, saved, run.flags, |run.flags|, env.restore, g.path);
    R.UntouchedSelf(run.world, g.path);
    StillInvalid(run.world, after, g.path);
  }

  lemma {:induction false} StillInvalid(w: W.World, w': W.World, p: W.Path)
    requires R.Untouched(w, w', p)
    ensures W.HasValidToken(w', p) <==> W.HasValidToken(w, p)
  {
  }

  lemma {:induction false} GroupsApart(w: W.World, names: W.Names, groups: seq<Group>, edits: seq<EditRequest>, n: nat)
    requires n < |groups| && Grouped(w, names, groups, edits)
    ensures forall k :: 0 <= k < n ==> groups[k].path != groups[n].path
    ensures groups[n].edits == EditsOf(names, edits, groups[n].path)
  {
    assert GroupHolds(w, names, groups[n], edits);
  }

  /**
   * The exact condition of atomicity. A multi-edit that is not applied, unless its rollback failed, has left
   * everything as it was exactly when it did not stop at a file that landed unread; in that case the file keeps its
   * edited content, whatever the rollback reports. An applied one is the fold of its edits.
   */
  lemma {:induction false} MultiEditAtomicUnlessUnread(w: W.World, names: W.Names, edits: seq<EditRequest>,
                                                       env: MultiEnv)
    requires W.IsTree(w) && W.Dated(w) && QuietGapsMulti(env)
    ensures
      var step, fold := MultiEdit(w, names, edits, env), OneByOne(w, names, edits);
      var unread := EndsUnread(w, names, edits, env);
      && (step.reply.MultiApplied? ==> fold.Some? && A.NothingHappened(fold.value, step.world))
      && (!step.reply.MultiApplied?
          && !(step.reply.MultiFailed? && step.reply.rollbackAttempted && !step.reply.rollbackSucceeded)
          ==> (A.NothingHappened(w, step.world) <==> !unread))
      && (unread ==> step.reply.MultiFailed? && UnreadFileStays(w, names, edits, step.world))
  {
    hide Grouped, MultiEdit, CaptureAll, OneByOne, W.IsTree, W.Dated, A.NothingHappened, StopsUnread, UnreadFileStays,
         QuietMulti, QuietGapsMulti, GroupsOf, ApplyGroups;
    GroupingFacts(w, names, edits, env);
    var grouping := GroupsOf(w, names, edits, env);
    if EndsUnread(w, names, edits, env) {
      var saved := CaptureAll(w, grouping.groups).value;
      RequestRuns(w, names, edits, env);
      UnreadStays(w, names, grouping.groups, edits, saved, env);
      UnreadIsSomething(w, names, edits, MultiEdit(w, names, edits, env).world);
    } else {
      if !grouping.failed {
        NothingApplied(w, grouping.groups);
        GroupsEitherWay(w, w, names, grouping.groups, edits, env, []);
      }
      RereadableIsQuietMulti(env);
      SameRequest(w, names, edits, env);
      MultiEditRefinesFold(w, names, edits, RereadableMulti(env));
    }
  }

  lemma {:induction false} GroupingFacts(w: W.World, names: W.Names, edits: seq<EditRequest>, env: MultiEnv)
    requires QuietGapsMulti(env)
    ensures
      var grouping := GroupsOf(w, names, edits, env);
      && grouping.Grouping? && GroupEdits(w, names, edits, env.group, 0, Grouping(false, [])).world == w
      && (!grouping.failed ==>
            && Grouped(w, names, grouping.groups, edits) && CaptureAll(w, grouping.groups).Some?
            && |CaptureAll(w, grouping.groups).value| == |grouping.groups|)
  {
    hide Grouped, GroupEdits, CaptureAll, AllEditable, QUIET, EachFileOk;
    NothingGrouped(w, names);
    assert edits[..0] == [];
    QuietGrouping(w, names, edits, env.group, 0, Grouping(false, []));
    var grouping := GroupsOf(w, names, edits, env);
    if !grouping.failed {
      GroupsExist(w, names, grouping.groups, edits);
      CaptureWorks(w, grouping.groups);
      CaptureCount(w, grouping.groups);
    }
  }

  /** A request that is not refused is the run of its groups. */
  lemma {:induction false} RequestRuns(w: W.World, names: W.Names, edits: seq<EditRequest>, env: MultiEnv)
    requires QuietGapsMulti(env) && GroupsOf(w, names, edits, env).Grouping? && !GroupsOf(w, names, edits, env).failed
    requires GroupEdits(w, names, edits, env.group, 0, Grouping(false, [])).world == w
    requires
      var groups := GroupsOf(w, names, edits, env).groups;
      CaptureAll(w, groups).Some? && |CaptureAll(w, groups).value| == |groups|
    ensures
      var groups := GroupsOf(w, names, edits, env).groups;
      MultiEdit(w, names, edits, env) == RunGroups(w, names, groups, CaptureAll(w, groups).value, env)
  {
    hide GroupEdits, CaptureAll, RunGroups;
    NothingSelf(w);
  }

  lemma {:induction false} RereadableIsQuietMulti(env: MultiEnv)
    requires QuietGapsMulti(env)
    ensures QuietMulti(RereadableMulti(env))
  {
    hide A.QuietGaps, A.Quiet;
    var env' := RereadableMulti(env);
    forall i: nat ensures env'.group(i) == QUIET && env'.prepare(i) == QUIET && A.Quiet(env'.commit(i)) {
      R.RereadableIsQuiet(env.commit(i));
    }
  }

  lemma {:induction false} SameRequest(w: W.World, names: W.Names, edits: seq<EditRequest>, env: MultiEnv)
    requires QuietGapsMulti(env) && GroupEdits(w, names, edits, env.group, 0, Grouping(false, [])).world == w
    requires
      var grouping := GroupsOf(w, names, edits, env);
      grouping.Grouping? && !grouping.failed ==>
        ApplyGroups(w, names, grouping.groups, RereadableMulti(env), []) ==
        ApplyGroups(w, names, grouping.groups, env, [])
    ensures MultiEdit(w, names, edits, RereadableMulti(env)) == MultiEdit(w, names, edits, env)
  {
    hide GroupEdits, CaptureAll, ApplyGroups, RollbackGroups;
    NothingSelf(w);
  }

  lemma {:induction false} UnreadIsSomething(w: W.World, names: W.Names, edits: seq<EditRequest>, w': W.World)
    requires UnreadFileStays(w, names, edits, w')
    ensures !A.NothingHappened(w, w')
  {
    hide ApplyEdits, EditsOf, W.HasValidToken;
    var p :| p in w.files && p in w'.files && W.HasValidToken(w, p) && !W.HasValidToken(w', p)
             && w'.files[p].content == ApplyEdits(w.files[p].content, EditsOf(names, edits, p)).content;
    assert !A.AsBefore(w, w', p);
  }
}
