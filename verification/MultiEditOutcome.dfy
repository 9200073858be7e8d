/** Every outcome of a multi-edit in a quiet workspace, against the fold that applies its edits one by one. */
module MultiEditOutcome {
  import opened Wrappers
  import W = Workspace
  import opened Restores
  import opened ExactEdit
  import opened Edits
  import opened MultiEditFold
  import A = AllOrNothing

  ghost predicate QuietMulti(env: MultiEnv) {
    && (forall i :: env.group(i) == QUIET && env.prepare(i) == QUIET && A.Quiet(env.commit(i)))
    && env.beforeSnapshot == W.Nothing
  }

  // ----- Grouping -----

  ghost predicate DistinctGroups(groups: seq<Group>) {
    forall i, j :: 0 <= i < j < |groups| ==> groups[i].path != groups[j].path
  }

  /** A group holds exactly the edits of its file, in request order, under a name that resolves to it. */
  ghost predicate GroupHolds(w: W.World, names: W.Names, g: Group, edits: seq<EditRequest>) {
    Editable(w, names, g.name) && names[g.name] == g.path && g.edits == EditsOf(names, edits, g.path)
  }

  ghost predicate NoGroup(groups: seq<Group>, n: nat, p: W.Path)
    requires n <= |groups|
  {
    forall i :: 0 <= i < n ==> groups[i].path != p
  }

  ghost predicate Grouped(w: W.World, names: W.Names, groups: seq<Group>, edits: seq<EditRequest>) {
    && DistinctGroups(groups)
    && (forall i :: 0 <= i < |groups| ==> GroupHolds(w, names, groups[i], edits))
    && (forall p :: NoGroup(groups, |groups|, p) ==> EditsOf(names, edits, p) == [])
  }

  lemma {:induction false} EditsOfAppend(names: W.Names, edits: seq<EditRequest>, r: EditRequest, p: W.Path)
    ensures EditsOf(names, edits + [r], p) ==
            EditsOf(names, edits, p) + if r.name in names && names[r.name] == p then [r] else []
  {
    if edits == [] {
      assert [] + [r] == [r] && [r][1..] == [];
    } else {
      EditsOfAppend(names, edits[1..], r, p);
      assert (edits + [r])[1..] == edits[1..] + [r];
    }
  }

  /** What one more edit `r` for `q` makes of the edits of each file. */
  ghost predicate OneMore(names: W.Names, edits: seq<EditRequest>, edits': seq<EditRequest>, q: W.Path,
                          r: EditRequest) {
    forall p :: EditsOf(names, edits', p) == EditsOf(names, edits, p) + if p == q then [r] else []
  }

  lemma {:induction false} OpenGroup(w: W.World, names: W.Names, groups: seq<Group>, edits: seq<EditRequest>,
                                     edits': seq<EditRequest>, r: EditRequest)
    requires Grouped(w, names, groups, edits) && Editable(w, names, r.name)
    requires OneMore(names, edits, edits', names[r.name], r) && NoGroup(groups, |groups|, names[r.name])
    ensures Grouped(w, names, groups + [Group(names[r.name], r.name, [r])], edits')
  {
    hide EditsOf, W.HasValidToken;
    var q := names[r.name];
    var groups' := groups + [Group(q, r.name, [r])];
    assert [] + [r] == [r];
    forall i | 0 <= i < |groups'| ensures GroupHolds(w, names, groups'[i], edits') {
      if i < |groups| {
        assert groups'[i] == groups[i] && GroupHolds(w, names, groups[i], edits);
        assert groups[i].edits + [] == groups[i].edits;
      }
    }
    forall p | NoGroup(groups', |groups'|, p) ensures EditsOf(names, edits', p) == [] {
      assert groups'[|groups|].path == q;
      assert forall i :: 0 <= i < |groups| ==> groups'[i] == groups[i];
      assert NoGroup(groups, |groups|, p);
    }
  }

  lemma {:induction false} ExtendGroup(w: W.World, names: W.Names, groups: seq<Group>, edits: seq<EditRequest>,
                                       edits': seq<EditRequest>, k: nat, r: EditRequest)
    requires Grouped(w, names, groups, edits) && k < |groups|
    requires OneMore(names, edits, edits', groups[k].path, r)
    ensures Grouped(w, names, groups[k := groups[k].(edits := groups[k].edits + [r])], edits')
  {
    hide EditsOf, Editable;
    var groups' := groups[k := groups[k].(edits := groups[k].edits + [r])];
    forall i | 0 <= i < |groups'| ensures GroupHolds(w, names, groups'[i], edits') {
      assert GroupHolds(w, names, groups[i], edits);
      assert groups[i].edits + [] == groups[i].edits;
    }
    forall p | NoGroup(groups', |groups'|, p) ensures EditsOf(names, edits', p) == [] {
      assert groups'[k].path == groups[k].path;
      assert forall i :: 0 <= i < |groups| ==> groups'[i].path == groups[i].path;
      assert NoGroup(groups, |groups|, p);
    }
  }

  lemma {:induction false} AddKeepsGrouped(w: W.World, names: W.Names, groups: seq<Group>, edits: seq<EditRequest>,
                                           r: EditRequest)
    requires Grouped(w, names, groups, edits) && Editable(w, names, r.name)
    ensures Grouped(w, names, AddToGroup(groups, names[r.name], r), edits + [r])
  {
    hide EditsOf, W.HasValidToken, Grouped;
    var q := names[r.name];
    forall p ensures EditsOf(names, edits + [r], p) == EditsOf(names, edits, p) + if p == q then [r] else [] {
      EditsOfAppend(names, edits, r, p);
    }
    match GroupIndex(groups, q)
    case None => OpenGroup(w, names, groups, edits, edits + [r], r);
    case Some(k) => ExtendGroup(w, names, groups, edits, edits + [r], k, r);
  }

  lemma {:induction false} QuietGrouping(w: W.World, names: W.Names, edits: seq<EditRequest>, env: nat -> PrepareEnv,
                                         done: nat, g: Grouping)
    requires done <= |edits| && g.Grouping? && forall i :: env(i) == QUIET
    requires g.failed <==> !AllEditable(w, names, edits[..done])
    requires !g.failed ==> Grouped(w, names, g.groups, edits[..done])
    ensures
      var step := GroupEdits(w, names, edits, env, done, g);
      && step.world == w && step.grouping.Grouping?
      && (step.grouping.failed <==> !AllEditable(w, names, edits))
      && (!step.grouping.failed ==> Grouped(w, names, step.grouping.groups, edits))
    decreases |edits| - done
  {
    hide PrepareEdit, AddToGroup, Grouped, Editable;
    if done == |edits| {
      assert edits[..done] == edits;
    } else {
      var r := edits[done];
      assert edits[..done + 1] == edits[..done] + [r];
      QuietPrepare(w, names, r.name);
      EditableStep(w, names, edits, done);
      if Editable(w, names, r.name) {
        if !g.failed {
          AddKeepsGrouped(w, names, g.groups, edits[..done], r);
        }
        PreparedPath(w, names, r.name);
        QuietGrouping(w, names, edits, env, done + 1, g.(groups := AddToGroup(g.groups, names[r.name], r)));
      } else {
        QuietGrouping(w, names, edits, env, done + 1, g.(failed := true));
      }
    }
  }

  lemma {:induction false} PreparedPath(w: W.World, names: W.Names, name: string)
    requires Editable(w, names, name)
    ensures name in names
  {
  }

  lemma {:induction false} EditableStep(w: W.World, names: W.Names, edits: seq<EditRequest>, done: nat)
    requires done < |edits|
    ensures AllEditable(w, names, edits[..done + 1]) <==>
            AllEditable(w, names, edits[..done]) && Editable(w, names, edits[done].name)
  {
    hide Editable;
    assert forall i :: 0 <= i < done ==> edits[..done + 1][i] == edits[..done][i];
    assert edits[..done + 1][done] == edits[done];
  }

  // ----- Applying the groups -----

  /** A group has been applied: its file holds the result of its edits. */
  ghost predicate GroupDone(w0: W.World, w: W.World, g: Group) {
    && g.path in w0.files && g.path in w.files
    && ApplyEdits(w0.files[g.path].content, g.edits).Ok()
    && w.files[g.path].content == ApplyEdits(w0.files[g.path].content, g.edits).content
    && w.files[g.path].mode == w0.files[g.path].mode
    && (W.HasValidToken(w, g.path) <==> W.HasValidToken(w0, g.path))
  }

  ghost predicate GroupsDone(w0: W.World, w: W.World, groups: seq<Group>, flags: seq<bool>)
    requires |flags| <= |groups|
  {
    && W.IsTree(w) && w.dirs == w0.dirs
    && (forall p :: NoGroup(groups, |flags|, p) ==> A.AsBefore(w0, w, p))
    && (forall i :: 0 <= i < |flags| ==>
          GroupDone(w0, w, groups[i]) && (!flags[i] ==> A.AsBefore(w0, w, groups[i].path)))
  }

  /** Only the files of flagged groups below `n` may differ from `w0`. */
  ghost predicate OnlyFlagged(w0: W.World, w: W.World, groups: seq<Group>, flags: seq<bool>, n: nat)
    requires n <= |flags| <= |groups|
  {
    && w.dirs == w0.dirs
    && forall p :: (forall i :: 0 <= i < n && groups[i].path == p ==> !flags[i]) ==> A.AsBefore(w0, w, p)
  }

  lemma {:induction false} QuietGroup(w: W.World, names: W.Names, g: Group, e: W.Env)
    requires Editable(w, names, g.name) && names[g.name] == g.path && A.Quiet(e) && W.IsTree(w)
    ensures
      var content := w.files[g.path].content;
      var result, step := ApplyEdits(content, g.edits), ApplyGroup(w, names, g, QUIET, e);
      && (FileOk(step.reply) ==> result.Ok())
      && (FileOk(step.reply) && FileCommitted(step.reply) ==> ContentSet(w, step.world, g.path, result.content))
      && (FileOk(step.reply) && !FileCommitted(step.reply) ==> A.SameState(w, step.world) && result.content == content)
      && (!FileOk(step.reply) && !FileCommitted(step.reply) ==> A.SameState(w, step.world))
      && (!FileOk(step.reply) ==> step.world.dirs == w.dirs && forall q :: q != g.path ==> A.AsBefore(w, step.world, q))
      && (result.Ok() && e == OPEN ==> FileOk(step.reply))
  {
    hide PrepareEdit, CommitEdit, ApplyEdits, W.IsTree, ContentSet;
    QuietPrepare(w, names, g.name);
    var content := w.files[g.path].content;
    QuietCommit(w, names, g.name, ApplyEdits(content, g.edits).content, content, e);
    var step := ApplyGroup(w, names, g, QUIET, e);
    if A.SameState(w, step.world) {
      forall q ensures A.AsBefore(w, step.world, q) {
        SameStateIsBefore(w, step.world, q);
      }
    }
  }

  lemma {:induction false} AsBeforeTransitive(a: W.World, b: W.World, c: W.World, p: W.Path)
    requires A.AsBefore(a, b, p) && A.AsBefore(b, c, p)
    ensures A.AsBefore(a, c, p)
  {
  }

  lemma {:induction false} SameStateIsBefore(w: W.World, w': W.World, p: W.Path)
    requires A.SameState(w, w')
    ensures A.AsBefore(w, w', p)
  {
  }

  lemma {:induction false} DoneElsewhere(w0: W.World, w: W.World, w': W.World, g: Group)
    requires GroupDone(w0, w, g) && A.AsBefore(w, w', g.path)
    ensures GroupDone(w0, w', g)
  {
  }

  lemma {:induction false} DoneHere(w0: W.World, w: W.World, w': W.World, names: W.Names, g: Group, e: W.Env)
    requires Editable(w, names, g.name) && names[g.name] == g.path && A.Quiet(e) && W.IsTree(w)
    requires A.AsBefore(w0, w, g.path)
    requires ApplyGroup(w, names, g, QUIET, e).world == w' && FileOk(ApplyGroup(w, names, g, QUIET, e).reply)
    ensures GroupDone(w0, w', g) && W.IsTree(w') && w'.dirs == w.dirs
    ensures forall q :: q != g.path ==> A.AsBefore(w, w', q)
    ensures !FileCommitted(ApplyGroup(w, names, g, QUIET, e).reply) ==> A.AsBefore(w, w', g.path)
  {
    hide ApplyGroup, ApplyEdits;
    QuietGroup(w, names, g, e);
    if FileCommitted(ApplyGroup(w, names, g, QUIET, e).reply) {
      ContentSetKeeps(w, w', g.path, ApplyEdits(w.files[g.path].content, g.edits).content);
    } else {
      forall q ensures A.AsBefore(w, w', q) {
        SameStateIsBefore(w, w', q);
      }
    }
  }

  /** The next group finds its file as it was before the request. */
  lemma {:induction false} NextIsEditable(w0: W.World, w: W.World, names: W.Names, groups: seq<Group>,
                                          edits: seq<EditRequest>, flags: seq<bool>)
    requires |flags| < |groups| && Grouped(w0, names, groups, edits) && GroupsDone(w0, w, groups, flags)
    ensures
      var g := groups[|flags|];
      && Editable(w, names, g.name) && names[g.name] == g.path && A.AsBefore(w0, w, g.path) && W.IsTree(w)
      && g.path in w0.files && w.files[g.path].content == w0.files[g.path].content
  {
    hide EditsOf, W.IsTree;
    var g := groups[|flags|];
    assert GroupHolds(w0, names, g, edits);
    assert NoGroup(groups, |flags|, g.path);
  }

  lemma {:induction false} GroupsStep(w0: W.World, w: W.World, w': W.World, groups: seq<Group>, flags: seq<bool>,
                                      committed: bool)
    requires |flags| < |groups| && DistinctGroups(groups) && GroupsDone(w0, w, groups, flags)
    requires GroupDone(w0, w', groups[|flags|]) && W.IsTree(w') && w'.dirs == w.dirs
    requires forall q :: q != groups[|flags|].path ==> A.AsBefore(w, w', q)
    requires !committed ==> A.AsBefore(w, w', groups[|flags|].path)
    ensures GroupsDone(w0, w', groups, flags + [committed])
  {
    hide A.AsBefore, GroupDone, W.IsTree;
    var n, flags' := |flags|, flags + [committed];
    forall p | NoGroup(groups, n + 1, p) ensures A.AsBefore(w0, w', p) {
      assert groups[n].path != p;
      assert NoGroup(groups, n, p);
      AsBeforeTransitive(w0, w, w', p);
    }
    forall i | 0 <= i < n + 1
      ensures GroupDone(w0, w', groups[i]) && (!flags'[i] ==> A.AsBefore(w0, w', groups[i].path))
    {
      if i < n {
        DoneElsewhere(w0, w, w', groups[i]);
        if !flags[i] {
          AsBeforeTransitive(w0, w, w', groups[i].path);
        }
      } else {
        assert NoGroup(groups, n, groups[n].path);
        if !committed {
          AsBeforeTransitive(w0, w, w', groups[n].path);
        }
      }
    }
  }

  lemma {:induction false} GroupFailed(w0: W.World, w: W.World, w': W.World, groups: seq<Group>, flags: seq<bool>,
                                       committed: bool)
    requires |flags| < |groups| && DistinctGroups(groups) && GroupsDone(w0, w, groups, flags)
    requires w'.dirs == w.dirs
    requires forall q :: q != groups[|flags|].path ==> A.AsBefore(w, w', q)
    requires !committed ==> A.AsBefore(w, w', groups[|flags|].path)
    ensures OnlyFlagged(w0, w', groups, flags + [committed], |flags| + 1)
  {
    hide A.AsBefore, GroupDone, W.IsTree;
    var n, flags' := |flags|, flags + [committed];
    forall p | forall i :: 0 <= i < n + 1 && groups[i].path == p ==> !flags'[i]
      ensures A.AsBefore(w0, w', p)
    {
      assert A.AsBefore(w0, w, p) by {
        if !NoGroup(groups, n, p) {
          var i :| 0 <= i < n && groups[i].path == p;
          assert flags'[i] == flags[i];
        }
      }
      assert groups[n].path == p ==> !flags'[n];
      AsBeforeTransitive(w0, w, w', p);
    }
  }

  lemma {:induction false} ApplyPhase(w0: W.World, w: W.World, names: W.Names, groups: seq<Group>,
                                      edits: seq<EditRequest>, env: MultiEnv, flags: seq<bool>)
    requires |flags| <= |groups| && QuietMulti(env)
    requires Grouped(w0, names, groups, edits) && GroupsDone(w0, w, groups, flags)
    ensures
      var run := ApplyGroups(w, names, groups, env, flags);
      && (run.ok ==> |run.flags| == |groups| && GroupsDone(w0, run.world, groups, run.flags))
      && (!run.ok ==> OnlyFlagged(w0, run.world, groups, run.flags, |run.flags|))
      && (((forall i :: env.commit(i) == OPEN)
           && (forall i :: 0 <= i < |groups| && groups[i].path in w0.files ==>
                 ApplyEdits(w0.files[groups[i].path].content, groups[i].edits).Ok()))
          ==> run.ok)
    decreases |groups| - |flags|
  {
    hide ApplyGroup, ApplyEdits, GroupsDone, OnlyFlagged, FileOk, FileCommitted, W.IsTree, A.AsBefore, Editable;
    if |flags| < |groups| {
      var i, g := |flags|, groups[|flags|];
      var step := ApplyGroup(w, names, g, env.prepare(i), env.commit(i));
      NextIsEditable(w0, w, names, groups, edits, flags);
      QuietGroupFacts(w, names, g, env.commit(i));
      var committed := FileCommitted(step.reply);
      if FileOk(step.reply) {
        DoneHere(w0, w, step.world, names, g, env.commit(i));
        GroupsStep(w0, w, step.world, groups, flags, committed);
        ApplyPhase(w0, step.world, names, groups, edits, env, flags + [committed]);
      } else {
        GroupFailed(w0, w, step.world, groups, flags, committed);
      }
    }
  }

  lemma {:induction false} QuietGroupFacts(w: W.World, names: W.Names, g: Group, e: W.Env)
    requires Editable(w, names, g.name) && names[g.name] == g.path && A.Quiet(e) && W.IsTree(w)
    ensures
      var step := ApplyGroup(w, names, g, QUIET, e);
      && (!FileOk(step.reply) ==> step.world.dirs == w.dirs && forall q :: q != g.path ==> A.AsBefore(w, step.world, q))
      && (!FileOk(step.reply) && !FileCommitted(step.reply) ==> A.AsBefore(w, step.world, g.path))
      && (ApplyEdits(w.files[g.path].content, g.edits).Ok() && e == OPEN ==> FileOk(step.reply))
  {
    hide ApplyGroup, ApplyEdits;
    QuietGroup(w, names, g, e);
  }

  // ----- Rollback -----

  lemma {:induction false} CaptureGives(w: W.World, groups: seq<Group>)
    requires CaptureAll(w, groups).Some?
    ensures |CaptureAll(w, groups).value| == |groups|
    ensures forall i :: 0 <= i < |groups| ==>
              groups[i].path in w.files && CaptureAll(w, groups).value[i] == w.files[groups[i].path]
    decreases |groups|
  {
    if groups != [] {
      CaptureGives(w, groups[..|groups| - 1]);
      assert forall i :: 0 <= i < |groups| - 1 ==> groups[..|groups| - 1][i] == groups[i];
    }
  }

  lemma {:induction false} CaptureWorks(w: W.World, groups: seq<Group>)
    requires forall i :: 0 <= i < |groups| ==> groups[i].path in w.files
    ensures CaptureAll(w, groups).Some?
    decreases |groups|
  {
    if groups != [] {
      assert forall i :: 0 <= i < |groups| - 1 ==> groups[..|groups| - 1][i] == groups[i];
      CaptureWorks(w, groups[..|groups| - 1]);
    }
  }

  lemma {:induction false} RestoreOne(w0: W.World, w: W.World, groups: seq<Group>, flags: seq<bool>, n: nat,
                                      io: RestoreIo)
    requires 0 < n <= |flags| <= |groups| && OnlyFlagged(w0, w, groups, flags, n)
    requires W.IsTree(w0) && W.HasValidToken(w0, groups[n - 1].path)
    ensures
      var p := groups[n - 1].path;
      var step := RestoreFile(w, p, w0.files[p].content, w0.files[p].mode, io);
      step.ok ==> OnlyFlagged(w0, step.world, groups, flags, n - 1)
  {
    var p := groups[n - 1].path;
    var step := RestoreFile(w, p, w0.files[p].content, w0.files[p].mode, io);
    if step.ok {
      assert step.world.dirs == w.dirs;
      forall q | forall i :: 0 <= i < n - 1 && groups[i].path == q ==> !flags[i]
        ensures A.AsBefore(w0, step.world, q)
      {
        if q != p {
          assert A.AsBefore(w0, w, q);
        }
      }
    }
  }

  /** A rollback that reports success has put every flagged file back. */
  lemma {:induction false} RollbackRestores(w0: W.World, w: W.World, names: W.Names, groups: seq<Group>,
                                            edits: seq<EditRequest>,
                                            saved: seq<W.File>, flags: seq<bool>, n: nat, env: nat -> RestoreIo)
    requires n <= |flags| <= |groups| && OnlyFlagged(w0, w, groups, flags, n)
    requires W.IsTree(w0) && Grouped(w0, names, groups, edits) && CaptureAll(w0, groups) == Some(saved)
             && |saved| == |groups|
    ensures
      var back := RollbackGroups(w, groups, saved, flags, n, env);
      back.ok ==> OnlyFlagged(w0, back.world, groups, flags, 0)
    decreases n
  {
    hide RestoreFile, OnlyFlagged, W.IsTree, CaptureAll;
    if n > 0 {
      assert GroupHolds(w0, names, groups[n - 1], edits);
      CaptureGives(w0, groups);
      if flags[n - 1] {
        var step := RestoreFile(w, groups[n - 1].path, saved[n - 1].content, saved[n - 1].mode, env(n - 1));
        RestoreOne(w0, w, groups, flags, n, env(n - 1));
        if step.ok {
          RollbackRestores(w0, step.world, names, groups, edits, saved, flags, n - 1, env);
        }
      } else {
        SkipUnflagged(w0, w, groups, flags, n);
        RollbackRestores(w0, w, names, groups, edits, saved, flags, n - 1, env);
      }
    }
  }

  lemma {:induction false} SkipUnflagged(w0: W.World, w: W.World, groups: seq<Group>, flags: seq<bool>, n: nat)
    requires 0 < n <= |flags| <= |groups| && OnlyFlagged(w0, w, groups, flags, n) && !flags[n - 1]
    ensures OnlyFlagged(w0, w, groups, flags, n - 1)
  {
    hide A.AsBefore;
  }

  // ----- The request -----

  lemma {:induction false} NoneFlagged(w0: W.World, w: W.World, groups: seq<Group>, flags: seq<bool>, n: nat)
    requires n <= |flags| <= |groups| && OnlyFlagged(w0, w, groups, flags, n) && (n == 0 || true !in flags)
    ensures A.NothingHappened(w0, w)
  {
    hide A.AsBefore;
    forall p ensures A.AsBefore(w0, w, p) {
      assert forall i :: 0 <= i < n && groups[i].path == p ==> !flags[i];
    }
  }

  lemma {:induction false} NothingGrouped(w: W.World, names: W.Names)
    ensures Grouped(w, names, [], []) && AllEditable(w, names, [])
  {
  }

  lemma {:induction false} NothingApplied(w: W.World, groups: seq<Group>)
    requires W.IsTree(w)
    ensures GroupsDone(w, w, groups, [])
  {
  }

  /** All groups applied is every file holding the result of its own edits. */
  lemma {:induction false} AllDoneIsEdited(w0: W.World, w: W.World, names: W.Names, groups: seq<Group>,
                                           edits: seq<EditRequest>, flags: seq<bool>)
    requires |flags| == |groups| && Grouped(w0, names, groups, edits) && GroupsDone(w0, w, groups, flags)
    ensures EachFileOk(w0, names, edits) && EachFileEdited(w0, w, names, edits)
  {
    hide EditsOf, W.IsTree, W.HasValidToken;
    forall p
      ensures p in w.files <==> p in w0.files
      ensures p in w0.files && p in w.files ==>
                && ApplyEdits(w0.files[p].content, EditsOf(names, edits, p)).Ok()
                && w.files[p].content == ApplyEdits(w0.files[p].content, EditsOf(names, edits, p)).content
                && w.files[p].mode == w0.files[p].mode && (W.HasValidToken(w, p) <==> W.HasValidToken(w0, p))
    {
      if NoGroup(groups, |groups|, p) {
        assert A.AsBefore(w0, w, p);
      } else {
        var i :| 0 <= i < |groups| && groups[i].path == p;
        assert GroupDone(w0, w, groups[i]) && GroupHolds(w0, names, groups[i], edits);
      }
    }
    assert w.files.Keys == w0.files.Keys;
  }

  lemma {:induction false} EditedTwice(w0: W.World, w: W.World, w': W.World, names: W.Names, edits: seq<EditRequest>)
    requires EachFileEdited(w0, w, names, edits) && EachFileEdited(w0, w', names, edits)
    ensures A.NothingHappened(w, w')
  {
    hide ApplyEdits, EditsOf;
    forall p ensures A.AsBefore(w, w', p) {
      assert p in w.files <==> p in w0.files;
      assert p in w'.files <==> p in w0.files;
    }
  }

  /**
   * Applied: the fold succeeds, and the files are those of the fold. Any other outcome: nothing has changed, unless a
   * rollback was attempted and reports that it failed. And when the fold succeeds and no commit is refused, the request
   * is applied.
   */
  ghost predicate FoldOrNothing(w: W.World, names: W.Names, edits: seq<EditRequest>, env: MultiEnv, step: MultiStep) {
    var fold := OneByOne(w, names, edits);
    && (step.reply.MultiApplied? ==> fold.Some? && A.NothingHappened(fold.value, step.world))
    && (!step.reply.MultiApplied?
        && !(step.reply.MultiFailed? && step.reply.rollbackAttempted && !step.reply.rollbackSucceeded)
        ==> A.NothingHappened(w, step.world))
    && (fold.Some? && (forall i :: env.commit(i) == OPEN) ==> step.reply.MultiApplied?)
  }

  /** A multi-edit refines the atomic fold. */
  lemma {:induction false} MultiEditRefinesFold(w: W.World, names: W.Names, edits: seq<EditRequest>, env: MultiEnv)
    requires W.IsTree(w) && QuietMulti(env)
    ensures FoldOrNothing(w, names, edits, env, MultiEdit(w, names, edits, env))
  {
    hide Grouped, GroupsDone, OnlyFlagged, ApplyGroups, RollbackGroups, GroupEdits, CaptureAll, OneByOne, W.IsTree,
         A.NothingHappened, ApplyEdits, EditsOf, AllEditable, EachFileOk, EachFileEdited, Editable, QUIET, OPEN;
    NothingGrouped(w, names);
    assert edits[..0] == [];
    QuietGrouping(w, names, edits, env.group, 0, Grouping(false, []));
    FoldIsPerFile(w, names, edits);
    NothingSelf(w);
    var grouped := GroupEdits(w, names, edits, env.group, 0, Grouping(false, []));
    if !grouped.grouping.failed {
      var groups := grouped.grouping.groups;
      GroupsExist(w, names, groups, edits);
      CaptureWorks(w, groups);
      RunOutcome(w, names, groups, edits, env);
    }
  }

  lemma {:induction false} NothingSelf(w: W.World)
    ensures A.NothingHappened(w, w) && W.External(w, W.Nothing) == w
  {
  }

  lemma {:induction false} GroupsExist(w: W.World, names: W.Names, groups: seq<Group>, edits: seq<EditRequest>)
    requires Grouped(w, names, groups, edits)
    ensures forall i :: 0 <= i < |groups| ==> groups[i].path in w.files
    ensures EachFileOk(w, names, edits) ==>
              forall i :: 0 <= i < |groups| && groups[i].path in w.files ==>
                ApplyEdits(w.files[groups[i].path].content, groups[i].edits).Ok()
  {
    hide ApplyEdits, EditsOf;
    forall i | 0 <= i < |groups|
      ensures groups[i].path in w.files && groups[i].edits == EditsOf(names, edits, groups[i].path)
    {
      assert GroupHolds(w, names, groups[i], edits);
    }
  }

  lemma {:induction false} RunOutcome(w: W.World, names: W.Names, groups: seq<Group>, edits: seq<EditRequest>,
                                      env: MultiEnv)
    requires W.IsTree(w) && QuietMulti(env) && Grouped(w, names, groups, edits) && CaptureAll(w, groups).Some?
    requires AllEditable(w, names, edits)
    ensures |CaptureAll(w, groups).value| == |groups|
    ensures
      var step, fold := RunGroups(w, names, groups, CaptureAll(w, groups).value, env), OneByOne(w, names, edits);
      && (step.reply.MultiApplied? || step.reply.MultiFailed?)
      && (step.reply.MultiApplied? ==> fold.Some? && A.NothingHappened(fold.value, step.world))
      && (step.reply.MultiFailed? && (step.reply.rollbackSucceeded || !step.reply.rollbackAttempted) ==>
          A.NothingHappened(w, step.world))
      && (fold.Some? && (forall i :: env.commit(i) == OPEN) ==> step.reply.MultiApplied?)
  {
    hide Grouped, GroupsDone, OnlyFlagged, ApplyGroups, RollbackGroups, CaptureAll, OneByOne, W.IsTree,
         A.NothingHappened, ApplyEdits, EditsOf, AllEditable, EachFileOk, EachFileEdited, QuietMulti;
    CaptureGives(w, groups);
    FoldIsPerFile(w, names, edits);
    GroupsExist(w, names, groups, edits);
    NothingApplied(w, groups);
    ApplyPhase(w, w, names, groups, edits, env, []);
    var run, saved := ApplyGroups(w, names, groups, env, []), CaptureAll(w, groups).value;
    if run.ok {
      AllDoneIsEdited(w, run.world, names, groups, edits, run.flags);
      EditedTwice(w, OneByOne(w, names, edits).value, run.world, names, edits);
    } else {
      RollbackRestores(w, run.world, names, groups, edits, saved, run.flags, |run.flags|, env.restore);
      if true !in run.flags {
        NoneFlagged(w, run.world, groups, run.flags, |run.flags|);
      } else if RollbackGroups(run.world, groups, saved, run.flags, |run.flags|, env.restore).ok {
        NoneFlagged(w, RollbackGroups(run.world, groups, saved, run.flags, |run.flags|, env.restore).world, groups,
                    run.flags, 0);
      }
    }
  }
}
