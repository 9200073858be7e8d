/** A multi-edit refines an atomic fold: applying its edits one by one in request order, or nothing. */
module MultiEditFold {
  import opened Wrappers
  import W = Workspace
  import opened ExactEdit
  import opened Edits
  import A = AllOrNothing

  // ----- Quiet edits -----

  const QUIET: PrepareEnv := PrepareEnv(W.Nothing, W.Nothing, W.Nothing)

  /** An environment that lets every commit through. */
  const OPEN: W.Env := W.Env(W.Allow, true, W.Nothing, W.Nothing, W.Nothing, false, W.Nothing, W.Done, W.Nothing)

  predicate Editable(w: W.World, names: W.Names, name: string) {
    name in names && names[name] !in w.dirs && W.HasValidToken(w, names[name])
  }

  lemma {:induction false} QuietPrepare(w: W.World, names: W.Names, name: string)
    ensures
      var step := PrepareEdit(w, names, name, QUIET);
      && step.world == w
      && (if Editable(w, names, name) then step.prepared == Ready(names[name], w.files[names[name]].content)
          else step.prepared.Unready? && step.prepared.status != Changed && step.prepared.status != Unchanged)
  {
  }

  /** Same files and directories but for the content of `p`, which is now `content`; tokens are as valid as before. */
  ghost predicate ContentSet(w: W.World, w': W.World, p: W.Path, content: string) {
    && p in w.files && p in w'.files && w'.files[p].content == content && w'.files[p].mode == w.files[p].mode
    && (W.HasValidToken(w', p) <==> W.HasValidToken(w, p))
    && (forall q :: q != p ==> A.AsBefore(w, w', q))
    && w'.dirs == w.dirs
  }

  lemma {:induction false} QuietCommit(w: W.World, names: W.Names, name: string, content: string, basis: string,
                                       e: W.Env)
    requires Editable(w, names, name) && A.Quiet(e) && W.IsTree(w)
    ensures
      var p, step := names[name], CommitEdit(w, names, name, content, basis, e);
      match step.reply
      case EditReply(Changed, _) => ContentSet(w, step.world, p, content)
      case EditReply(_, true) => step.world.dirs == w.dirs && forall q :: q != p ==> A.AsBefore(w, step.world, q)
      case _ => A.SameState(w, step.world)
    ensures
      var reply := CommitEdit(w, names, name, content, basis, e).reply;
      && (reply.EditReply? ==> reply.status == Changed || reply.status == MutationRejected)
      && (FileOk(reply) ==> !reply.uncertain)
      && (e == OPEN ==> reply == EditReply(Changed, false))
  {
    hide W.Write, W.BelowFile, W.Ancestors;
    var p, r := names[name], W.WriteRequest(name, content, W.Overwrite, 0);
    A.QuietWrite(w, names, r, e, Some(basis));
    if e == OPEN {
      OpenWrite(w, names, r, Some(basis));
    }
    assert w.dirs + W.Ancestors(p) == w.dirs;
  }

  lemma {:induction false} OpenWrite(w: W.World, names: W.Names, r: W.WriteRequest, basis: Option<string>)
    requires r.name in names && r.operation == W.Overwrite && names[r.name] !in w.dirs
             && W.HasValidToken(w, names[r.name])
    ensures W.Write(w, names, r, OPEN, basis).reply == W.Reply(W.Overwritten)
  {
    hide W.Ancestors;
  }

  // ----- The fold -----

  /**
   * Applies the edits one by one in request order, each as a single edit that nothing refuses; any failure fails the
   * fold.
   */
  function OneByOne(w: W.World, names: W.Names, edits: seq<EditRequest>): Option<W.World>
    decreases |edits|
  {
    if edits == [] then Some(w)
    else
      var step := Edit(w, names, edits[0], QUIET, OPEN);
      if FileOk(step.reply) then OneByOne(step.world, names, edits[1..]) else None
  }

  /** The edits of a request that concern one file, in order. */
  function EditsOf(names: W.Names, edits: seq<EditRequest>, p: W.Path): seq<EditRequest> {
    if edits == [] then []
    else (if edits[0].name in names && names[edits[0].name] == p then [edits[0]] else [])
         + EditsOf(names, edits[1..], p)
  }

  /** Every edit of the request finds its file editable in `w`. */
  ghost predicate AllEditable(w: W.World, names: W.Names, edits: seq<EditRequest>) {
    forall i :: 0 <= i < |edits| ==> Editable(w, names, edits[i].name)
  }

  /** What the edits of each file make of its content in `w`. */
  ghost predicate EachFileOk(w: W.World, names: W.Names, edits: seq<EditRequest>) {
    forall p :: p in w.files ==> ApplyEdits(w.files[p].content, EditsOf(names, edits, p)).Ok()
  }

  /** `w'` is `w` with, in each file, the result of its own edits. */
  ghost predicate EachFileEdited(w: W.World, w': W.World, names: W.Names, edits: seq<EditRequest>) {
    && w'.dirs == w.dirs && w'.files.Keys == w.files.Keys
    && forall p :: p in w.files ==>
         && w'.files[p].content == ApplyEdits(w.files[p].content, EditsOf(names, edits, p)).content
         && w'.files[p].mode == w.files[p].mode
         && (W.HasValidToken(w', p) <==> W.HasValidToken(w, p))
  }

  lemma {:induction false} QuietEdit(w: W.World, names: W.Names, r: EditRequest)
    requires W.IsTree(w)
    ensures
      var step := Edit(w, names, r, QUIET, OPEN);
      && (FileOk(step.reply) <==>
            Editable(w, names, r.name) && ApplyExactEdit(w.files[names[r.name]].content, r).Ok())
      && (FileOk(step.reply) ==>
            ContentSet(w, step.world, names[r.name], ApplyExactEdit(w.files[names[r.name]].content, r).content)
            && W.IsTree(step.world))
  {
    hide PrepareEdit, CommitEdit, ApplyExactEdit, W.IsTree;
    QuietPrepare(w, names, r.name);
    if Editable(w, names, r.name) {
      var content := w.files[names[r.name]].content;
      QuietCommit(w, names, r.name, ApplyExactEdit(content, r).content, content, OPEN);
      var step := Edit(w, names, r, QUIET, OPEN);
      if FileOk(step.reply) {
        ContentSetKeeps(w, step.world, names[r.name], ApplyExactEdit(content, r).content);
      }
    }
  }

  lemma {:induction false} ContentSetKeeps(w: W.World, w': W.World, p: W.Path, content: string)
    requires ContentSet(w, w', p, content) && W.IsTree(w)
    ensures W.IsTree(w') && w'.files.Keys == w.files.Keys && w'.dirs == w.dirs
    ensures forall names: W.Names, name :: Editable(w', names, name) <==> Editable(w, names, name)
    ensures forall q :: q in w.files ==>
              && w'.files[q].content == (if q == p then content else w.files[q].content)
              && w'.files[q].mode == w.files[q].mode
              && (W.HasValidToken(w', q) <==> W.HasValidToken(w, q))
  {
    forall q ensures q in w'.files <==> q in w.files {
      assert q != p ==> A.AsBefore(w, w', q);
    }
    assert w'.files.Keys == w.files.Keys;
    forall q | q in w.files && q != p
      ensures w'.files[q].content == w.files[q].content && w'.files[q].mode == w.files[q].mode
    {
      assert A.AsBefore(w, w', q);
    }
    forall q ensures W.HasValidToken(w', q) <==> W.HasValidToken(w, q) {
      assert q != p ==> A.AsBefore(w, w', q);
    }
  }

  lemma {:induction false} EditsOfHead(names: W.Names, edits: seq<EditRequest>, p: W.Path)
    requires edits != []
    ensures EditsOf(names, edits, p) ==
            (if edits[0].name in names && names[edits[0].name] == p then [edits[0]] else [])
            + EditsOf(names, edits[1..], p)
  {
  }

  lemma {:induction false} ApplyEditsHead(content: string, r: EditRequest, rest: seq<EditRequest>)
    ensures
      var first, all := ApplyExactEdit(content, r), ApplyEdits(content, [r] + rest);
      && (all.Ok() <==> first.Ok() && ApplyEdits(first.content, rest).Ok())
      && (all.Ok() ==> all.content == ApplyEdits(first.content, rest).content)
  {
    assert ([r] + rest)[1..] == rest;
  }

  lemma {:induction false} HeadApplied(w: W.World, w': W.World, w'': W.World, names: W.Names, edits: seq<EditRequest>)
    requires edits != [] && Editable(w, names, edits[0].name) && W.IsTree(w)
    requires ApplyExactEdit(w.files[names[edits[0].name]].content, edits[0]).Ok()
    requires ContentSet(w, w', names[edits[0].name],
                        ApplyExactEdit(w.files[names[edits[0].name]].content, edits[0]).content)
    ensures EachFileOk(w, names, edits) <==> EachFileOk(w', names, edits[1..])
    ensures AllEditable(w, names, edits) <==> AllEditable(w', names, edits[1..])
    ensures EachFileOk(w, names, edits) && EachFileEdited(w', w'', names, edits[1..]) ==>
            EachFileEdited(w, w'', names, edits)
  {
    hide ApplyExactEdit, ApplyEdits, EditsOf, W.IsTree, ContentSet;
    var q, r, rest := names[edits[0].name], edits[0], edits[1..];
    ContentSetKeeps(w, w', q, ApplyExactEdit(w.files[q].content, r).content);
    forall p | p in w.files
      ensures
        var all, later := ApplyEdits(w.files[p].content, EditsOf(names, edits, p)),
                          ApplyEdits(w'.files[p].content, EditsOf(names, rest, p));
        (all.Ok() <==> later.Ok()) && (all.Ok() ==> all.content == later.content)
    {
      EditsOfHead(names, edits, p);
      if p == q {
        ApplyEditsHead(w.files[p].content, r, EditsOf(names, rest, p));
      } else {
        assert [] + EditsOf(names, rest, p) == EditsOf(names, rest, p);
      }
    }
    assert forall i :: 0 < i < |edits| ==> edits[i] == rest[i - 1];
    if EachFileOk(w, names, edits) && EachFileEdited(w', w'', names, rest) {
      forall p | p in w.files
        ensures w''.files[p].content == ApplyEdits(w.files[p].content, EditsOf(names, edits, p)).content
      {
        assert ApplyEdits(w.files[p].content, EditsOf(names, edits, p)).Ok();
      }
    }
  }

  lemma {:induction false} NoEdits(w: W.World, names: W.Names)
    ensures AllEditable(w, names, []) && EachFileOk(w, names, []) && EachFileEdited(w, w, names, [])
  {
  }

  lemma {:induction false} HeadRefused(w: W.World, names: W.Names, edits: seq<EditRequest>)
    requires edits != [] && AllEditable(w, names, edits) && EachFileOk(w, names, edits)
    ensures Editable(w, names, edits[0].name) && ApplyExactEdit(w.files[names[edits[0].name]].content, edits[0]).Ok()
  {
    hide ApplyExactEdit;
    var p := names[edits[0].name];
    EditsOfHead(names, edits, p);
    ApplyEditsHead(w.files[p].content, edits[0], EditsOf(names, edits[1..], p));
  }

  /** The fold succeeds exactly when each file's own edits do, and then each file holds the result of its own edits. */
  lemma {:induction false} FoldIsPerFile(w: W.World, names: W.Names, edits: seq<EditRequest>)
    requires W.IsTree(w)
    ensures OneByOne(w, names, edits).Some? <==> AllEditable(w, names, edits) && EachFileOk(w, names, edits)
    ensures OneByOne(w, names, edits).Some? ==> EachFileEdited(w, OneByOne(w, names, edits).value, names, edits)
    decreases |edits|
  {
    hide Edit, ApplyExactEdit, EachFileOk, EachFileEdited, AllEditable, ContentSet, Editable, W.IsTree;
    if edits == [] {
      NoEdits(w, names);
    } else {
      var step := Edit(w, names, edits[0], QUIET, OPEN);
      QuietEdit(w, names, edits[0]);
      if FileOk(step.reply) {
        FoldIsPerFile(step.world, names, edits[1..]);
        var later := OneByOne(step.world, names, edits[1..]);
        HeadApplied(w, step.world, if later.Some? then later.value else w, names, edits);
      } else if AllEditable(w, names, edits) && EachFileOk(w, names, edits) {
        HeadRefused(w, names, edits);
      }
    }
  }
}
