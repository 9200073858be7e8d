/** A whole patch application in a quiet workspace, from the patch text to the files; and where atomicity ends. */
module PatchOutcome {
  import opened Wrappers
  import opened Workspace
  import opened PatchTransaction
  import opened UnifiedDiff
  import Hunks
  import A = AllOrNothing

  predicate QuietPlan(e: PlanEnv) {
    e.beforeCheck == Nothing && e.beforeRead == Nothing
  }

  /** No other writer acts from the call to its return, and no re-read of a written file fails. */
  ghost predicate QuietPatch(env: PatchEnv) {
    (forall i :: QuietPlan(env.plan(i))) && env.beforeSnapshot == Nothing && A.QuietRun(env.commit)
  }

  ghost predicate BelowRoot(names: Names) {
    forall n :: n in names ==> names[n] != []
  }

  /** The content a patch file starts from: nothing for a create, else the file the model has read. */
  predicate StartsFrom(w: World, p: Path, f: PatchFile, old_: string) {
    if f.oldDevNull then p !in w.files && old_ == ""
    else p in w.files && HasValidToken(w, p) && old_ == w.files[p].content
  }

  /** The plan entry of a patch file: its operation, its resolved path, and its hunks applied to the current content. */
  ghost predicate Plans(w: World, names: Names, f: PatchFile, entry: PlanFile) {
    var name := if f.oldDevNull then f.newPath else f.oldPath;
    && !(f.oldDevNull && f.newDevNull) && (f.oldDevNull || f.newDevNull || f.oldPath == f.newPath)
    && name in names && entry.name == name && entry.path == names[name]
    && entry.operation == (if f.oldDevNull then OpCreate else if f.newDevNull then OpDelete else OpModify)
    && (exists old_ ::
          StartsFrom(w, entry.path, f, old_) && Hunks.PatchedContent(old_, f.hunks) == Success(entry.content))
    && (entry.operation == OpDelete ==> entry.content == "")
    && (entry.operation != OpDelete ==> entry.mode == f.newMode)
  }

  lemma {:induction false} QuietPlanOne(w: World, names: Names, f: PatchFile, e: PlanEnv)
    requires QuietPlan(e)
    ensures
      var step := PlanOne(w, names, f, e);
      step.world == w && (step.plan.Planned? ==> Plans(w, names, f, step.plan.value))
  {
    var name := if f.oldDevNull then f.newPath else f.oldPath;
    if PlanOne(w, names, f, e).plan.Planned? {
      var old_ := if f.oldDevNull then "" else w.files[names[name]].content;
      assert StartsFrom(w, names[name], f, old_);
    }
  }

  ghost predicate AllPlanned(w: World, names: Names, files: seq<PatchFile>, plan: seq<PlanFile>) {
    |plan| <= |files| && forall i :: 0 <= i < |plan| ==> Plans(w, names, files[i], plan[i])
  }

  lemma {:induction false} QuietPlanFiles(w: World, names: Names, files: seq<PatchFile>, env: nat -> PlanEnv,
                                          done: seq<PlanFile>)
    requires forall i :: QuietPlan(env(i))
    requires AllPlanned(w, names, files, done) && Distinct(done)
    ensures
      var step := PlanFiles(w, names, files, env, done);
      && step.world == w
      && (step.plan.Planned? ==>
            |step.plan.value| == |files| && AllPlanned(w, names, files, step.plan.value) && Distinct(step.plan.value))
    decreases |files| - |done|
  {
    hide Plans, PlanOne, QuietPlan;
    if |done| < |files| {
      var step := PlanOne(w, names, files[|done|], env(|done|));
      QuietPlanOne(w, names, files[|done|], env(|done|));
      if step.plan.Planned? && !Touches(done, step.plan.value.path) {
        QuietPlanFiles(w, names, files, env, done + [step.plan.value]);
      }
    }
  }

  lemma {:induction false} PlannedIsNamed(w: World, names: Names, files: seq<PatchFile>, plan: seq<PlanFile>)
    requires AllPlanned(w, names, files, plan) && BelowRoot(names)
    ensures A.Named(names, plan)
  {
    forall i | 0 <= i < |plan|
      ensures plan[i].name in names && names[plan[i].name] == plan[i].path && plan[i].path != []
    {
      assert Plans(w, names, files[i], plan[i]);
    }
  }

  lemma {:induction false} NothingYet(w: World)
    ensures A.NothingHappened(w, w)
  {
  }

  /**
   * Applied: every file section, its hunks run over the content the model had read, is now in place, and nothing else
   * changed. Refused or in error: nothing changed. Failed: nothing changed either, unless a rollback was attempted and
   * reports that it failed.
   */
  ghost predicate WholeOrNothing(w: World, names: Names, patch: string, lib: PathLibrary, step: PatchStep) {
    match step.reply
    case PatchApplied =>
      && ParsePatch(patch, lib).Success?
      && exists plan :: |plan| == |ParsePatch(patch, lib).value|
                        && AllPlanned(w, names, ParsePatch(patch, lib).value, plan)
                        && A.EverythingHappened(w, step.world, plan)
    case PatchFailed(attempted, succeeded, _) => succeeded || !attempted ==> A.NothingHappened(w, step.world)
    case _ => A.NothingHappened(w, step.world)
  }

  /** A patch text applied in a quiet workspace. */
  lemma {:induction false} ApplyPatchOutcome(w: World, names: Names, patch: string, lib: PathLibrary, env: PatchEnv)
    requires IsTree(w) && BelowRoot(names) && QuietPatch(env)
    ensures WholeOrNothing(w, names, patch, lib, ApplyPatch(w, names, patch, lib, env))
  {
    hide A.NothingHappened, A.EverythingHappened, A.Named, Distinct, IsTree, ParsePatch, RunPlan, TakeSnapshots,
         AllPlanned, A.QuietRun, PlanFiles, QuietPlan;
    NothingYet(w);
    if ParsePatch(patch, lib).Success? {
      var files := ParsePatch(patch, lib).value;
      NoPlanYet(w, names, files);
      QuietPlanFiles(w, names, files, env.plan, []);
      var planned := PlanFiles(w, names, files, env.plan, []);
      if planned.plan.Planned? {
        var plan := planned.plan.value;
        PlannedIsNamed(w, names, files, plan);
        SnapshotCount(w, plan);
        if TakeSnapshots(w, plan).Some? {
          A.PatchIsAllOrNothing(w, names, plan, TakeSnapshots(w, plan).value, env);
        }
      }
    }
  }

  lemma {:induction false} NoPlanYet(w: World, names: Names, files: seq<PatchFile>)
    ensures AllPlanned(w, names, files, []) && Distinct([])
  {
  }
}
