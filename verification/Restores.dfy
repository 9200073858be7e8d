/** Rollback: snapshots taken before a transaction, missing parent directories, and raw restores. */
module Restores {
  import opened Wrappers
  import opened Workspace

  /** The system's part in one restore: it works, or it fails before or after the file has changed. */
  datatype RestoreIo = RestoreDone | RestoreFails(landed: bool)

  datatype RestoreStep = RestoreStep(ok: bool, world: World)

  /** Writes a snapshot back without looking at tokens, and records the restored file's token. */
  function RestoreFile(w: World, p: Path, content: string, mode: nat, io: RestoreIo): RestoreStep {
    var put := Logged(PutFile(w, p, content, mode), Restored(p, Some(File(content, mode, w.clock))));
    match io
    case RestoreDone => RestoreStep(true, Record(put, p, TokenOf(put.files[p])))
    case RestoreFails(landed) => RestoreStep(false, if landed then put else w)
  }

  // ----- Parent directories -----

  function Parent(p: Path): Path
    requires p != []
  {
    p[..|p| - 1]
  }

  /** The absent directories from below the root down to `dir`, shallowest first; a file in the way is an error. */
  function MissingFrom(w: World, dir: Path): Option<seq<Path>> {
    if dir == [] || dir in w.dirs then Some([])
    else if dir in w.files then None
    else match MissingFrom(w, Parent(dir))
      case None => None
      case Some(above) => Some(above + [dir])
  }

  predicate IsEmptyDir(w: World, dir: Path) {
    && (forall p :: p in w.files ==> dir !in Ancestors(p))
    && (forall d :: d in w.dirs ==> dir !in Ancestors(d))
  }

  /** Removes the directories from the deepest up, skipping absent ones, and stops at the first that is not empty. */
  function RemoveDirs(w: World, dirs: seq<Path>): RestoreStep
    decreases |dirs|
  {
    if dirs == [] then RestoreStep(true, w)
    else
      var dir, above := dirs[|dirs| - 1], dirs[..|dirs| - 1];
      if dir in w.files then RestoreStep(false, w)
      else if dir !in w.dirs then RemoveDirs(w, above)
      else if !IsEmptyDir(w, dir) then RestoreStep(true, w)
      else RemoveDirs(w.(dirs := w.dirs - {dir}), above)
  }

  /** Undoes a create: the file goes, its token is forgotten, the parents made for it are removed while empty. */
  function RemoveCreated(w: World, p: Path, madeDirs: seq<Path>, io: RestoreIo): RestoreStep {
    var removed := if p in w.files then Logged(RemoveFile(w, p), Restored(p, None)) else w;
    match io
    case RestoreFails(landed) => RestoreStep(false, if landed then removed else w)
    case RestoreDone => if p in w.dirs then RestoreStep(false, w) else RemoveDirs(Forget(removed, p), madeDirs)
  }
}
