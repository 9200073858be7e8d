/** Parent directories: which ones a create will make, and how undoing creates in reverse takes exactly those away. */
module DirectoryRollback {
  import opened Wrappers
  import opened Workspace
  import opened Restores

  // ----- Ancestors -----

  lemma {:induction false} AncestorsNested(p: Path, d: Path)
    requires d in Ancestors(p)
    ensures d != [] && |d| < |p| && d == p[..|d|] && Ancestors(d) <= Ancestors(p)
  {
    forall a | a in Ancestors(d) ensures a in Ancestors(p) {
      var i :| 0 < i < |d| && a == d[..i];
      assert d[..i] == p[..i];
    }
  }

  lemma {:induction false} AncestorsOfChild(p: Path)
    requires |p| > 1
    ensures Ancestors(p) == Ancestors(Parent(p)) + {Parent(p)}
  {
    var d := Parent(p);
    forall a | a in Ancestors(p) ensures a in Ancestors(d) + {d} {
      var i :| 0 < i < |p| && a == p[..i];
      if i < |d| {
        assert p[..i] == d[..i];
      }
    }
    forall a | a in Ancestors(d) ensures a in Ancestors(p) {
      var i :| 0 < i < |d| && a == d[..i];
      assert p[..i] == d[..i];
    }
  }

  // ----- Missing parents -----

  function ElementsOf(s: seq<Path>): set<Path> {
    set d | d in s
  }

  /** Each directory of the list is an ancestor of the ones after it. */
  ghost predicate IsChain(dirs: seq<Path>) {
    forall i, j :: 0 <= i < j < |dirs| ==> dirs[i] in Ancestors(dirs[j])
  }

  /**
   * The missing parents of `dir` and itself are exactly the directories on the way down to it that are absent,
   * shallowest first; they cannot be listed exactly when a file stands in the way of an absent one.
   */
  lemma {:induction false} MissingFromMeaning(w: World, dir: Path)
    requires IsTree(w)
    ensures
      var way := Ancestors(dir) + if dir == [] then {} else {dir};
      var missing := MissingFrom(w, dir);
      && (missing.None? <==> exists d :: d in way && d in w.files)
      && (missing.Some? ==> ElementsOf(missing.value) == way - w.dirs && IsChain(missing.value))
    decreases |dir|
  {
    var way := Ancestors(dir) + if dir == [] then {} else {dir};
    if dir == [] {
      assert way == {};
    } else if dir in w.dirs {
      assert way <= w.dirs;
    } else if dir in w.files {
      assert dir in way;
    } else {
      MissingFromMeaning(w, Parent(dir));
      MissingStep(w, dir);
    }
  }

  lemma {:induction false} MissingStep(w: World, dir: Path)
    requires dir != [] && dir !in w.dirs && dir !in w.files
    requires
      var up := Parent(dir);
      var way := Ancestors(up) + if up == [] then {} else {up};
      var missing := MissingFrom(w, up);
      && (missing.None? <==> exists d :: d in way && d in w.files)
      && (missing.Some? ==> ElementsOf(missing.value) == way - w.dirs && IsChain(missing.value))
    ensures
      var way := Ancestors(dir) + {dir};
      var missing := MissingFrom(w, dir);
      && (missing.None? <==> exists d :: d in way && d in w.files)
      && (missing.Some? ==> ElementsOf(missing.value) == way - w.dirs && IsChain(missing.value))
  {
    var up := Parent(dir);
    var upWay := Ancestors(up) + if up == [] then {} else {up};
    assert upWay == Ancestors(dir) by {
      if |dir| > 1 {
        AncestorsOfChild(dir);
      } else {
        assert up == [];
      }
    }
    if MissingFrom(w, up).Some? {
      var above := MissingFrom(w, up).value;
      assert MissingFrom(w, dir) == Some(above + [dir]);
      AppendChain(above, dir);
    }
  }

  lemma {:induction false} AppendChain(above: seq<Path>, dir: Path)
    requires IsChain(above) && ElementsOf(above) <= Ancestors(dir)
    ensures ElementsOf(above + [dir]) == ElementsOf(above) + {dir} && IsChain(above + [dir])
  {
    forall i | 0 <= i < |above| ensures above[i] in Ancestors(dir) {
      assert above[i] in ElementsOf(above);
    }
  }

  // ----- Undoing a create -----

  /**
   * The situation when a create is undone: directories are the old ones, those other creates still need, and
   * those of the chain; only other creates put anything below a directory of the chain.
   */
  ghost predicate ReadyToRemove(w: World, old_: set<Path>, needed: set<Path>, chain: seq<Path>) {
    && w.dirs == old_ + needed + ElementsOf(chain)
    && IsChain(chain)
    && (forall d :: d in chain ==> d !in old_ && d !in w.files)
    && (forall d, p :: d in chain && p in w.files && d in Ancestors(p) ==> d in needed)
    && (forall d, c :: d in chain && c in old_ + needed && d in Ancestors(c) ==> d in needed)
    && (forall d :: d in chain && d in needed ==> exists p :: p in w.files && d in Ancestors(p))
    && (forall c :: c in needed ==> Ancestors(c) <= needed)
  }

  lemma {:induction false} ChainTail(chain: seq<Path>)
    requires chain != [] && IsChain(chain)
    ensures
      var dir, above := chain[|chain| - 1], chain[..|chain| - 1];
      && IsChain(above) && ElementsOf(chain) == ElementsOf(above) + {dir} && dir !in above
      && (forall d :: d in chain ==> dir !in Ancestors(d))
      && (forall d :: d in above ==> d in Ancestors(dir))
  {
    var dir, above := chain[|chain| - 1], chain[..|chain| - 1];
    assert chain == above + [dir];
    forall d | d in chain ensures dir !in Ancestors(d) {
      var i :| 0 <= i < |chain| && chain[i] == d;
      if dir in Ancestors(d) {
        AncestorsNested(d, dir);
        if i < |chain| - 1 {
          AncestorsNested(dir, d);
        }
      }
    }
  }

  lemma {:induction false} DeepestIsEmpty(w: World, old_: set<Path>, needed: set<Path>, chain: seq<Path>)
    requires chain != [] && ReadyToRemove(w, old_, needed, chain)
    ensures IsEmptyDir(w, chain[|chain| - 1]) <==> chain[|chain| - 1] !in needed
  {
    var dir := chain[|chain| - 1];
    ChainTail(chain);
  }

  /** Removing the chain from the deepest up takes away exactly what no other create needs. */
  lemma {:induction false} RemoveDirsUndoes(w: World, old_: set<Path>, needed: set<Path>, chain: seq<Path>)
    requires ReadyToRemove(w, old_, needed, chain)
    ensures
      var step := RemoveDirs(w, chain);
      step.ok && step.world == w.(dirs := old_ + needed)
    decreases |chain|
  {
    if chain == [] {
      assert w.dirs == old_ + needed;
    } else {
      var dir, above := chain[|chain| - 1], chain[..|chain| - 1];
      ChainTail(chain);
      DeepestIsEmpty(w, old_, needed, chain);
      if dir in needed {
        assert ElementsOf(chain) <= needed by {
          forall d | d in chain ensures d in needed {
            if d != dir {
              assert d in above;
              assert d in Ancestors(dir);
            }
          }
        }
        assert w.dirs == old_ + needed;
      } else {
        var w' := w.(dirs := w.dirs - {dir});
        assert w'.dirs == old_ + needed + ElementsOf(above);
        RemoveDirsUndoes(w', old_, needed, above);
      }
    }
  }
}
