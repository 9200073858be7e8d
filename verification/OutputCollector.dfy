/** The bounded output buffer with its spill file, against the plain stream of every byte written. */
module OutputCollector {
  import opened Wrappers

  type Bytes = seq<bv8>

  const DEFAULT_LIMIT: nat := 65536

  /** What the file system does for one write: creates the artifact, takes the inline bytes, takes the overflow. */
  datatype WriteIo = WriteIo(created: bool, inlineWritten: bool, overflowWritten: bool)

  /** The summary of a snapshot; the artifact is what the file holds. */
  datatype Summary = Summary(truncated: bool, artifact: Option<Bytes>, accessible: bool, limit: nat, originalBytes: nat,
                             previewBytes: nat)

  function Min(a: nat, b: nat): nat {
    if a < b then a else b
  }

  class Collector {
    const limit: nat
    const spool: bool
    const hasRoot: bool
    const workspaceAccessible: bool
    var inline: Bytes
    var total: nat
    var artifact: Option<Bytes>
    var artifactErr: bool
    var closed: bool
    ghost var stream: Bytes

    constructor (limit: int, hasRoot: bool, spool: bool, workspaceAccessible: bool)
      ensures Valid() && stream == [] && this.spool == spool && !closed && !artifactErr
      ensures this.limit == if limit <= 0 then DEFAULT_LIMIT else limit
    {
      this.limit := if limit <= 0 then DEFAULT_LIMIT else limit;
      this.spool, this.hasRoot, this.workspaceAccessible := spool, hasRoot, workspaceAccessible;
      inline, total, artifact, artifactErr, closed, stream := [], 0, None, false, false, [];
    }

    /** The buffer holds the start of the stream, and without an error the artifact holds all of an overlong one. */
    ghost predicate Valid()
      reads this
    {
      && limit > 0 && total == |stream| && inline == stream[..Min(limit, |stream|)]
      && (!spool ==> artifact.None? && !artifactErr)
      && (closed ==> artifact.Some?)
      && (artifact.Some? ==> total > limit)
      && (spool && !artifactErr && total > limit ==> artifact == Some(stream))
    }

    method EnsureArtifact(io: WriteIo) returns (ok: bool)
      modifies this`artifact
      ensures old(artifact).Some? ==> ok && artifact == old(artifact)
      ensures old(artifact).None? && ok ==> !artifactErr && artifact == Some(inline)
      ensures !ok ==> artifact == old(artifact)
    {
      if artifact.Some? {
        return true;
      }
      if artifactErr || !hasRoot || !io.created || !io.inlineWritten {
        return false;
      }
      artifact := Some(inline);
      ok := true;
    }

    /** Takes a chunk whole, whatever becomes of the artifact. */
    method Write(data: Bytes, io: WriteIo) returns (n: nat)
      requires Valid()
      modifies this
      ensures Valid() && stream == old(stream) + data && n == |data| && closed == old(closed)
    {
      var previousTotal := total;
      ghost var before := stream;
      stream := stream + data;
      total := total + |data|;
      n := |data|;
      if previousTotal < limit {
        var inlineBytes := Min(|data|, limit - previousTotal);
        if inlineBytes > 0 {
          inline := inline + data[..inlineBytes];
        }
        InlineGrows(before, data, limit);
      } else {
        assert stream[..limit] == before[..limit];
      }
      if spool && total > limit {
        Spill(data, if previousTotal < limit then limit - previousTotal else 0, io);
        OverflowCompletes(before, data, limit);
        assert data[0..] == data && (data == [] ==> before + data == before);
      }
    }

    /** Appends what exceeds the limit to the artifact, creating it first if need be. */
    method Spill(data: Bytes, overflowOffset: nat, io: WriteIo)
      requires overflowOffset <= |data|
      modifies this`artifact, this`artifactErr
      ensures old(artifactErr) ==> artifactErr
      ensures !artifactErr ==>
                && (closed ==> overflowOffset == |data|)
                && artifact ==
                   Some((if old(artifact).Some? then old(artifact).value else inline) + data[overflowOffset..])
      ensures old(artifact).Some? ==> artifact.Some?
    {
      var ok := EnsureArtifact(io);
      if !ok {
        artifactErr := true;
        return;
      }
      if overflowOffset == |data| {
        assert artifact.value + data[overflowOffset..] == artifact.value;
        return;
      }
      if closed || !io.overflowWritten {
        artifactErr := true;
        return;
      }
      artifact := Some(artifact.value + data[overflowOffset..]);
    }

    /** Closes the artifact the first time, and reports; an artifact that failed is an error. */
    method TakeSnapshot(closeOk: bool) returns (r: Option<(Bytes, Summary)>)
      requires Valid()
      modifies this`artifactErr, this`closed
      ensures Valid() && stream == old(stream)
      ensures r.Some? ==> AgreesWithStream(r.value.0, r.value.1)
      ensures closeOk && !old(artifactErr) ==> r.Some?
    {
      if artifact.Some? && !closed {
        if !closeOk && !artifactErr {
          artifactErr := true;
        }
        closed := true;
      }
      if artifactErr {
        return None;
      }
      r := Some((inline,
                 Summary(total > limit, artifact, artifact.Some? && workspaceAccessible, limit, total, |inline|)));
    }

    /**
     * A successful snapshot agrees with the stream: inline text is its first bytes up to the limit, truncation is
     * exactly exceeding it, and a spooling collector has an artifact exactly then, holding the whole stream.
     */
    ghost predicate AgreesWithStream(text: Bytes, summary: Summary)
      reads this
    {
      && text == stream[..Min(limit, |stream|)] && summary.previewBytes == |text|
      && (summary.truncated <==> |stream| > limit) && summary.originalBytes == |stream| && summary.limit == limit
      && summary.artifact == (if spool && |stream| > limit then Some(stream) else None)
      && (summary.accessible ==> summary.artifact.Some?)
    }
  }

  lemma {:induction false} InlineGrows(before: Bytes, data: Bytes, limit: nat)
    requires |before| < limit
    ensures
      var stream, kept := before + data, Min(|data|, limit - |before|);
      before[..Min(limit, |before|)] + data[..kept] == stream[..Min(limit, |stream|)]
  {
  }

  lemma {:induction false} OverflowCompletes(before: Bytes, data: Bytes, limit: nat)
    requires |before| + |data| > limit
    ensures |before| < limit ==> (before + data)[..limit] + data[limit - |before|..] == before + data
    ensures |before| == limit ==> (before + data)[..limit] + data[0..] == before + data
  {
  }

  // ----- Two streams into one -----

  /** The bytes of `c` that `tags` gives to the chosen side, in order. */
  function Picked(c: Bytes, tags: seq<bool>, side: bool): Bytes
    requires |c| == |tags|
  {
    if c == [] then []
    else Picked(c[..|c| - 1], tags[..|c| - 1], side) + if tags[|c| - 1] == side then [c[|c| - 1]] else []
  }

  function Tagged(n: nat, side: bool): seq<bool> {
    seq(n, _ => side)
  }

  lemma {:induction false} PickedAppend(c: Bytes, tags: seq<bool>, data: Bytes, from: bool, side: bool)
    requires |c| == |tags|
    ensures |c + data| == |tags + Tagged(|data|, from)|
    ensures Picked(c + data, tags + Tagged(|data|, from), side) ==
            Picked(c, tags, side) + if from == side then data else []
  {
    if data == [] {
      assert c + data == c && tags + Tagged(0, from) == tags;
    } else {
      var rest := data[..|data| - 1];
      PickedAppend(c, tags, rest, from, side);
      assert (c + data)[..|c + data| - 1] == c + rest;
      assert (tags + Tagged(|data|, from))[..|c + data| - 1] == tags + Tagged(|rest|, from);
    }
  }

  const OUT := true
  const ERR := false

  /**
   * Standard output and standard error of one command, each with a collector of its own and one in common. A writer
   * takes its two collectors one after the other, so the other writer may come in between.
   */
  class CommandOutput {
    const stdout: Collector
    const stderr: Collector
    const combined: Collector
    var pendingOut: Option<Bytes>
    var pendingErr: Option<Bytes>
    ghost var tags: seq<bool>

    constructor (limit: int, hasRoot: bool, workspaceAccessible: bool)
      ensures Valid() && pendingOut.None? && pendingErr.None? && fresh(stdout) && fresh(stderr) && fresh(combined)
      ensures stdout.stream == [] && stderr.stream == []
    {
      stdout := new Collector(limit, false, false, false);
      stderr := new Collector(limit, false, false, false);
      combined := new Collector(limit, hasRoot, true, workspaceAccessible);
      pendingOut, pendingErr, tags := None, None, [];
    }

    function Waiting(pending: Option<Bytes>): Bytes {
      if pending.Some? then pending.value else []
    }

    /** Each stream is what its bytes in the common one make up, and then the chunk its writer has not passed on yet. */
    ghost predicate Valid()
      reads this, stdout, stderr, combined
    {
      && stdout != stderr && stderr != combined && stdout != combined
      && stdout.Valid() && stderr.Valid() && combined.Valid() && |tags| == |combined.stream|
      && !stdout.spool && !stderr.spool && combined.spool
      && stdout.stream == Picked(combined.stream, tags, OUT) + Waiting(pendingOut)
      && stderr.stream == Picked(combined.stream, tags, ERR) + Waiting(pendingErr)
    }

    /** A writer's first step: the chunk goes to its own collector. */
    method WritePrimary(side: bool, data: Bytes, io: WriteIo)
      requires Valid() && (if side == OUT then pendingOut else pendingErr).None?
      modifies this, stdout, stderr
      ensures Valid() && combined.stream == old(combined.stream) && tags == old(tags)
      ensures side == OUT ==> pendingOut == Some(data) && pendingErr == old(pendingErr)
                              && stdout.stream == old(stdout.stream) + data && stderr.stream == old(stderr.stream)
      ensures side == ERR ==> pendingErr == Some(data) && pendingOut == old(pendingOut)
                              && stderr.stream == old(stderr.stream) + data && stdout.stream == old(stdout.stream)
    {
      if side == OUT {
        var _ := stdout.Write(data, io);
        pendingOut := Some(data);
      } else {
        var _ := stderr.Write(data, io);
        pendingErr := Some(data);
      }
    }

    /** Its second step: the same chunk goes to the common collector. */
    method WriteCombined(side: bool, io: WriteIo)
      requires Valid() && (if side == OUT then pendingOut else pendingErr).Some?
      modifies this, combined
      ensures Valid() && stdout.stream == old(stdout.stream) && stderr.stream == old(stderr.stream)
      ensures side == OUT ==> pendingOut == None && pendingErr == old(pendingErr)
                              && combined.stream == old(combined.stream) + old(pendingOut).value
      ensures side == ERR ==> pendingErr == None && pendingOut == old(pendingOut)
                              && combined.stream == old(combined.stream) + old(pendingErr).value
    {
      hide Picked;
      var data := (if side == OUT then pendingOut else pendingErr).value;
      PickedAppend(combined.stream, tags, data, side, OUT);
      PickedAppend(combined.stream, tags, data, side, ERR);
      var _ := combined.Write(data, io);
      tags := tags + Tagged(|data|, side);
      if side == OUT {
        pendingOut := None;
      } else {
        pendingErr := None;
      }
    }

    /** The three snapshots together; any error is an error of the whole. */
    method Result(closeOk: bool) returns (r: Option<(Bytes, Bytes, Bytes, Summary)>)
      requires Valid() && pendingOut.None? && pendingErr.None?
      modifies stdout, stderr, combined
      ensures Valid() && stdout.stream == old(stdout.stream) && stderr.stream == old(stderr.stream)
              && combined.stream == old(combined.stream)
      ensures r.Some? ==>
                && stdout.limit >= 0 && r.value.0 == stdout.stream[..Min(stdout.limit, |stdout.stream|)]
                && r.value.1 == stderr.stream[..Min(stderr.limit, |stderr.stream|)]
                && combined.AgreesWithStream(r.value.2, r.value.3)
                && IsInterleaving(combined.stream, stdout.stream, stderr.stream)
    {
      hide Picked;
      var out := stdout.TakeSnapshot(true);
      var err := stderr.TakeSnapshot(true);
      var both := combined.TakeSnapshot(closeOk);
      Quiescent(combined.stream, tags, stdout.stream, stderr.stream);
      if out.None? || err.None? || both.None? {
        return None;
      }
      r := Some((out.value.0, err.value.0, both.value.0, both.value.1));
    }
  }

  /** `c` holds the bytes of `a` and of `b`, each in its order and no others. */
  ghost predicate IsInterleaving(c: Bytes, a: Bytes, b: Bytes) {
    exists tags: seq<bool> :: |tags| == |c| && Picked(c, tags, OUT) == a && Picked(c, tags, ERR) == b
  }

  lemma {:induction false} Quiescent(c: Bytes, tags: seq<bool>, a: Bytes, b: Bytes)
    requires |tags| == |c| && a == Picked(c, tags, OUT) + [] && b == Picked(c, tags, ERR) + []
    ensures IsInterleaving(c, a, b)
  {
    hide Picked;
    assert a == Picked(c, tags, OUT) && b == Picked(c, tags, ERR);
  }

  lemma {:induction false} PickedStep(c: Bytes, tags: seq<bool>, x: bv8, tag: bool, side: bool)
    requires |c| == |tags|
    ensures Picked(c + [x], tags + [tag], side) == Picked(c, tags, side) + if tag == side then [x] else []
  {
    assert (c + [x])[..|c|] == c && (tags + [tag])[..|c|] == tags;
  }

  lemma {:induction false} PickedConserves(c: Bytes, tags: seq<bool>)
    requires |c| == |tags|
    ensures |Picked(c, tags, OUT)| + |Picked(c, tags, ERR)| == |c|
    ensures multiset(Picked(c, tags, OUT)) + multiset(Picked(c, tags, ERR)) == multiset(c)
    decreases |c|
  {
    if c == [] {
      assert Picked(c, tags, OUT) == [] && Picked(c, tags, ERR) == [];
    } else {
      hide Picked;
      var n := |c| - 1;
      var c', tags', x, tag := c[..n], tags[..n], c[n], tags[n];
      assert c == c' + [x] && tags == tags' + [tag];
      PickedConserves(c', tags');
      PickedStep(c', tags', x, tag, OUT);
      PickedStep(c', tags', x, tag, ERR);
    }
  }

  /** Nothing is lost and nothing added: an interleaving has exactly the bytes of its two streams. */
  lemma {:induction false} InterleavingConserves(c: Bytes, a: Bytes, b: Bytes)
    requires IsInterleaving(c, a, b)
    ensures |c| == |a| + |b| && multiset(c) == multiset(a) + multiset(b)
  {
    hide Picked;
    var tags: seq<bool> :| |tags| == |c| && Picked(c, tags, OUT) == a && Picked(c, tags, ERR) == b;
    PickedConserves(c, tags);
  }
}
