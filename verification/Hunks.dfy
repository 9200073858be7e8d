/** Hunk application over line lists: the one-pass interpreter, its inverse and its composition law. */
module Hunks {
  import opened Wrappers
  import opened Lines

  datatype LineKind = Context | Removal | Addition

  datatype PatchLine = PatchLine(kind: LineKind, text: string)

  datatype Hunk = Hunk(oldStart: int, oldCount: int, newStart: int, newCount: int, lines: seq<PatchLine>)

  datatype HunkError = OutsideFile | ContextMismatch | RemovalMismatch

  /** The lines a hunk body expects to find. */
  function OldSide(body: seq<PatchLine>): seq<string> {
    if body == [] then []
    else (if body[0].kind == Addition then [] else [body[0].text]) + OldSide(body[1..])
  }

  /** The lines a hunk body leaves behind. */
  function NewSide(body: seq<PatchLine>): seq<string> {
    if body == [] then []
    else (if body[0].kind == Removal then [] else [body[0].text]) + NewSide(body[1..])
  }

  /** The counts in the header are those of the body. */
  predicate HeaderConsistent(h: Hunk) {
    h.oldCount == |OldSide(h.lines)| && h.newCount == |NewSide(h.lines)|
  }

  predicate AllConsistent(hunks: seq<Hunk>) {
    forall i :: 0 <= i < |hunks| ==> HeaderConsistent(hunks[i])
  }

  /** Zero-based index of the first old line; an empty range names the line before it. */
  function StartIndex(h: Hunk): int {
    if h.oldCount == 0 then h.oldStart else h.oldStart - 1
  }

  /** The one-based header number of a range that begins at `index`, empty-range convention included. */
  function HeaderStart(index: int, count: int): int {
    if count == 0 then index else index + 1
  }

  /** Walks a hunk body over the old lines from `pos`; the result is the position after it. */
  function MatchBody(lines: seq<string>, pos: nat, body: seq<PatchLine>): (r: Result<nat, HunkError>)
    decreases |body|
  {
    if body == [] then Success(pos)
    else match body[0].kind
      case Addition => MatchBody(lines, pos, body[1..])
      case Context =>
        if pos >= |lines| || lines[pos] != body[0].text then Failure(ContextMismatch)
        else MatchBody(lines, pos + 1, body[1..])
      case Removal =>
        if pos >= |lines| || lines[pos] != body[0].text then Failure(RemovalMismatch)
        else MatchBody(lines, pos + 1, body[1..])
  }

  /** What one pass over `hunks` makes of the old lines from `pos` on. */
  function ApplyFrom(lines: seq<string>, pos: nat, hunks: seq<Hunk>): (r: Result<seq<string>, HunkError>)
    requires pos <= |lines|
    decreases |hunks|
  {
    if hunks == [] then Success(lines[pos..])
    else
      var start := StartIndex(hunks[0]);
      if start < pos || start > |lines| then Failure(OutsideFile)
      else
        var body := hunks[0].lines;
        var next :- MatchBody(lines, start, body);
        if next > |lines| then Failure(OutsideFile)
        else
          var rest :- ApplyFrom(lines, next, hunks[1..]);
          Success(lines[pos..start] + NewSide(body) + rest)
  }

  /** The old block of a hunk body sits at `pos`. */
  predicate BlockAt(lines: seq<string>, pos: nat, block: seq<string>) {
    pos + |block| <= |lines| && lines[pos..pos + |block|] == block
  }

  /** Walking the body line by line succeeds exactly when its old block is in place. */
  lemma {:induction false} MatchBodyIsBlockAt(lines: seq<string>, pos: nat, body: seq<PatchLine>)
    requires pos <= |lines|
    ensures MatchBody(lines, pos, body).Success? <==> BlockAt(lines, pos, OldSide(body))
    ensures MatchBody(lines, pos, body).Success? ==> MatchBody(lines, pos, body).value == pos + |OldSide(body)|
    decreases |body|
  {
    if body != [] {
      var block, rest := OldSide(body), OldSide(body[1..]);
      if body[0].kind == Addition {
        MatchBodyIsBlockAt(lines, pos, body[1..]);
      } else if pos < |lines| {
        MatchBodyIsBlockAt(lines, pos + 1, body[1..]);
        assert block[1..] == rest;
        if pos + |block| <= |lines| {
          assert lines[pos..pos + |block|] == [lines[pos]] + lines[pos + 1..pos + 1 + |rest|];
        }
      }
    }
  }

  /** ApplyFrom with the body walk replaced by its meaning: replace the old block by the new one. */
  lemma {:induction false} ApplyFromStep(lines: seq<string>, pos: nat, hunks: seq<Hunk>)
    requires pos <= |lines| && hunks != []
    requires ApplyFrom(lines, pos, hunks).Success?
    ensures
      var start, block := StartIndex(hunks[0]), OldSide(hunks[0].lines);
      && pos <= start <= |lines|
      && BlockAt(lines, start, block)
      && ApplyFrom(lines, start + |block|, hunks[1..]).Success?
      && ApplyFrom(lines, pos, hunks).value
         == lines[pos..start] + NewSide(hunks[0].lines) + ApplyFrom(lines, start + |block|, hunks[1..]).value
  {
    MatchBodyIsBlockAt(lines, StartIndex(hunks[0]), hunks[0].lines);
  }

  /** `r` with `prefix` put in front of its lines. */
  function After(prefix: seq<string>, r: Result<seq<string>, HunkError>): Result<seq<string>, HunkError> {
    match r
    case Success(tail) => Success(prefix + tail)
    case Failure(e) => Failure(e)
  }

  lemma {:induction false} ApplyFromHead(lines: seq<string>, pos: nat, hunks: seq<Hunk>, next: nat)
    requires pos <= |lines| && hunks != []
    requires pos <= StartIndex(hunks[0]) <= next <= |lines|
    requires MatchBody(lines, StartIndex(hunks[0]), hunks[0].lines) == Success(next)
    ensures ApplyFrom(lines, pos, hunks)
            == After(lines[pos..StartIndex(hunks[0])] + NewSide(hunks[0].lines), ApplyFrom(lines, next, hunks[1..]))
  {
  }

  // ----- Inverse -----

  function Flip(body: seq<PatchLine>): (r: seq<PatchLine>)
    ensures |r| == |body|
  {
    if body == [] then []
    else
      var kind := match body[0].kind case Context => Context case Removal => Addition case Addition => Removal;
      [PatchLine(kind, body[0].text)] + Flip(body[1..])
  }

  lemma {:induction false} FlipSwapsSides(body: seq<PatchLine>)
    ensures OldSide(Flip(body)) == NewSide(body)
    ensures NewSide(Flip(body)) == OldSide(body)
  {
    if body != [] {
      FlipSwapsSides(body[1..]);
      assert Flip(body)[1..] == Flip(body[1..]);
    }
  }

  /** Swaps the sides of every hunk; `delta` is how far the lines before the first one have moved. */
  function Invert(hunks: seq<Hunk>, delta: int): (r: seq<Hunk>)
    ensures |r| == |hunks|
    decreases |hunks|
  {
    if hunks == [] then []
    else
      var h := hunks[0];
      var start := StartIndex(h);
      [Hunk(HeaderStart(start + delta, h.newCount), h.newCount, HeaderStart(start, h.oldCount), h.oldCount,
            Flip(h.lines))]
      + Invert(hunks[1..], delta + h.newCount - h.oldCount)
  }

  lemma {:induction false} Regroup<T>(prefix: seq<T>, before: seq<T>, block: seq<T>, rest: seq<T>)
    ensures prefix + (before + block + rest) == (prefix + before + block) + rest
  {
  }

  /** A block and what surrounds it, after `prefix`. */
  lemma {:induction false} BlockSlices<T>(prefix: seq<T>, before: seq<T>, block: seq<T>, rest: seq<T>, s: seq<T>)
    requires s == prefix + before + block + rest
    ensures s[|prefix|..|prefix| + |before|] == before
    ensures s[|prefix| + |before|..|prefix| + |before| + |block|] == block
  {
  }

  lemma {:induction false} Reassemble<T>(s: seq<T>, a: nat, b: nat, block: seq<T>)
    requires a <= b && b + |block| <= |s| && s[b..b + |block|] == block
    ensures s[a..b] + block + s[b + |block|..] == s[a..]
  {
  }

  /** Undoing one hunk: its swapped body finds its new block right after what precedes it. */
  lemma {:induction false} InverseHead(prefix: seq<string>, before: seq<string>, h: Hunk, rest: seq<string>,
                                       back: Hunk, changed: seq<string>)
    requires HeaderConsistent(h)
    requires changed == prefix + before + NewSide(h.lines) + rest
    requires back.oldCount == h.newCount && StartIndex(back) == |prefix| + |before| && back.lines == Flip(h.lines)
    ensures MatchBody(changed, StartIndex(back), back.lines) == Success(|prefix| + |before| + |NewSide(h.lines)|)
    ensures changed[|prefix|..StartIndex(back)] == before && NewSide(back.lines) == OldSide(h.lines)
  {
    BlockSlices(prefix, before, NewSide(h.lines), rest, changed);
    FlipSwapsSides(h.lines);
    MatchBodyIsBlockAt(changed, |prefix| + |before|, back.lines);
  }

  lemma {:induction false} InverseStep(prefix: seq<string>, before: seq<string>, h: Hunk, rest: seq<string>,
                                       back: seq<Hunk>, original: seq<string>, changed: seq<string>)
    requires HeaderConsistent(h) && back != []
    requires changed == prefix + before + NewSide(h.lines) + rest
    requires back[0].oldCount == h.newCount && StartIndex(back[0]) == |prefix| + |before|
             && back[0].lines == Flip(h.lines)
    requires ApplyFrom(changed, |prefix| + |before| + |NewSide(h.lines)|, back[1..]) == Success(original)
    ensures ApplyFrom(changed, |prefix|, back) == Success(before + OldSide(h.lines) + original)
  {
    InverseHead(prefix, before, h, rest, back[0], changed);
    ApplyFromHead(changed, |prefix|, back, |prefix| + |before| + |NewSide(h.lines)|);
  }

  /** The first hunk of a successful pass: the lines kept before it, the position after it, and what the rest gives. */
  lemma {:induction false} ApplyFromPieces(lines: seq<string>, pos: nat,
                                           hunks: seq<Hunk>) returns (before: seq<string>, next: nat,
                                           rest: seq<string>)
    requires pos <= |lines| && hunks != []
    requires ApplyFrom(lines, pos, hunks).Success?
    ensures |before| == StartIndex(hunks[0]) - pos
            && next == StartIndex(hunks[0]) + |OldSide(hunks[0].lines)| <= |lines|
    ensures ApplyFrom(lines, next, hunks[1..]) == Success(rest)
    ensures ApplyFrom(lines, pos, hunks).value == before + NewSide(hunks[0].lines) + rest
    ensures lines[pos..] == before + OldSide(hunks[0].lines) + lines[next..]
  {
    ApplyFromStep(lines, pos, hunks);
    var start := StartIndex(hunks[0]);
    before, next := lines[pos..start], start + |OldSide(hunks[0].lines)|;
    rest := ApplyFrom(lines, next, hunks[1..]).value;
    Reassemble(lines, pos, start, OldSide(hunks[0].lines));
  }

  lemma {:induction false} TailConsistent(hunks: seq<Hunk>)
    requires hunks != [] && AllConsistent(hunks)
    ensures HeaderConsistent(hunks[0]) && AllConsistent(hunks[1..])
    ensures hunks[0].oldCount == |OldSide(hunks[0].lines)| && hunks[0].newCount == |NewSide(hunks[0].lines)|
  {
  }

  lemma {:induction false} InvertParts(hunks: seq<Hunk>, delta: int)
    requires hunks != []
    ensures
      var h, back := hunks[0], Invert(hunks, delta);
      && back != [] && back[0].oldCount == h.newCount && StartIndex(back[0]) == StartIndex(h) + delta
      && back[0].lines == Flip(h.lines)
      && back[1..] == Invert(hunks[1..], delta + h.newCount - h.oldCount)
  {
  }

  lemma {:induction false} InverseGlue(hunks: seq<Hunk>, pos: nat, prefix: seq<string>, before: seq<string>,
                                       rest: seq<string>, original: seq<string>, changed: seq<string>)
    requires hunks != [] && HeaderConsistent(hunks[0]) && |before| == StartIndex(hunks[0]) - pos
    requires changed == prefix + before + NewSide(hunks[0].lines) + rest
    requires
      var done := |prefix| + |before| + |NewSide(hunks[0].lines)|;
      ApplyFrom(changed, done, Invert(hunks[1..], done - (StartIndex(hunks[0]) + |OldSide(hunks[0].lines)|))) ==
      Success(original)
    ensures ApplyFrom(changed, |prefix|, Invert(hunks, |prefix| - pos)) ==
            Success(before + OldSide(hunks[0].lines) + original)
  {
    hide ApplyFrom, Invert, MatchBody, NewSide, OldSide, Flip;
    InvertParts(hunks, |prefix| - pos);
    InverseStep(prefix, before, hunks[0], rest, Invert(hunks, |prefix| - pos), original, changed);
  }

  lemma {:induction false} InverseOfNone(lines: seq<string>, pos: nat, prefix: seq<string>, changed: seq<string>)
    requires pos <= |lines| && ApplyFrom(lines, pos, []).Success?
    requires changed == prefix + ApplyFrom(lines, pos, []).value
    ensures ApplyFrom(changed, |prefix|, Invert([], |prefix| - pos)) == Success(lines[pos..])
  {
    assert changed[|prefix|..] == lines[pos..];
  }

  lemma {:induction false} InverseFrom(lines: seq<string>, pos: nat, hunks: seq<Hunk>, prefix: seq<string>,
                                       changed: seq<string>)
    requires pos <= |lines| && AllConsistent(hunks)
    requires ApplyFrom(lines, pos, hunks).Success?
    requires changed == prefix + ApplyFrom(lines, pos, hunks).value
    ensures ApplyFrom(changed, |prefix|, Invert(hunks, |prefix| - pos)) == Success(lines[pos..])
    decreases |hunks|
  {
    hide *;
    if hunks == [] {
      InverseOfNone(lines, pos, prefix, changed);
    } else {
      var before, next, rest := ApplyFromPieces(lines, pos, hunks);
      TailConsistent(hunks);
      Regroup(prefix, before, NewSide(hunks[0].lines), rest);
      InverseFrom(lines, next, hunks[1..], prefix + before + NewSide(hunks[0].lines), changed);
      InverseGlue(hunks, pos, prefix, before, rest, lines[next..], changed);
    }
  }

  // ----- Composition -----

  function NetDelta(hunks: seq<Hunk>): int {
    if hunks == [] then 0 else hunks[0].newCount - hunks[0].oldCount + NetDelta(hunks[1..])
  }

  function Shifted(h: Hunk, delta: int): Hunk {
    h.(oldStart := h.oldStart + delta)
  }

  /** Applies the hunks one at a time, each to the result of the earlier ones. */
  function ApplyEach(lines: seq<string>, hunks: seq<Hunk>, delta: int): (r: Result<seq<string>, HunkError>)
    decreases |hunks|
  {
    if hunks == [] then Success(lines)
    else
      var next :- ApplyFrom(lines, 0, [Shifted(hunks[0], delta)]);
      ApplyEach(next, hunks[1..], delta + hunks[0].newCount - hunks[0].oldCount)
  }

  /** No hunk starts before the end of the one before it. */
  predicate Ordered(hunks: seq<Hunk>, pos: int) {
    hunks == [] || (pos <= StartIndex(hunks[0]) && Ordered(hunks[1..], StartIndex(hunks[0]) + hunks[0].oldCount))
  }

  /** The error of a body walk only depends on the lines from `pos` on. */
  lemma {:induction false} MatchBodyShift(lines: seq<string>, pos: nat, prefix: seq<string>, from: nat,
                                          body: seq<PatchLine>)
    requires from <= pos <= |lines|
    ensures
      var here, moved := MatchBody(lines, pos, body), MatchBody(prefix + lines[from..], |prefix| + pos - from, body);
      && here.Success? == moved.Success?
      && (here.Success? ==> pos <= here.value <= |lines| && moved.value == |prefix| + here.value - from)
      && (here.Failure? ==> moved.error == here.error)
    decreases |body|
  {
    if body != [] {
      if body[0].kind == Addition {
        MatchBodyShift(lines, pos, prefix, from, body[1..]);
      } else if pos < |lines| && lines[pos] == body[0].text {
        MatchBodyShift(lines, pos + 1, prefix, from, body[1..]);
      }
    }
  }

  lemma {:induction false} CutAround<T>(s: seq<T>, a: nat, b: nat, c: nat, prefix: seq<T>)
    requires a <= b <= c <= |s|
    ensures (prefix + s[a..])[0..|prefix| + b - a] == prefix + s[a..b]
    ensures (prefix + s[a..])[|prefix| + c - a..] == s[c..]
  {
  }

  lemma {:induction false} ApplyOne(file: seq<string>, h: Hunk, next: nat)
    requires 0 <= StartIndex(h) <= next <= |file|
    requires MatchBody(file, StartIndex(h), h.lines) == Success(next)
    ensures ApplyFrom(file, 0, [h]) == Success(file[0..StartIndex(h)] + NewSide(h.lines) + file[next..])
  {
    ApplyFromHead(file, 0, [h], next);
    assert [h][1..] == [];
  }

  /** One hunk applied to a file whose first lines have already been replaced by `prefix`. */
  lemma {:induction false} ApplyOneShifted(lines: seq<string>, pos: nat, prefix: seq<string>, h: Hunk,
                                           file: seq<string>)
    requires pos <= |lines| && pos <= StartIndex(h) && HeaderConsistent(h)
    requires file == prefix + lines[pos..]
    ensures
      var one := ApplyFrom(file, 0, [Shifted(h, |prefix| - pos)]);
      var start := StartIndex(h);
      if start > |lines| then one == Failure(OutsideFile)
      else
        var walk := MatchBody(lines, start, h.lines);
        if walk.Failure? then one == Failure(walk.error)
        else
          && walk.value == start + h.oldCount <= |lines|
          && one == Success((prefix + lines[pos..start]) + NewSide(h.lines) + lines[walk.value..])
  {
    var start := StartIndex(h);
    if start <= |lines| {
      MatchBodyShift(lines, start, prefix, pos, h.lines);
      MatchBodyIsBlockAt(lines, start, h.lines);
      if MatchBody(lines, start, h.lines).Success? {
        var next := start + h.oldCount;
        ApplyOne(file, Shifted(h, |prefix| - pos), |prefix| + next - pos);
        CutAround(lines, pos, start, next, prefix);
      }
    }
  }

  /**
   * Applying in one pass is applying one by one, with the same result and the same error, when the hunks are ordered.
   */
  lemma {:induction false} OnePassIsEachFrom(lines: seq<string>, pos: nat, hunks: seq<Hunk>, prefix: seq<string>)
    requires pos <= |lines| && AllConsistent(hunks) && Ordered(hunks, pos)
    ensures ApplyEach(prefix + lines[pos..], hunks, |prefix| - pos) == After(prefix, ApplyFrom(lines, pos, hunks))
    decreases |hunks|
  {
    if hunks != [] {
      var h := hunks[0];
      var start, added := StartIndex(h), NewSide(h.lines);
      assert HeaderConsistent(h);
      ApplyOneShifted(lines, pos, prefix, h, prefix + lines[pos..]);
      if start <= |lines| && MatchBody(lines, start, h.lines).Success? {
        var next := MatchBody(lines, start, h.lines).value;
        var prefix' := prefix + lines[pos..start] + added;
        OnePassIsEachFrom(lines, next, hunks[1..], prefix');
        if ApplyFrom(lines, next, hunks[1..]).Success? {
          Regroup(prefix, lines[pos..start], added, ApplyFrom(lines, next, hunks[1..]).value);
        }
      }
    }
  }

  lemma {:induction false} SuccessIsOrdered(lines: seq<string>, pos: nat, hunks: seq<Hunk>)
    requires pos <= |lines| && AllConsistent(hunks)
    requires ApplyFrom(lines, pos, hunks).Success?
    ensures Ordered(hunks, pos)
    decreases |hunks|
  {
    if hunks != [] {
      ApplyFromStep(lines, pos, hunks);
      assert HeaderConsistent(hunks[0]);
      SuccessIsOrdered(lines, StartIndex(hunks[0]) + hunks[0].oldCount, hunks[1..]);
    }
  }

  /**
   * Composition: one pass succeeds exactly when the hunks are ordered and applying them one at a time
   * succeeds, and then both give the same lines.
   */
  lemma {:induction false} HunkComposition(lines: seq<string>, hunks: seq<Hunk>, out: seq<string>)
    requires AllConsistent(hunks)
    ensures ApplyFrom(lines, 0, hunks) == Success(out)
            <==> Ordered(hunks, 0) && ApplyEach(lines, hunks, 0) == Success(out)
  {
    var none: seq<string> := [];
    assert none + lines[0..] == lines;
    if Ordered(hunks, 0) {
      OnePassIsEachFrom(lines, 0, hunks, none);
      if ApplyFrom(lines, 0, hunks).Success? {
        assert none + ApplyFrom(lines, 0, hunks).value == ApplyFrom(lines, 0, hunks).value;
      }
    } else if ApplyFrom(lines, 0, hunks).Success? {
      SuccessIsOrdered(lines, 0, hunks);
    }
  }

  /** Lines are conserved: the result has the old lines, plus what the headers add, minus what they remove. */
  lemma {:induction false} LineConservation(lines: seq<string>, pos: nat, hunks: seq<Hunk>)
    requires pos <= |lines| && AllConsistent(hunks)
    requires ApplyFrom(lines, pos, hunks).Success?
    ensures |ApplyFrom(lines, pos, hunks).value| == |lines| - pos + NetDelta(hunks)
    decreases |hunks|
  {
    if hunks != [] {
      ApplyFromStep(lines, pos, hunks);
      assert HeaderConsistent(hunks[0]);
      LineConservation(lines, StartIndex(hunks[0]) + hunks[0].oldCount, hunks[1..]);
    }
  }

  // ----- Content -----

  /** The content a hunk list makes of a file. */
  function PatchedContent(content: string, hunks: seq<Hunk>): (r: Result<string, HunkError>) {
    var lines :- ApplyFrom(Split(content), 0, hunks);
    Success(Join(lines))
  }

  lemma {:induction false} InverseOfWhole(lines: seq<string>, hunks: seq<Hunk>)
    requires AllConsistent(hunks) && ApplyFrom(lines, 0, hunks).Success?
    ensures ApplyFrom(ApplyFrom(lines, 0, hunks).value, 0, Invert(hunks, 0)) == Success(lines)
  {
    var none: seq<string> := [];
    assert none + ApplyFrom(lines, 0, hunks).value == ApplyFrom(lines, 0, hunks).value;
    assert lines[0..] == lines;
    InverseFrom(lines, 0, hunks, none, ApplyFrom(lines, 0, hunks).value);
  }

  /** Applying the swapped hunks to the patched content restores the original byte for byte. */
  lemma {:induction false} PatchInverse(content: string, hunks: seq<Hunk>)
    requires AllConsistent(hunks)
    requires ApplyFrom(Split(content), 0, hunks).Success?
    requires WellFormed(ApplyFrom(Split(content), 0, hunks).value)
    ensures PatchedContent(PatchedContent(content, hunks).value, Invert(hunks, 0)) == Success(content)
  {
    InverseOfWhole(Split(content), hunks);
    SplitOfJoin(ApplyFrom(Split(content), 0, hunks).value);
    SplitIsFaithful(content);
  }

  lemma {:induction false} NewSideStep(body: seq<PatchLine>, j: nat)
    requires j < |body|
    ensures NewSide(body[..j + 1]) == NewSide(body[..j]) + if body[j].kind == Removal then [] else [body[j].text]
    decreases j
  {
    if j == 0 {
      assert body[..1] == [body[0]] && body[..0] == [];
      assert [body[0]][1..] == [];
    } else {
      NewSideStep(body[1..], j - 1);
      assert body[..j + 1][1..] == body[1..][..j];
      assert body[..j][1..] == body[1..][..j - 1];
    }
  }

  /** Runs one hunk body over the old lines, appending to `out`. */
  method ApplyBody(lines: seq<string>, start: nat, body: seq<PatchLine>, before: seq<string>)
    returns (r: Result<nat, HunkError>, out: seq<string>)
    requires start <= |lines|
    ensures r == MatchBody(lines, start, body)
    ensures r.Success? ==> start <= r.value <= |lines| && out == before + NewSide(body)
  {
    out := before;
    var pos := start;
    for j := 0 to |body|
      invariant start <= pos <= |lines|
      invariant MatchBody(lines, start, body) == MatchBody(lines, pos, body[j..])
      invariant out == before + NewSide(body[..j])
    {
      NewSideStep(body, j);
      var line := body[j];
      match line.kind
      case Context =>
        if pos >= |lines| || lines[pos] != line.text {
          return Failure(ContextMismatch), out;
        }
        out := out + [lines[pos]];
        pos := pos + 1;
      case Removal =>
        if pos >= |lines| || lines[pos] != line.text {
          return Failure(RemovalMismatch), out;
        }
        pos := pos + 1;
      case Addition =>
        out := out + [line.text];
    }
    assert body[..|body|] == body;
    r := Success(pos);
  }

  lemma {:induction false} ApplyFromUnfold(lines: seq<string>, pos: nat, hunks: seq<Hunk>, out: seq<string>, next: nat)
    requires pos <= |lines| && hunks != []
    requires pos <= StartIndex(hunks[0]) <= next <= |lines|
    requires MatchBody(lines, StartIndex(hunks[0]), hunks[0].lines) == Success(next)
    ensures After(out, ApplyFrom(lines, pos, hunks))
            == After(out + lines[pos..StartIndex(hunks[0])] + NewSide(hunks[0].lines),
                     ApplyFrom(lines, next, hunks[1..]))
  {
    ApplyFromHead(lines, pos, hunks, next);
    if ApplyFrom(lines, next, hunks[1..]).Success? {
      Regroup(out, lines[pos..StartIndex(hunks[0])], NewSide(hunks[0].lines), ApplyFrom(lines, next, hunks[1..]).value);
    }
  }

  /** The interpreter: one pass over the hunks, copying untouched lines and running each body. */
  method ApplyPatchHunks(content: string, hunks: seq<Hunk>) returns (r: Result<string, HunkError>)
    ensures r == PatchedContent(content, hunks)
  {
    var lines := SplitLines(content);
    var out: seq<string> := [];
    var pos := 0;
    assert After([], ApplyFrom(lines, 0, hunks)) == ApplyFrom(lines, 0, hunks) by {
      if ApplyFrom(lines, 0, hunks).Success? {
        var v := ApplyFrom(lines, 0, hunks).value;
        assert [] + v == v;
      }
    }
    for i := 0 to |hunks|
      invariant 0 <= pos <= |lines|
      invariant ApplyFrom(lines, 0, hunks) == After(out, ApplyFrom(lines, pos, hunks[i..]))
    {
      var start := StartIndex(hunks[i]);
      assert hunks[i..][0] == hunks[i] && hunks[i..][1..] == hunks[i + 1..];
      if start < pos || start > |lines| {
        return Failure(OutsideFile);
      }
      var copied := out + lines[pos..start];
      var next, out' := ApplyBody(lines, start, hunks[i].lines, copied);
      if next.Failure? {
        return Failure(next.error);
      }
      ApplyFromUnfold(lines, pos, hunks[i..], out, next.value);
      out, pos := out', next.value;
    }
    out := out + lines[pos..];
    var text := "";
    for k := 0 to |out|
      invariant text == Join(out[..k])
    {
      JoinLast(out, k);
      text := text + out[k];
    }
    assert out[..|out|] == out;
    r := Success(text);
  }
}
