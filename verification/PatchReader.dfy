/** The index loops of the patch reader, each proved to follow the grammar of UnifiedDiff. */
module PatchReader {
  import opened Wrappers
  import opened Lines
  import opened Text
  import opened Hunks
  import opened UnifiedDiff

  /** A parsed value and the index of the first line after it. */
  datatype At<T> = At(value: T, next: nat)

  ghost predicate Agrees<T>(r: Result<At<T>, ParseError>, spec: Result<Parsed<T>, ParseError>, lines: seq<string>) {
    match (r, spec)
    case (Success(at), Success(parsed)) => at.value == parsed.value && at.next <= |lines|
                                           && lines[at.next..] == parsed.rest
    case (Failure(e), Failure(e')) => e == e'
    case _ => false
  }

  lemma {:induction false} SidesStep(body: seq<PatchLine>, j: nat)
    requires j < |body|
    ensures |OldSide(body[..j + 1])| == |OldSide(body[..j])| + if body[j].kind == Addition then 0 else 1
    ensures |NewSide(body[..j + 1])| == |NewSide(body[..j])| + if body[j].kind == Removal then 0 else 1
    decreases j
  {
    if j == 0 {
      assert body[..1] == [body[0]] && [body[0]][1..] == [];
    } else {
      SidesStep(body[1..], j - 1);
      assert body[..j + 1][1..] == body[1..][..j] && body[..j][1..] == body[1..][..j - 1];
    }
  }

  method ValidatePatchHunkCounts(hunk: Hunk) returns (r: Result<Hunk, ParseError>)
    ensures r == ValidateCounts(hunk)
  {
    var oldLines, newLines := 0, 0;
    for j := 0 to |hunk.lines|
      invariant oldLines == |OldSide(hunk.lines[..j])| && newLines == |NewSide(hunk.lines[..j])|
    {
      SidesStep(hunk.lines, j);
      match hunk.lines[j].kind
      case Context => oldLines, newLines := oldLines + 1, newLines + 1;
      case Removal => oldLines := oldLines + 1;
      case Addition => newLines := newLines + 1;
    }
    assert hunk.lines[..|hunk.lines|] == hunk.lines;
    if oldLines != hunk.oldCount {
      return Failure(OldCountMismatch);
    }
    if newLines != hunk.newCount {
      return Failure(NewCountMismatch);
    }
    r := Success(hunk);
  }

  lemma {:induction false} Suffix(lines: seq<string>, i: nat)
    requires i < |lines|
    ensures lines[i..] != [] && lines[i..][0] == lines[i] && lines[i..][1..] == lines[i + 1..]
  {
  }

  /** One turn of the body loop on the lines that remain. */
  function BodyTurn(line: string, body: seq<PatchLine>): Result<seq<PatchLine>, ParseError> {
    if TrimLineEnding(line) == NO_NEWLINE then Success(CutLastEnding(body))
    else if line == "" || ParseKind(line[0]).None? then Failure(MalformedHunkLine)
    else Success(body + [PatchLine(ParseKind(line[0]).value, line[1..])])
  }

  lemma {:induction false} BodyTurnIsParseBody(lines: seq<string>, body: seq<PatchLine>)
    requires lines != [] && !EndsHunk(lines[0])
    ensures match BodyTurn(lines[0], body)
            case Success(body') => ParseBody(lines, body) == ParseBody(lines[1..], body')
            case Failure(e) => ParseBody(lines, body) == Failure(e)
  {
  }

  method ReadBodyLine(line: string, body: seq<PatchLine>) returns (r: Result<seq<PatchLine>, ParseError>)
    ensures r == BodyTurn(line, body)
  {
    if TrimLineEnding(line) == NO_NEWLINE {
      if |body| == 0 {
        return Success(body);
      }
      var last := |body| - 1;
      var cut := PatchLine(body[last].kind, TrimLineEnding(body[last].text));
      assert body[last := cut] == body[..last] + [cut];
      return Success(body[last := cut]);
    }
    if line == "" || ParseKind(line[0]).None? {
      return Failure(MalformedHunkLine);
    }
    r := Success(body + [PatchLine(ParseKind(line[0]).value, line[1..])]);
  }

  lemma {:induction false} BodyOneMore(lines: seq<string>, i: nat, body: seq<PatchLine>)
    requires i < |lines| && !EndsHunk(lines[i])
    ensures match BodyTurn(lines[i], body)
            case Success(body') => ParseBody(lines[i..], body) == ParseBody(lines[i + 1..], body')
            case Failure(e) => ParseBody(lines[i..], body) == Failure(e)
  {
    hide BodyTurn, EndsHunk, ParseBody;
    Suffix(lines, i);
    BodyTurnIsParseBody(lines[i..], body);
  }

  lemma {:induction false} BodyEnds(lines: seq<string>, i: nat, body: seq<PatchLine>)
    requires i <= |lines| && (i == |lines| || EndsHunk(lines[i]))
    ensures ParseBody(lines[i..], body) == Success(Parsed(body, lines[i..]))
  {
    hide EndsHunk;
    if i < |lines| {
      Suffix(lines, i);
    }
  }

  method ReadHunkBody(lines: seq<string>, start: nat) returns (r: Result<At<seq<PatchLine>>, ParseError>)
    requires start <= |lines|
    ensures Agrees(r, ParseBody(lines[start..], []), lines)
    ensures r.Success? ==> start <= r.value.next
  {
    hide BodyTurn, EndsHunk, ParseBody;
    var body: seq<PatchLine> := [];
    var i := start;
    while i < |lines| && !EndsHunk(lines[i])
      invariant start <= i <= |lines|
      invariant ParseBody(lines[start..], []) == ParseBody(lines[i..], body)
    {
      BodyOneMore(lines, i, body);
      var turn := ReadBodyLine(lines[i], body);
      if turn.Failure? {
        return Failure(turn.error);
      }
      body, i := turn.value, i + 1;
    }
    BodyEnds(lines, i, body);
    r := Success(At(body, i));
  }

  method ParsePatchHunk(lines: seq<string>, start: nat) returns (r: Result<At<Hunk>, ParseError>)
    requires start < |lines|
    ensures Agrees(r, ParseHunk(lines[start..]), lines)
    ensures r.Success? ==> start < r.value.next
  {
    Suffix(lines, start);
    var header := ParseHunkHeader(TrimLineEnding(lines[start]));
    if header.Failure? {
      return Failure(header.error);
    }
    var body := ReadHunkBody(lines, start + 1);
    if body.Failure? {
      return Failure(body.error);
    }
    var hunk := ValidatePatchHunkCounts(header.value.(lines := body.value.value));
    if hunk.Failure? {
      return Failure(hunk.error);
    }
    r := Success(At(hunk.value, body.value.next));
  }

  /** One turn of the section loop: a hunk or a header line. */
  function SectionTurn(lines: seq<string>, s: FileState, lib: PathLibrary): (r: Result<Parsed<FileState>, ParseError>)
    requires lines != []
    ensures r.Success? ==> |r.value.rest| < |lines|
  {
    var line := TrimLineEnding(lines[0]);
    if OpensHunk(line) then
      var hunk :- ParseHunk(lines);
      Success(Parsed(s.(file := s.file.(hunks := s.file.hunks + [hunk.value])), hunk.rest))
    else
      var s' :- ParseFileLine(line, s, lib);
      Success(Parsed(s', lines[1..]))
  }

  lemma {:induction false} SectionTurnIsParseFileBody(lines: seq<string>, s: FileState, lib: PathLibrary)
    requires lines != [] && !(DIFF_HEADER <= lines[0])
    ensures match SectionTurn(lines, s, lib)
            case Success(turn) => ParseFileBody(lines, s, lib) == ParseFileBody(turn.rest, turn.value, lib)
            case Failure(e) => ParseFileBody(lines, s, lib) == Failure(e)
  {
  }

  method ReadSection(lines: seq<string>, i: nat, s: FileState, lib: PathLibrary)
    returns (r: Result<At<FileState>, ParseError>)
    requires i < |lines|
    ensures Agrees(r, SectionTurn(lines[i..], s, lib), lines)
    ensures r.Success? ==> i < r.value.next
  {
    Suffix(lines, i);
    var line := TrimLineEnding(lines[i]);
    if OpensHunk(line) {
      var hunk := ParsePatchHunk(lines, i);
      if hunk.Failure? {
        return Failure(hunk.error);
      }
      r := Success(At(s.(file := s.file.(hunks := s.file.hunks + [hunk.value.value])), hunk.value.next));
    } else {
      var next := ParseFileLine(line, s, lib);
      if next.Failure? {
        return Failure(next.error);
      }
      r := Success(At(next.value, i + 1));
    }
  }

  method ParsePatchFile(lines: seq<string>, start: nat, lib: PathLibrary) returns (r: Result<At<PatchFile>, ParseError>)
    requires start < |lines| && DIFF_HEADER <= lines[start]
    ensures Agrees(r, ParseFile(lines[start..], lib), lines)
    ensures r.Success? ==> start < r.value.next
  {
    Suffix(lines, start);
    var initial := InitialFile(lines[start], lib);
    if initial.Failure? {
      return Failure(initial.error);
    }
    var s := initial.value;
    var i := start + 1;
    while i < |lines| && !(DIFF_HEADER <= lines[i])
      invariant start < i <= |lines|
      invariant ParseFileBody(lines[start + 1..], initial.value, lib) == ParseFileBody(lines[i..], s, lib)
    {
      Suffix(lines, i);
      SectionTurnIsParseFileBody(lines[i..], s, lib);
      var turn := ReadSection(lines, i, s, lib);
      if turn.Failure? {
        return Failure(turn.error);
      }
      s, i := turn.value.value, turn.value.next;
    }
    if i < |lines| {
      Suffix(lines, i);
    }
    var file := ValidateFile(s.file, s.sawOld, s.sawNew);
    if file.Failure? {
      return Failure(file.error);
    }
    r := Success(At(file.value, i));
  }

  method ParseUnifiedPatch(patch: string, lib: PathLibrary) returns (r: Result<seq<PatchFile>, ParseError>)
    ensures r == ParsePatch(patch, lib)
  {
    if TrimSpace(patch) == "" {
      return Failure(EmptyPatch);
    }
    if "*** Begin Patch" <= TrimSpace(patch) {
      return Failure(UnsupportedEnvelope);
    }
    var lines := SplitLines(patch);
    var files: seq<PatchFile> := [];
    var i := 0;
    assert lines[0..] == lines;
    while i < |lines|
      invariant 0 <= i <= |lines|
      invariant ParseFiles(lines, [], lib) == ParseFiles(lines[i..], files, lib)
    {
      Suffix(lines, i);
      if TrimSpace(lines[i]) == "" {
        i := i + 1;
        continue;
      }
      if !(DIFF_HEADER <= lines[i]) {
        return Failure(ExpectedDiffHeader);
      }
      var file := ParsePatchFile(lines, i, lib);
      if file.Failure? {
        return Failure(file.error);
      }
      files := files + [file.value.value];
      i := file.value.next;
    }
    if files == [] {
      return Failure(NoFileChanges);
    }
    r := Success(files);
  }

  // ----- What every accepted patch looks like -----

  predicate Applicable(f: PatchFile) {
    f.hunks != [] && AllConsistent(f.hunks)
  }

  lemma {:induction false} FileBodyIsApplicable(lines: seq<string>, s: FileState, lib: PathLibrary)
    requires AllConsistent(s.file.hunks)
    requires ParseFileBody(lines, s, lib).Success?
    ensures Applicable(ParseFileBody(lines, s, lib).value.value)
    decreases |lines|
  {
    if lines != [] && !(DIFF_HEADER <= lines[0]) {
      var line := TrimLineEnding(lines[0]);
      if OpensHunk(line) {
        var hunk := ParseHunk(lines).value;
        FileBodyIsApplicable(hunk.rest, s.(file := s.file.(hunks := s.file.hunks + [hunk.value])), lib);
      } else {
        FileBodyIsApplicable(lines[1..], ParseFileLine(line, s, lib).value, lib);
      }
    }
  }

  ghost predicate AllApplicable(files: seq<PatchFile>) {
    forall i :: 0 <= i < |files| ==> Applicable(files[i])
  }

  lemma {:induction false} OneMoreApplicable(files: seq<PatchFile>, f: PatchFile)
    requires AllApplicable(files) && Applicable(f)
    ensures AllApplicable(files + [f])
  {
    hide Applicable;
  }

  lemma {:induction false} FilesAreApplicable(lines: seq<string>, files: seq<PatchFile>, lib: PathLibrary)
    requires AllApplicable(files)
    requires ParseFiles(lines, files, lib).Success?
    ensures AllApplicable(ParseFiles(lines, files, lib).value)
    decreases |lines|
  {
    hide AllApplicable, Applicable, TrimSpace, ParseFileBody, InitialFile;
    if lines != [] {
      if TrimSpace(lines[0]) == "" {
        FilesAreApplicable(lines[1..], files, lib);
      } else {
        InitialIsConsistent(lines[0], lib);
        FileBodyIsApplicable(lines[1..], InitialFile(lines[0], lib).value, lib);
        var file := ParseFile(lines, lib).value;
        OneMoreApplicable(files, file.value);
        FilesAreApplicable(file.rest, files + [file.value], lib);
      }
    }
  }

  lemma {:induction false} InitialIsConsistent(header: string, lib: PathLibrary)
    requires DIFF_HEADER <= header
    ensures InitialFile(header, lib).Success? ==> AllConsistent(InitialFile(header, lib).value.file.hunks)
  {
  }

  /** Every file of an accepted patch has hunks, and each hunk's header counts its own lines. */
  lemma {:induction false} AcceptedPatchIsApplicable(patch: string, lib: PathLibrary)
    requires ParsePatch(patch, lib).Success?
    ensures forall i :: 0 <= i < |ParsePatch(patch, lib).value| ==> Applicable(ParsePatch(patch, lib).value[i])
  {
    FilesAreApplicable(Split(patch), [], lib);
  }
}
