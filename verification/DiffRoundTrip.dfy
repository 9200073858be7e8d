/** A printer for parsed patches, and the proof that reading back what it prints gives the same patch files. */
module DiffRoundTrip {
  import opened Wrappers
  import opened Lines
  import opened Text
  import opened Hunks
  import opened UnifiedDiff

  // ----- What can be printed -----

  /** One line ending in its only newline, or a newline-less line that does not end in a carriage return. */
  predicate PrintableText(text: string) {
    && (forall k :: 0 <= k < |text| - 1 ==> text[k] != '\n')
    && (text != "" && !IsTerminated(text) ==> text[|text| - 1] != '\r')
  }

  predicate PrintableBody(body: seq<PatchLine>) {
    forall i :: 0 <= i < |body| ==> PrintableText(body[i].text)
  }

  predicate PrintableNumber(n: int) {
    0 <= n <= MAX_INT
  }

  predicate PrintableHunk(h: Hunk) {
    && HeaderConsistent(h) && PrintableBody(h.lines)
    && PrintableNumber(h.oldStart) && PrintableNumber(h.oldCount)
    && PrintableNumber(h.newStart) && PrintableNumber(h.newCount)
  }

  predicate AllPrintable(hunks: seq<Hunk>) {
    forall i :: 0 <= i < |hunks| ==> PrintableHunk(hunks[i])
  }

  /** A clean path without white space, or the empty path of /dev/null. */
  predicate PrintablePath(path: string, devNull: bool, lib: PathLibrary) {
    if devNull then path == "" else path != "" && NoSpaces(path) && lib.clean(path) == path
  }

  predicate PrintableFile(f: PatchFile, lib: PathLibrary) {
    && PrintablePath(f.oldPath, f.oldDevNull, lib) && PrintablePath(f.newPath, f.newDevNull, lib)
    && (if f.hasNewMode then f.sawModeMetadata && f.newMode in {MODE_REGULAR, MODE_EXECUTABLE} else f.newMode == 0)
    && f.hunks != [] && AllPrintable(f.hunks)
  }

  predicate AllFilesPrintable(files: seq<PatchFile>, lib: PathLibrary) {
    forall i :: 0 <= i < |files| ==> PrintableFile(files[i], lib)
  }

  predicate PrintablePatch(files: seq<PatchFile>, lib: PathLibrary) {
    files != [] && AllFilesPrintable(files, lib)
  }

  // ----- The printer -----

  function KindMark(kind: LineKind): char {
    match kind case Context => ' ' case Removal => '-' case Addition => '+'
  }

  function PrintLine(line: PatchLine): seq<string> {
    if IsTerminated(line.text) then [[KindMark(line.kind)] + line.text]
    else [[KindMark(line.kind)] + (line.text + "\n"), NO_NEWLINE + "\n"]
  }

  function PrintBody(body: seq<PatchLine>): seq<string> {
    if body == [] then [] else PrintLine(body[0]) + PrintBody(body[1..])
  }

  /** A range of a hunk header, followed by `rest`. */
  function PrintRange(start: nat, count: nat, rest: string): string {
    PrintInt(start) + ("," + (PrintInt(count) + rest))
  }

  function PrintHunkHeader(h: Hunk): string
    requires PrintableHunk(h)
  {
    "@@ -" + PrintRange(h.oldStart, h.oldCount, " +" + PrintRange(h.newStart, h.newCount, " @@"))
  }

  function PrintHunk(h: Hunk): seq<string>
    requires PrintableHunk(h)
  {
    [PrintHunkHeader(h) + "\n"] + PrintBody(h.lines)
  }

  function PrintHunks(hunks: seq<Hunk>): seq<string>
    requires AllPrintable(hunks)
  {
    if hunks == [] then [] else PrintHunk(hunks[0]) + PrintHunks(hunks[1..])
  }

  function PathToken(path: string, devNull: bool): string {
    if devNull then "/dev/null" else "a/" + path
  }

  /** The git header names the surviving path on both sides. */
  function PrintDiffHeader(f: PatchFile): string {
    var old_ := PathToken(if f.oldDevNull then f.newPath else f.oldPath, f.oldDevNull && f.newDevNull);
    var new_ := PathToken(if f.newDevNull then f.oldPath else f.newPath, f.oldDevNull && f.newDevNull);
    DIFF_HEADER + (old_ + (" " + new_))
  }

  function PrintModeLines(f: PatchFile): seq<string> {
    if f.hasNewMode then ["new file mode " + (if f.newMode == MODE_REGULAR then "100644" else "100755") + "\n"]
    else if f.sawModeMetadata then ["old mode " + "100644" + "\n"]
    else []
  }

  function PrintMarkers(f: PatchFile): seq<string> {
    ["--- " + PathToken(f.oldPath, f.oldDevNull) + "\n"] + ["+++ " + PathToken(f.newPath, f.newDevNull) + "\n"]
  }

  function PrintFile(f: PatchFile, lib: PathLibrary): seq<string>
    requires PrintableFile(f, lib)
  {
    [PrintDiffHeader(f) + "\n"] + (PrintModeLines(f) + (PrintMarkers(f) + PrintHunks(f.hunks)))
  }

  function PrintFiles(files: seq<PatchFile>, lib: PathLibrary): seq<string>
    requires AllFilesPrintable(files, lib)
  {
    if files == [] then [] else PrintFile(files[0], lib) + PrintFiles(files[1..], lib)
  }

  function PrintPatch(files: seq<PatchFile>, lib: PathLibrary): string
    requires PrintablePatch(files, lib)
  {
    Join(PrintFiles(files, lib))
  }

  // ----- Hunk headers -----

  lemma {:induction false} CutPrefix(a: string, b: string)
    ensures (a + b)[..|a|] == a && (a + b)[|a|..] == b
  {
  }

  lemma {:induction false} RangeRoundTrip(start: nat, count: nat, rest: string)
    requires start <= MAX_INT && count <= MAX_INT
    requires rest != "" && !IsDigit(rest[0])
    ensures ParseRange(PrintRange(start, count, rest)) == Some((Success((start, count)), rest))
  {
    var a, b := PrintInt(start), PrintInt(count);
    var inner := b + rest;
    var after := "," + inner;
    DigitSpanOf(a, after);
    CutPrefix(a, after);
    CutPrefix(",", inner);
    DigitSpanOf(b, rest);
    CutPrefix(b, rest);
    ParsePrintInt(start);
    ParsePrintInt(count);
  }

  /** A header is read range by range. */
  lemma {:induction false} HeaderOfRanges(oldRange: string, newRange: string, a: (nat, nat), b: (nat, nat))
    requires ParseRange(oldRange) == Some((Success(a), " +" + newRange))
    requires ParseRange(newRange) == Some((Success(b), " @@"))
    ensures ParseHunkHeader("@@ -" + oldRange) == Success(Hunk(a.0, a.1, b.0, b.1, []))
  {
    hide ParseRange;
    CutPrefix("@@ -", oldRange);
    CutPrefix(" +", newRange);
    assert " @@" <= " @@";
  }

  lemma {:induction false} HunkHeaderRoundTrip(h: Hunk)
    requires PrintableHunk(h)
    ensures ParseHunkHeader(PrintHunkHeader(h)) == Success(h.(lines := []))
  {
    hide ParseRange, ParseHunkHeader, PrintRange, PrintableBody, HeaderConsistent;
    var newRange := PrintRange(h.newStart, h.newCount, " @@");
    var oldRange := PrintRange(h.oldStart, h.oldCount, " +" + newRange);
    RangeRoundTrip(h.newStart, h.newCount, " @@");
    RangeRoundTrip(h.oldStart, h.oldCount, " +" + newRange);
    HeaderOfRanges(oldRange, newRange, (h.oldStart, h.oldCount), (h.newStart, h.newCount));
  }

  // ----- Hunk bodies -----

  /** Whatever follows a printed hunk ends it. */
  predicate AtBoundary(rest: seq<string>) {
    rest == [] || EndsHunk(rest[0])
  }

  /** A printed body line is never a boundary nor a marker, whatever its text looks like. */
  lemma {:induction false} BodyLineIsPlain(mark: char, text: string)
    requires mark in " -+"
    ensures !EndsHunk([mark] + text)
    ensures TrimLineEnding([mark] + text) != NO_NEWLINE
  {
    var line := [mark] + text;
    assert line[0] == mark;
    assert TrimLineEnding(line) == "" || TrimLineEnding(line)[0] == mark;
    assert DIFF_HEADER[0] == 'd' && NO_NEWLINE[0] == '\\' && "@@ "[0] == '@';
  }

  lemma {:induction false} MarkerIsMarker()
    ensures !EndsHunk(NO_NEWLINE + "\n")
    ensures TrimLineEnding(NO_NEWLINE + "\n") == NO_NEWLINE
  {
    assert NonBlankEnds(NO_NEWLINE);
    TrimSpaceOfLine(NO_NEWLINE);
    assert (NO_NEWLINE + "\n")[0] == '\\';
  }

  lemma {:induction false} CutRestoresText(done: seq<PatchLine>, line: PatchLine)
    requires PrintableText(line.text) && !IsTerminated(line.text)
    ensures CutLastEnding(done + [PatchLine(line.kind, line.text + "\n")]) == done + [line]
  {
    assert TrimSuffix(line.text + "\n", '\n') == line.text;
    assert TrimLineEnding(line.text + "\n") == line.text;
  }

  lemma {:induction false} ConsTwo<T>(x: T, y: T, rest: seq<T>)
    ensures [x, y] + rest == [x] + ([y] + rest)
  {
  }

  lemma {:induction false} ConsParts<T>(x: T, tail: seq<T>, rest: seq<T>)
    ensures (([x] + tail) + rest)[0] == x
    ensures (([x] + tail) + rest)[1..] == tail + rest
  {
  }

  lemma {:induction false} ParseBodyCons(mark: char, text: string, rest: seq<string>, done: seq<PatchLine>)
    requires mark in " -+"
    ensures ParseBody([[mark] + text] + rest, done) == ParseBody(rest, done + [PatchLine(ParseKind(mark).value, text)])
  {
    var line := [mark] + text;
    var lines := [line] + rest;
    BodyLineIsPlain(mark, text);
    CutPrefix([mark], text);
    assert lines[0] == line && lines[1..] == rest;
  }

  lemma {:induction false} ParseBodyMarker(rest: seq<string>, done: seq<PatchLine>)
    ensures ParseBody([NO_NEWLINE + "\n"] + rest, done) == ParseBody(rest, CutLastEnding(done))
  {
    var lines := [NO_NEWLINE + "\n"] + rest;
    MarkerIsMarker();
    assert lines[0] == NO_NEWLINE + "\n" && lines[1..] == rest;
  }

  lemma {:induction false} ParseUnterminated(line: PatchLine, rest: seq<string>, done: seq<PatchLine>)
    requires PrintableText(line.text) && !IsTerminated(line.text)
    ensures ParseBody(PrintLine(line) + rest, done) == ParseBody(rest, done + [line])
  {
    hide ParseBody;
    var mark, text, marker := KindMark(line.kind), line.text + "\n", NO_NEWLINE + "\n";
    ConsTwo([mark] + text, marker, rest);
    ParseBodyCons(mark, text, [marker] + rest, done);
    ParseBodyMarker(rest, done + [PatchLine(line.kind, text)]);
    CutRestoresText(done, line);
  }

  lemma {:induction false} ParseTerminated(line: PatchLine, rest: seq<string>, done: seq<PatchLine>)
    requires IsTerminated(line.text)
    ensures ParseBody(PrintLine(line) + rest, done) == ParseBody(rest, done + [line])
  {
    hide ParseBody;
    ParseBodyCons(KindMark(line.kind), line.text, rest, done);
  }

  lemma {:induction false} ParseBodyLine(line: PatchLine, rest: seq<string>, done: seq<PatchLine>)
    requires PrintableText(line.text)
    ensures ParseBody(PrintLine(line) + rest, done) == ParseBody(rest, done + [line])
  {
    hide *;
    if IsTerminated(line.text) {
      ParseTerminated(line, rest, done);
    } else {
      ParseUnterminated(line, rest, done);
    }
  }

  lemma {:induction false} BodyRoundTrip(body: seq<PatchLine>, rest: seq<string>, done: seq<PatchLine>)
    requires PrintableBody(body) && AtBoundary(rest)
    ensures ParseBody(PrintBody(body) + rest, done) == Success(Parsed(done + body, rest))
    decreases |body|
  {
    if body == [] {
      assert PrintBody(body) + rest == rest && done + body == done;
    } else {
      hide ParseBody, PrintLine, PrintableText, EndsHunk;
      ConcatAssociative(PrintLine(body[0]), PrintBody(body[1..]), rest);
      ParseBodyLine(body[0], PrintBody(body[1..]) + rest, done);
      BodyRoundTrip(body[1..], rest, done + [body[0]]);
      ConcatAssociative(done, [body[0]], body[1..]);
      assert [body[0]] + body[1..] == body;
    }
  }

  lemma {:induction false} HunkHeaderEnds(h: Hunk)
    requires PrintableHunk(h)
    ensures NonBlankEnds(PrintHunkHeader(h))
    ensures "@@ " <= PrintHunkHeader(h)
    ensures EndsHunk(PrintHunkHeader(h) + "\n")
    ensures TrimLineEnding(PrintHunkHeader(h) + "\n") == PrintHunkHeader(h)
    ensures !(DIFF_HEADER <= PrintHunkHeader(h) + "\n")
  {
    var header := PrintHunkHeader(h);
    assert header[0] == '@' && header[1] == '@' && header[2] == ' ' && header[|header| - 1] == '@';
    assert !IsSpace('@');
    TrimSpaceOfLine(header);
    assert "@@ " <= header;
    assert (header + "\n")[0] == '@';
  }

  lemma {:induction false} ParseHunkParts(lines: seq<string>, h: Hunk, rest: seq<string>)
    requires lines != [] && HeaderConsistent(h)
    requires ParseHunkHeader(TrimLineEnding(lines[0])) == Success(h.(lines := []))
    requires ParseBody(lines[1..], []) == Success(Parsed(h.lines, rest))
    ensures ParseHunk(lines) == Success(Parsed(h, rest))
  {
  }

  lemma {:induction false} PrintableParts(h: Hunk)
    requires PrintableHunk(h)
    ensures HeaderConsistent(h) && PrintableBody(h.lines)
  {
  }

  lemma {:induction false} HunkRoundTrip(h: Hunk, rest: seq<string>)
    requires PrintableHunk(h) && AtBoundary(rest)
    ensures ParseHunk(PrintHunk(h) + rest) == Success(Parsed(h, rest))
  {
    hide ParseBody, ParseHunkHeader, ParseHunk, PrintBody, PrintHunkHeader, EndsHunk, HeaderConsistent, PrintableBody;
    HunkHeaderEnds(h);
    HunkHeaderRoundTrip(h);
    PrintableParts(h);
    ConsParts(PrintHunkHeader(h) + "\n", PrintBody(h.lines), rest);
    BodyRoundTrip(h.lines, rest, []);
    assert [] + h.lines == h.lines;
    ParseHunkParts(PrintHunk(h) + rest, h, rest);
  }

  // ----- File sections -----

  function WithHunks(s: FileState, hunks: seq<Hunk>): FileState {
    s.(file := s.file.(hunks := s.file.hunks + hunks))
  }

  lemma {:induction false} WithHunksTwice(s: FileState, hunks: seq<Hunk>)
    requires hunks != []
    ensures WithHunks(WithHunks(s, [hunks[0]]), hunks[1..]) == WithHunks(s, hunks)
  {
    ConcatAssociative(s.file.hunks, [hunks[0]], hunks[1..]);
    assert [hunks[0]] + hunks[1..] == hunks;
  }

  lemma {:induction false} HunkStepParts(lines: seq<string>, h: Hunk, rest: seq<string>, s: FileState, lib: PathLibrary)
    requires lines != [] && !(DIFF_HEADER <= lines[0]) && OpensHunk(TrimLineEnding(lines[0]))
    requires ParseHunk(lines) == Success(Parsed(h, rest))
    ensures ParseFileBody(lines, s, lib) == ParseFileBody(rest, WithHunks(s, [h]), lib)
  {
  }

  lemma {:induction false} HunkStep(h: Hunk, rest: seq<string>, s: FileState, lib: PathLibrary)
    requires PrintableHunk(h) && AtBoundary(rest)
    ensures ParseFileBody(PrintHunk(h) + rest, s, lib) == ParseFileBody(rest, WithHunks(s, [h]), lib)
  {
    HunkHeaderEnds(h);
    HunkRoundTrip(h, rest);
    ConsParts(PrintHunkHeader(h) + "\n", PrintBody(h.lines), rest);
    HunkStepParts(PrintHunk(h) + rest, h, rest, s, lib);
  }

  lemma {:induction false} HeaderEndsHunk(rest: seq<string>)
    requires rest == [] || DIFF_HEADER <= rest[0]
    ensures AtBoundary(rest)
  {
  }

  lemma {:induction false} HeadOfFirst<T>(x: T, a: seq<T>, b: seq<T>, c: seq<T>)
    ensures ((([x] + a) + b) + c)[0] == x
  {
  }

  lemma {:induction false} PrintedHunksHead(hunks: seq<Hunk>, rest: seq<string>)
    requires hunks != [] && AllPrintable(hunks)
    ensures PrintHunks(hunks) + rest != [] && (PrintHunks(hunks) + rest)[0] == PrintHunkHeader(hunks[0]) + "\n"
  {
    hide PrintHunkHeader, PrintBody, PrintableHunk;
    HeadOfFirst(PrintHunkHeader(hunks[0]) + "\n", PrintBody(hunks[0].lines), PrintHunks(hunks[1..]), rest);
  }

  lemma {:induction false} PrintedHunksStart(hunks: seq<Hunk>, rest: seq<string>)
    requires hunks != [] && AllPrintable(hunks)
    ensures AtBoundary(PrintHunks(hunks) + rest)
  {
    hide PrintHunkHeader, PrintHunks, PrintableHunk, EndsHunk;
    HunkHeaderEnds(hunks[0]);
    PrintedHunksHead(hunks, rest);
  }

  lemma {:induction false} HunksRoundTrip(hunks: seq<Hunk>, rest: seq<string>, s: FileState, lib: PathLibrary)
    requires AllPrintable(hunks)
    requires rest == [] || DIFF_HEADER <= rest[0]
    ensures ParseFileBody(PrintHunks(hunks) + rest, s, lib) == ParseFileBody(rest, WithHunks(s, hunks), lib)
    decreases |hunks|
  {
    if hunks == [] {
      assert PrintHunks(hunks) + rest == rest && s.file.hunks + hunks == s.file.hunks;
    } else {
      var h, others := hunks[0], hunks[1..];
      hide ParseFileBody, PrintHunk, PrintableHunk, EndsHunk;
      ConcatAssociative(PrintHunk(h), PrintHunks(others), rest);
      if others != [] {
        PrintedHunksStart(others, rest);
      } else {
        assert PrintHunks(others) + rest == rest;
        HeaderEndsHunk(rest);
      }
      HunkStep(h, PrintHunks(others) + rest, s, lib);
      HunksRoundTrip(others, rest, WithHunks(s, [h]), lib);
      WithHunksTwice(s, hunks);
    }
  }

  lemma {:induction false} PathTokenEnds(path: string, devNull: bool, lib: PathLibrary)
    requires PrintablePath(path, devNull, lib)
    ensures NonBlankEnds(PathToken(path, devNull)) && NoSpaces(PathToken(path, devNull))
  {
    hide IsSpace;
    PlainTokens();
    if !devNull {
      NoSpacesAppend("a/", path);
    }
  }

  lemma {:induction false} PlainTokens()
    ensures NoSpaces("/dev/null") && NoSpaces("a/")
  {
  }

  lemma {:induction false} NoSpacesAppend(a: string, b: string)
    requires NoSpaces(a) && NoSpaces(b) && a != "" && b != ""
    ensures NoSpaces(a + b) && NonBlankEnds(a + b)
  {
    hide IsSpace;
    assert (a + b)[0] == a[0] && (a + b)[|a + b| - 1] == b[|b| - 1];
  }

  lemma {:induction false} TokenIsItsMarkerValue(token: string)
    requires NonBlankEnds(token) && NoSpaces(token) && token[0] != '"'
    ensures PathMarkerValue(token) == token
  {
    TrimSpaceOfLine(token);
    BlankIndexOf(token, "");
    assert token + "" == token && token[..|token|] == token;
  }

  lemma {:induction false} PathRoundTrip(path: string, devNull: bool, lib: PathLibrary)
    requires PrintablePath(path, devNull, lib)
    ensures PathMarkerValue(PathToken(path, devNull)) == PathToken(path, devNull)
    ensures ParsePath(PathToken(path, devNull), lib) == Success((path, devNull))
  {
    var token := PathToken(path, devNull);
    PathTokenEnds(path, devNull, lib);
    TokenIsItsMarkerValue(token);
    if !devNull {
      CutPrefix("a/", path);
      assert token[0] == 'a';
    }
  }

  lemma {:induction false} HeadDiffers(prefix: string, line: string)
    requires prefix != "" && line != "" && prefix[0] != line[0]
    ensures !(prefix <= line)
  {
  }

  /** A header line that is read as itself: not a hunk, not the next file. */
  predicate PlainHeaderLine(line: string) {
    TrimLineEnding(line + "\n") == line && !(DIFF_HEADER <= line + "\n") && !OpensHunk(line)
  }

  /** The header lines the printer uses are told apart by how they start. */
  lemma {:induction false} ClassifyPrinted(line: string)
    ensures "--- " <= line ==> Classify(line) == OldMarker
    ensures "+++ " <= line ==> Classify(line) == NewMarker
    ensures "new file mode " <= line ==> Classify(line) == NewFileMode
    ensures "old mode " <= line ==> Classify(line) == OldMode
  {
    if line != "" && line[0] in "-+no" {
      HeadDiffers("rename from ", line);
      HeadDiffers("rename to ", line);
      HeadDiffers("copy from ", line);
      HeadDiffers("copy to ", line);
      HeadDiffers("GIT binary patch", line);
      HeadDiffers("Binary files ", line);
      HeadDiffers("deleted file mode ", line);
      if line[0] != 'n' {
        HeadDiffers("new file mode ", line);
        HeadDiffers("new mode ", line);
      }
      if line[0] != 'o' {
        HeadDiffers("old mode ", line);
      }
      if line[0] != '-' {
        HeadDiffers("--- ", line);
      }
    }
  }

  lemma {:induction false} HeaderStep(line: string, rest: seq<string>, s: FileState, s': FileState, lib: PathLibrary)
    requires PlainHeaderLine(line) && ParseFileLine(line, s, lib) == Success(s')
    ensures ParseFileBody([line + "\n"] + rest, s, lib) == ParseFileBody(rest, s', lib)
  {
    var lines := [line + "\n"] + rest;
    assert lines[0] == line + "\n" && lines[1..] == rest;
  }

  lemma {:induction false} MarkerLine(prefix: string, path: string, devNull: bool, lib: PathLibrary)
    requires prefix in ["--- ", "+++ "]
    requires PrintablePath(path, devNull, lib)
    ensures
      var line := prefix + PathToken(path, devNull);
      PlainHeaderLine(line) && line[4..] == PathToken(path, devNull) && line[0] == prefix[0]
  {
    var token := PathToken(path, devNull);
    var line := prefix + token;
    PathTokenEnds(path, devNull, lib);
    assert line[|line| - 1] == token[|token| - 1] && line[0] == prefix[0];
    assert !IsSpace('-') && !IsSpace('+');
    TrimSpaceOfLine(line);
    assert (line + "\n")[0] == line[0];
  }

  lemma {:induction false} OldMarkerStep(f: PatchFile, rest: seq<string>, s: FileState, lib: PathLibrary)
    requires PrintablePath(f.oldPath, f.oldDevNull, lib)
    ensures ParseFileBody(["--- " + PathToken(f.oldPath, f.oldDevNull) + "\n"] + rest, s, lib)
            == ParseFileBody(rest, FileState(s.file.(oldPath := f.oldPath, oldDevNull := f.oldDevNull), true, s.sawNew),
                             lib)
  {
    hide ParseFileBody, PlainHeaderLine, Classify, ParsePath, PathMarkerValue;
    var line := "--- " + PathToken(f.oldPath, f.oldDevNull);
    MarkerLine("--- ", f.oldPath, f.oldDevNull, lib);
    PathRoundTrip(f.oldPath, f.oldDevNull, lib);
    ClassifyPrinted(line);
    HeaderStep(line, rest, s, FileState(s.file.(oldPath := f.oldPath, oldDevNull := f.oldDevNull), true, s.sawNew),
               lib);
  }

  lemma {:induction false} NewMarkerStep(f: PatchFile, rest: seq<string>, s: FileState, lib: PathLibrary)
    requires PrintablePath(f.newPath, f.newDevNull, lib)
    ensures ParseFileBody(["+++ " + PathToken(f.newPath, f.newDevNull) + "\n"] + rest, s, lib)
            == ParseFileBody(rest, FileState(s.file.(newPath := f.newPath, newDevNull := f.newDevNull), s.sawOld, true),
                             lib)
  {
    hide ParseFileBody, PlainHeaderLine, Classify, ParsePath, PathMarkerValue;
    var line := "+++ " + PathToken(f.newPath, f.newDevNull);
    MarkerLine("+++ ", f.newPath, f.newDevNull, lib);
    PathRoundTrip(f.newPath, f.newDevNull, lib);
    ClassifyPrinted(line);
    HeaderStep(line, rest, s, FileState(s.file.(newPath := f.newPath, newDevNull := f.newDevNull), s.sawOld, true),
               lib);
  }

  function WithMode(s: FileState, f: PatchFile): FileState {
    if f.hasNewMode then s.(file := s.file.(newMode := f.newMode, hasNewMode := true, sawModeMetadata := true))
    else if f.sawModeMetadata then s.(file := s.file.(sawModeMetadata := true))
    else s
  }

  lemma {:induction false} ModeLine(prefix: string, digits: string)
    requires prefix != "" && NonBlankEnds(digits) && !IsSpace(prefix[0]) && prefix[0] != 'd' && prefix[0] != '@'
    ensures PlainHeaderLine(prefix + digits) && TrimSpace((prefix + digits)[|prefix|..]) == digits
  {
    var line := prefix + digits;
    assert line[0] == prefix[0] && line[|line| - 1] == digits[|digits| - 1];
    TrimSpaceOfLine(line);
    TrimSpaceOfLine(digits);
    CutPrefix(prefix, digits);
    HeadDiffers(DIFF_HEADER, line + "\n");
    HeadDiffers("@@ ", line);
  }

  lemma {:induction false} ModeDigits()
    ensures NonBlankEnds("100644") && NonBlankEnds("100755") && !IsSpace('n') && !IsSpace('o')
  {
    assert !IsSpace('1') && !IsSpace('4') && !IsSpace('5');
  }

  lemma {:induction false} NewModeReads(mode: nat, s: FileState, lib: PathLibrary)
    requires mode in {MODE_REGULAR, MODE_EXECUTABLE}
    ensures
      var line := "new file mode " + if mode == MODE_REGULAR then "100644" else "100755";
      PlainHeaderLine(line)
      && ParseFileLine(line, s, lib) ==
         Success(s.(file := s.file.(newMode := mode, hasNewMode := true, sawModeMetadata := true)))
  {
    hide PlainHeaderLine, Classify, TrimSpace, IsSpace, NonBlankEnds;
    ModeDigits();
    if mode == MODE_REGULAR {
      ModeLine("new file mode ", "100644");
      ClassifyPrinted("new file mode " + "100644");
    } else {
      ModeLine("new file mode ", "100755");
      ClassifyPrinted("new file mode " + "100755");
    }
  }

  lemma {:induction false} OldModeReads(s: FileState, lib: PathLibrary)
    ensures
      var line := "old mode " + "100644";
      PlainHeaderLine(line) && ParseFileLine(line, s, lib) == Success(s.(file := s.file.(sawModeMetadata := true)))
  {
    hide PlainHeaderLine, Classify, TrimSpace, IsSpace, NonBlankEnds;
    ModeDigits();
    ModeLine("old mode ", "100644");
    ClassifyPrinted("old mode " + "100644");
  }

  lemma {:induction false} ModeStep(f: PatchFile, rest: seq<string>, s: FileState, lib: PathLibrary)
    requires f.hasNewMode ==> f.newMode in {MODE_REGULAR, MODE_EXECUTABLE}
    ensures ParseFileBody(PrintModeLines(f) + rest, s, lib) == ParseFileBody(rest, WithMode(s, f), lib)
  {
    hide ParseFileBody, ParseFileLine, PlainHeaderLine;
    if f.hasNewMode {
      NewModeReads(f.newMode, s, lib);
      HeaderStep("new file mode " + (if f.newMode == MODE_REGULAR then "100644" else "100755"), rest, s, WithMode(s, f),
                 lib);
    } else if f.sawModeMetadata {
      OldModeReads(s, lib);
      HeaderStep("old mode " + "100644", rest, s, WithMode(s, f), lib);
    } else {
      assert PrintModeLines(f) + rest == rest;
    }
  }

  lemma {:induction false} MarkersStep(f: PatchFile, rest: seq<string>, s: FileState, lib: PathLibrary)
    requires PrintablePath(f.oldPath, f.oldDevNull, lib) && PrintablePath(f.newPath, f.newDevNull, lib)
    ensures ParseFileBody(PrintMarkers(f) + rest, s, lib)
            == ParseFileBody(rest, FileState(s.file.(oldPath := f.oldPath, oldDevNull := f.oldDevNull,
                                                     newPath := f.newPath, newDevNull := f.newDevNull), true, true),
                                                                lib)
  {
    var a, b := ["--- " + PathToken(f.oldPath, f.oldDevNull) + "\n"],
                ["+++ " + PathToken(f.newPath, f.newDevNull) + "\n"];
    ConcatAssociative(a, b, rest);
    OldMarkerStep(f, b + rest, s, lib);
    NewMarkerStep(f, rest, FileState(s.file.(oldPath := f.oldPath, oldDevNull := f.oldDevNull), true, s.sawNew), lib);
  }

  // ----- Git headers -----

  predicate HeaderToken(token: string) {
    NonBlankEnds(token) && NoSpaces(token) && token[0] != '"'
  }

  lemma {:induction false} ScanPlainToken(token: string, rest: string)
    requires HeaderToken(token)
    requires rest == "" || (rest[0] == ' ' && !IsSpace(rest[|rest| - 1]))
    ensures ScanToken(token + rest) == Some((token, rest))
  {
    var value := token + rest;
    assert value[0] == token[0] && value[|value| - 1] == if rest == "" then token[|token| - 1] else rest[|rest| - 1];
    TrimSpaceOfLine(value);
    BlankIndexOf(token, rest);
    CutPrefix(token, rest);
  }

  lemma {:induction false} TrimLeadingBlank(s: string)
    requires NonBlankEnds(s)
    ensures TrimSpace(" " + s) == s
  {
    assert IsSpace(' ') && (" " + s)[1..] == s;
    TrimSpaceOfLine(s);
  }

  lemma {:induction false} DiffHeaderRoundTrip(a: string, b: string)
    requires HeaderToken(a) && HeaderToken(b)
    ensures DIFF_HEADER <= DIFF_HEADER + (a + (" " + b)) + "\n"
    ensures ParseDiffHeader(DIFF_HEADER + (a + (" " + b)) + "\n") == Success((a, b))
  {
    hide ScanToken, TrimSpace, NoSpaces, IsSpace;
    var tail := " " + b;
    var tokens := a + tail;
    var line := DIFF_HEADER + tokens + "\n";
    assert line == DIFF_HEADER + (tokens + "\n");
    CutPrefix(DIFF_HEADER, tokens + "\n");
    assert tokens[0] == a[0] && tokens[|tokens| - 1] == b[|b| - 1];
    TrimSpaceOfLine(tokens);
    ScanPlainToken(a, tail);
    ScanSecondToken(b);
  }

  lemma {:induction false} ScanSecondToken(b: string)
    requires HeaderToken(b)
    ensures ScanToken(" " + b) == Some((b, "")) && TrimSpace("") == ""
  {
    TrimLeadingBlank(b);
    ScanPlainToken(b, "");
    assert b + "" == b;
    TrimSpaceOfLine(b);
  }

  lemma {:induction false} TokenReads(path: string, devNull: bool, lib: PathLibrary)
    requires PrintablePath(path, devNull, lib)
    ensures HeaderToken(PathToken(path, devNull))
    ensures ParsePath(PathToken(path, devNull), lib).Success?
  {
    PathTokenEnds(path, devNull, lib);
    PathRoundTrip(path, devNull, lib);
  }

  lemma {:induction false} InitialFileReads(f: PatchFile, lib: PathLibrary) returns (s: FileState)
    requires PrintableFile(f, lib)
    ensures DIFF_HEADER <= PrintDiffHeader(f) + "\n"
    ensures InitialFile(PrintDiffHeader(f) + "\n", lib) == Success(s)
    ensures s.file.hunks == [] && s.file.newMode == 0 && !s.file.hasNewMode && !s.file.sawModeMetadata
  {
    var both := f.oldDevNull && f.newDevNull;
    var oldName := if f.oldDevNull then f.newPath else f.oldPath;
    var newName := if f.newDevNull then f.oldPath else f.newPath;
    TokenReads(oldName, both, lib);
    TokenReads(newName, both, lib);
    DiffHeaderRoundTrip(PathToken(oldName, both), PathToken(newName, both));
    s := InitialFile(PrintDiffHeader(f) + "\n", lib).value;
  }

  // ----- Whole patches -----

  lemma {:induction false} SectionRoundTrip(f: PatchFile, rest: seq<string>, s: FileState, lib: PathLibrary)
    requires PrintableFile(f, lib)
    requires rest == [] || DIFF_HEADER <= rest[0]
    requires s.file.hunks == [] && s.file.newMode == 0 && !s.file.hasNewMode && !s.file.sawModeMetadata
    ensures ParseFileBody(PrintModeLines(f) + (PrintMarkers(f) + (PrintHunks(f.hunks) + rest)), s, lib) ==
            Success(Parsed(f, rest))
  {
    var hunks := PrintHunks(f.hunks) + rest;
    ModeStep(f, PrintMarkers(f) + hunks, s, lib);
    MarkersStep(f, hunks, WithMode(s, f), lib);
    var s' := FileState(f.(hunks := []), true, true);
    HunksRoundTrip(f.hunks, rest, s', lib);
    assert [] + f.hunks == f.hunks;
    assert WithHunks(s', f.hunks).file == f;
  }

  lemma {:induction false} ParseFileParts(lines: seq<string>, s: FileState, f: PatchFile, rest: seq<string>,
                                          lib: PathLibrary)
    requires lines != [] && DIFF_HEADER <= lines[0]
    requires InitialFile(lines[0], lib) == Success(s)
    requires ParseFileBody(lines[1..], s, lib) == Success(Parsed(f, rest))
    ensures ParseFile(lines, lib) == Success(Parsed(f, rest))
  {
  }

  lemma {:induction false} FileRoundTrip(f: PatchFile, rest: seq<string>, lib: PathLibrary)
    requires PrintableFile(f, lib)
    requires rest == [] || DIFF_HEADER <= rest[0]
    ensures
      var lines := PrintFile(f, lib) + rest;
      && DIFF_HEADER <= lines[0] && lines[0] == PrintDiffHeader(f) + "\n"
      && ParseFile(lines, lib) == Success(Parsed(f, rest))
  {
    var s := InitialFileReads(f, lib);
    var mode, markers, hunks := PrintModeLines(f), PrintMarkers(f), PrintHunks(f.hunks);
    ConsParts(PrintDiffHeader(f) + "\n", mode + (markers + hunks), rest);
    ConcatAssociative(mode, markers + hunks, rest);
    ConcatAssociative(markers, hunks, rest);
    SectionRoundTrip(f, rest, s, lib);
    ParseFileParts(PrintFile(f, lib) + rest, s, f, rest, lib);
  }

  lemma {:induction false} HeaderIsNotBlank(line: string)
    requires DIFF_HEADER <= line
    ensures TrimSpace(line) != "" && TrimSpace(line)[0] == 'd'
  {
    assert line[0] == DIFF_HEADER[0] && !IsSpace('d');
    TrimRightKeepsHead(line);
  }

  lemma {:induction false} ParseFilesStep(lines: seq<string>, done: seq<PatchFile>, f: PatchFile, rest: seq<string>,
                                          lib: PathLibrary)
    requires lines != [] && DIFF_HEADER <= lines[0]
    requires ParseFile(lines, lib) == Success(Parsed(f, rest))
    ensures ParseFiles(lines, done, lib) == ParseFiles(rest, done + [f], lib)
  {
    HeaderIsNotBlank(lines[0]);
  }

  lemma {:induction false} AppendTwice<T>(done: seq<T>, s: seq<T>)
    requires s != []
    ensures (done + [s[0]]) + s[1..] == done + s
  {
  }

  lemma {:induction false} FileStep(files: seq<PatchFile>, done: seq<PatchFile>, rest: seq<string>, lib: PathLibrary)
    requires files != [] && PrintableFile(files[0], lib)
    requires rest == [] || DIFF_HEADER <= rest[0]
    ensures
      var lines := PrintFile(files[0], lib) + rest;
      ParseFiles(lines, done, lib) == ParseFiles(rest, done + [files[0]], lib) && lines != [] && DIFF_HEADER <= lines[0]
  {
    hide ParseFiles, ParseFile, PrintFile, PrintDiffHeader;
    FileRoundTrip(files[0], rest, lib);
    ParseFilesStep(PrintFile(files[0], lib) + rest, done, files[0], rest, lib);
  }

  lemma {:induction false} FilesRoundTrip(files: seq<PatchFile>, done: seq<PatchFile>, lib: PathLibrary)
    requires AllFilesPrintable(files, lib)
    ensures ParseFiles(PrintFiles(files, lib), done, lib) == Success(done + files)
    ensures files != [] ==> PrintFiles(files, lib) != [] && DIFF_HEADER <= PrintFiles(files, lib)[0]
    decreases |files|
  {
    if files == [] {
      assert done + files == done;
    } else {
      var f, rest := files[0], PrintFiles(files[1..], lib);
      hide ParseFiles, ParseFile, PrintFile, PrintableFile, PrintDiffHeader;
      FilesRoundTrip(files[1..], done + [f], lib);
      FileStep(files, done, rest, lib);
      AppendTwice(done, files);
    }
  }

  // ----- The printed text is made of complete lines -----

  predicate NoNewline(s: string) {
    forall i :: 0 <= i < |s| ==> s[i] != '\n'
  }

  predicate CompleteLines(lines: seq<string>) {
    forall i :: 0 <= i < |lines| ==> IsLine(lines[i]) && IsTerminated(lines[i])
  }

  lemma {:induction false} NoNewlineConcat(a: string, b: string)
    requires NoNewline(a) && NoNewline(b)
    ensures NoNewline(a + b)
  {
  }

  lemma {:induction false} CompleteConcat(a: seq<string>, b: seq<string>)
    requires CompleteLines(a) && CompleteLines(b)
    ensures CompleteLines(a + b)
  {
  }

  lemma {:induction false} CompleteOne(line: string)
    requires NoNewline(line)
    ensures CompleteLines([line + "\n"])
  {
  }

  lemma {:induction false} RangeNoNewline(start: nat, count: nat, rest: string)
    requires NoNewline(rest)
    ensures NoNewline(PrintRange(start, count, rest))
  {
    assert !IsDigit('\n');
    NoNewlineConcat(PrintInt(count), rest);
    NoNewlineConcat(",", PrintInt(count) + rest);
    NoNewlineConcat(PrintInt(start), "," + (PrintInt(count) + rest));
  }

  lemma {:induction false} BodyIsComplete(body: seq<PatchLine>)
    requires PrintableBody(body)
    ensures CompleteLines(PrintBody(body))
  {
    if body != [] {
      BodyIsComplete(body[1..]);
      CompleteOne(NO_NEWLINE);
      CompleteConcat(PrintLine(body[0]), PrintBody(body[1..]));
    }
  }

  lemma {:induction false} HunksAreComplete(hunks: seq<Hunk>)
    requires AllPrintable(hunks)
    ensures CompleteLines(PrintHunks(hunks))
  {
    if hunks != [] {
      var h := hunks[0];
      RangeNoNewline(h.newStart, h.newCount, " @@");
      RangeNoNewline(h.oldStart, h.oldCount, " +" + PrintRange(h.newStart, h.newCount, " @@"));
      CompleteOne(PrintHunkHeader(h));
      BodyIsComplete(h.lines);
      CompleteConcat([PrintHunkHeader(h) + "\n"], PrintBody(h.lines));
      HunksAreComplete(hunks[1..]);
      CompleteConcat(PrintHunk(h), PrintHunks(hunks[1..]));
    }
  }

  lemma {:induction false} TokenNoNewline(path: string, devNull: bool, lib: PathLibrary)
    requires PrintablePath(path, devNull, lib)
    ensures NoNewline(PathToken(path, devNull))
  {
    PathTokenEnds(path, devNull, lib);
    assert IsSpace('\n');
  }

  lemma {:induction false} HeaderIsComplete(f: PatchFile, lib: PathLibrary)
    requires PrintableFile(f, lib)
    ensures CompleteLines([PrintDiffHeader(f) + "\n"])
  {
    var both := f.oldDevNull && f.newDevNull;
    var oldName := if f.oldDevNull then f.newPath else f.oldPath;
    var newName := if f.newDevNull then f.oldPath else f.newPath;
    TokenNoNewline(oldName, both, lib);
    TokenNoNewline(newName, both, lib);
    NoNewlineConcat(" ", PathToken(newName, both));
    NoNewlineConcat(PathToken(oldName, both), " " + PathToken(newName, both));
    NoNewlineConcat(DIFF_HEADER, PathToken(oldName, both) + (" " + PathToken(newName, both)));
    CompleteOne(PrintDiffHeader(f));
  }

  lemma {:induction false} MarkersAreComplete(f: PatchFile, lib: PathLibrary)
    requires PrintableFile(f, lib)
    ensures CompleteLines(PrintMarkers(f))
  {
    var old_, new_ := "--- " + PathToken(f.oldPath, f.oldDevNull), "+++ " + PathToken(f.newPath, f.newDevNull);
    TokenNoNewline(f.oldPath, f.oldDevNull, lib);
    TokenNoNewline(f.newPath, f.newDevNull, lib);
    CompleteOne(old_);
    CompleteOne(new_);
    CompleteConcat([old_ + "\n"], [new_ + "\n"]);
  }

  lemma {:induction false} ModeLinesAreComplete(f: PatchFile)
    ensures CompleteLines(PrintModeLines(f))
  {
    CompleteOne("new file mode " + "100644");
    CompleteOne("new file mode " + "100755");
    CompleteOne("old mode " + "100644");
  }

  lemma {:induction false} CompleteFour(a: seq<string>, b: seq<string>, c: seq<string>, d: seq<string>)
    requires CompleteLines(a) && CompleteLines(b) && CompleteLines(c) && CompleteLines(d)
    ensures CompleteLines(a + (b + (c + d)))
  {
    CompleteConcat(c, d);
    CompleteConcat(b, c + d);
    CompleteConcat(a, b + (c + d));
  }

  lemma {:induction false} FileIsComplete(f: PatchFile, lib: PathLibrary)
    requires PrintableFile(f, lib)
    ensures CompleteLines(PrintFile(f, lib))
  {
    HeaderIsComplete(f, lib);
    ModeLinesAreComplete(f);
    MarkersAreComplete(f, lib);
    HunksAreComplete(f.hunks);
    CompleteFour([PrintDiffHeader(f) + "\n"], PrintModeLines(f), PrintMarkers(f), PrintHunks(f.hunks));
  }

  lemma {:induction false} FilesAreComplete(files: seq<PatchFile>, lib: PathLibrary)
    requires AllFilesPrintable(files, lib)
    ensures CompleteLines(PrintFiles(files, lib))
  {
    if files != [] {
      FileIsComplete(files[0], lib);
      FilesAreComplete(files[1..], lib);
      CompleteConcat(PrintFile(files[0], lib), PrintFiles(files[1..], lib));
    }
  }

  lemma {:induction false} JoinHead(lines: seq<string>)
    requires lines != [] && DIFF_HEADER <= lines[0]
    ensures DIFF_HEADER <= Join(lines)
  {
  }

  /** Reading back a printed patch gives the patch files that were printed. */
  lemma {:induction false} PatchRoundTrip(files: seq<PatchFile>, lib: PathLibrary)
    requires PrintablePatch(files, lib)
    ensures ParsePatch(PrintPatch(files, lib), lib) == Success(files)
  {
    var lines := PrintFiles(files, lib);
    FilesRoundTrip(files, [], lib);
    assert [] + files == files;
    FilesAreComplete(files, lib);
    SplitOfJoin(lines);
    JoinHead(lines);
    HeaderIsNotBlank(Join(lines));
    HeadDiffers("*** Begin Patch", TrimSpace(Join(lines)));
  }
}
