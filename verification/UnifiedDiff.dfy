/** The git-style unified diff: the reader's grammar, its index loops, and the printer it inverts. */
module UnifiedDiff {
  import opened Wrappers
  import opened Lines
  import opened Text
  import opened Hunks

  const MODE_REGULAR: nat := 420     // 0o644
  const MODE_EXECUTABLE: nat := 493  // 0o755

  const DIFF_HEADER := "diff --git "
  const NO_NEWLINE := "\\ No newline at end of file"

  datatype PatchFile = PatchFile(
    oldPath: string, newPath: string, oldDevNull: bool, newDevNull: bool,
    newMode: nat, hasNewMode: bool, sawModeMetadata: bool, hunks: seq<Hunk>)

  datatype ParseError =
    | EmptyPatch | UnsupportedEnvelope | ExpectedDiffHeader | MalformedDiffHeader | PathRequired | BadQuotedPath
    | RenameUnsupported | CopyUnsupported | BinaryUnsupported | BadFileMode
    | MalformedHunkHeader | RangeTooLarge | MalformedHunkLine | OldCountMismatch | NewCountMismatch
    | MissingPathMarkers | ModeOnlyPatch | NoHunks | UnsupportedLine | NoFileChanges

  /** The two library functions on paths the reader calls: unquoting and lexical cleaning. */
  datatype PathLibrary = PathLibrary(unquote: string -> Option<string>, clean: string -> string)

  /** A value read from the front of a line list, and the lines after it. */
  datatype Parsed<T> = Parsed(value: T, rest: seq<string>)

  // ----- Tokens and paths -----

  /** The end of a token that opens with a quote: one past the closing quote. */
  function ClosingQuote(s: string, i: nat, escaped: bool): Option<nat>
    decreases |s| - i
  {
    if i >= |s| then None
    else if escaped then ClosingQuote(s, i + 1, false)
    else if s[i] == '\\' then ClosingQuote(s, i + 1, true)
    else if s[i] == '"' then Some(i + 1)
    else ClosingQuote(s, i + 1, false)
  }

  lemma {:induction false} ClosingQuoteInRange(s: string, i: nat, escaped: bool)
    ensures ClosingQuote(s, i, escaped).Some? ==> ClosingQuote(s, i, escaped).value <= |s|
    decreases |s| - i
  {
    if i < |s| {
      ClosingQuoteInRange(s, i + 1, !escaped && s[i] == '\\');
    }
  }

  function ScanToken(raw: string): Option<(string, string)> {
    var value := TrimSpace(raw);
    if value == "" then None
    else if value[0] != '"' then Some((value[..BlankIndex(value)], value[BlankIndex(value)..]))
    else
      match ClosingQuote(value, 1, false)
      case None => None
      case Some(end) =>
        ClosingQuoteInRange(value, 1, false);
        Some((value[..end], value[end..]))
  }

  function ParseDiffHeader(line: string): Result<(string, string), ParseError>
    requires DIFF_HEADER <= line
  {
    match ScanToken(TrimSpace(line[|DIFF_HEADER|..]))
    case None => Failure(MalformedDiffHeader)
    case Some((old_, remaining)) =>
      match ScanToken(remaining)
      case None => Failure(MalformedDiffHeader)
      case Some((new_, trailing)) =>
        if TrimSpace(trailing) != "" then Failure(MalformedDiffHeader) else Success((old_, new_))
  }

  function PathMarkerValue(raw: string): string {
    var value := TrimSpace(raw);
    if value != "" && value[0] == '"' then
      match ScanToken(value)
      case Some((token, _)) => token
      case None => value
    else value[..BlankIndex(value)]
  }

  /** A path and whether it is /dev/null. */
  function ParsePath(raw: string, lib: PathLibrary): Result<(string, bool), ParseError> {
    var value := PathMarkerValue(raw);
    if value == "/dev/null" then Success(("", true))
    else if value == "" then Failure(PathRequired)
    else
      var unquoted := if value[0] == '"' then lib.unquote(value) else Some(value);
      match unquoted
      case None => Failure(BadQuotedPath)
      case Some(path) =>
        var stripped := if "a/" <= path || "b/" <= path then path[2..] else path;
        if stripped == "" then Failure(PathRequired) else Success((lib.clean(stripped), false))
  }

  // ----- Hunks -----

  /** A range of a hunk header: a start, and a count that is one when left out. */
  function ParseRange(s: string): Option<(Result<(int, int), ParseError>, string)> {
    var n := DigitSpan(s);
    if n == 0 then None
    else
      var start, after := s[..n], s[n..];
      var m := if after != "" && after[0] == ',' then DigitSpan(after[1..]) else 0;
      if m == 0 then
        Some((match ParseInt(start) case Some(a) => Success((a, 1)) case None => Failure(RangeTooLarge), after))
      else
        var count := after[1..][..m];
        Some((match (ParseInt(start), ParseInt(count))
              case (Some(a), Some(b)) => Success((a, b))
              case _ => Failure(RangeTooLarge), after[1..][m..]))
  }

  function ParseHunkHeader(header: string): Result<Hunk, ParseError> {
    if !("@@ -" <= header) then Failure(MalformedHunkHeader)
    else match ParseRange(header[4..])
      case None => Failure(MalformedHunkHeader)
      case Some((oldRange, middle)) =>
        if !(" +" <= middle) then Failure(MalformedHunkHeader)
        else match ParseRange(middle[2..])
          case None => Failure(MalformedHunkHeader)
          case Some((newRange, end)) =>
            if !(" @@" <= end) then Failure(MalformedHunkHeader)
            else
              var a :- oldRange;
              var b :- newRange;
              Success(Hunk(a.0, a.1, b.0, b.1, []))
  }

  function ParseKind(c: char): Option<LineKind> {
    if c == ' ' then Some(Context) else if c == '-' then Some(Removal) else if c == '+' then Some(Addition) else None
  }

  /** A line that ends a hunk body. */
  predicate EndsHunk(line: string) {
    DIFF_HEADER <= line || "@@ " <= TrimLineEnding(line)
  }

  /** The body with its last line's ending cut, as the "no newline" marker asks. */
  function CutLastEnding(body: seq<PatchLine>): (r: seq<PatchLine>)
    ensures |r| == |body|
  {
    if body == [] then body
    else
      var last := body[|body| - 1];
      body[..|body| - 1] + [PatchLine(last.kind, TrimLineEnding(last.text))]
  }

  function ParseBody(lines: seq<string>, body: seq<PatchLine>): (r: Result<Parsed<seq<PatchLine>>, ParseError>)
    ensures r.Success? ==> |r.value.rest| <= |lines|
  {
    if lines == [] || EndsHunk(lines[0]) then Success(Parsed(body, lines))
    else if TrimLineEnding(lines[0]) == NO_NEWLINE then ParseBody(lines[1..], CutLastEnding(body))
    else if lines[0] == "" || ParseKind(lines[0][0]).None? then Failure(MalformedHunkLine)
    else ParseBody(lines[1..], body + [PatchLine(ParseKind(lines[0][0]).value, lines[0][1..])])
  }

  function ValidateCounts(h: Hunk): (r: Result<Hunk, ParseError>)
    ensures r.Success? <==> HeaderConsistent(h)
    ensures r.Success? ==> r.value == h
  {
    if |OldSide(h.lines)| != h.oldCount then Failure(OldCountMismatch)
    else if |NewSide(h.lines)| != h.newCount then Failure(NewCountMismatch)
    else Success(h)
  }

  function ParseHunk(lines: seq<string>): (r: Result<Parsed<Hunk>, ParseError>)
    requires lines != []
    ensures r.Success? ==> |r.value.rest| < |lines| && HeaderConsistent(r.value.value)
  {
    var header :- ParseHunkHeader(TrimLineEnding(lines[0]));
    var body :- ParseBody(lines[1..], []);
    var hunk :- ValidateCounts(header.(lines := body.value));
    Success(Parsed(hunk, body.rest))
  }

  // ----- Files -----

  /** The kinds of header line of a file section: every line that is neither a hunk nor the next file. */
  datatype HeaderLine =
    | RenameLine | CopyLine | BinaryLine | NewFileMode | NewMode | OldMode | DeletedFileMode
    | OldMarker | NewMarker | OtherLine

  function Classify(line: string): (kind: HeaderLine)
    ensures kind == NewFileMode ==> "new file mode " <= line
    ensures kind == NewMode ==> "new mode " <= line
    ensures kind == OldMode ==> "old mode " <= line
    ensures kind == DeletedFileMode ==> "deleted file mode " <= line
    ensures kind == OldMarker || kind == NewMarker ==> 4 <= |line|
  {
    if "rename from " <= line || "rename to " <= line then RenameLine
    else if "copy from " <= line || "copy to " <= line then CopyLine
    else if "GIT binary patch" == line || "Binary files " <= line then BinaryLine
    else if "new file mode " <= line then NewFileMode
    else if "deleted file mode " <= line then DeletedFileMode
    else if "old mode " <= line then OldMode
    else if "new mode " <= line then NewMode
    else if "--- " <= line then OldMarker
    else if "+++ " <= line then NewMarker
    else OtherLine
  }

  function ParseMode(value: string): Option<nat> {
    if value == "100644" then Some(MODE_REGULAR) else if value == "100755" then Some(MODE_EXECUTABLE) else None
  }

  function ParseModeMetadata(value: string, setsMode: bool, file: PatchFile): (r: Result<PatchFile, ParseError>)
    ensures r.Success? ==> r.value.hunks == file.hunks
  {
    match ParseMode(TrimSpace(value))
    case None => Failure(BadFileMode)
    case Some(mode) =>
      var seen := file.(sawModeMetadata := true);
      Success(if setsMode then seen.(newMode := mode, hasNewMode := true) else seen)
  }

  predicate IsKnownMetadata(line: string) {
    "index " <= line || "similarity index " <= line || "dissimilarity index " <= line
  }

  function ValidateFile(file: PatchFile, sawOld: bool, sawNew: bool): (r: Result<PatchFile, ParseError>)
    ensures r.Success? ==> r.value == file && file.hunks != []
  {
    if !sawOld || !sawNew then Failure(MissingPathMarkers)
    else if file.hunks == [] then Failure(if file.sawModeMetadata then ModeOnlyPatch else NoHunks)
    else Success(file)
  }

  datatype FileState = FileState(file: PatchFile, sawOld: bool, sawNew: bool)

  function WithMetadata(s: FileState, file: Result<PatchFile, ParseError>): Result<FileState, ParseError> {
    match file case Success(f) => Success(s.(file := f)) case Failure(e) => Failure(e)
  }

  function ParseFileLine(line: string, s: FileState, lib: PathLibrary): (r: Result<FileState, ParseError>)
    ensures r.Success? ==> r.value.file.hunks == s.file.hunks
  {
    match Classify(line)
    case RenameLine => Failure(RenameUnsupported)
    case CopyLine => Failure(CopyUnsupported)
    case BinaryLine => Failure(BinaryUnsupported)
    case NewFileMode => WithMetadata(s, ParseModeMetadata(line[|"new file mode "|..], true, s.file))
    case NewMode => WithMetadata(s, ParseModeMetadata(line[|"new mode "|..], true, s.file))
    case OldMode => WithMetadata(s, ParseModeMetadata(line[|"old mode "|..], false, s.file))
    case DeletedFileMode => WithMetadata(s, ParseModeMetadata(line[|"deleted file mode "|..], false, s.file))
    case OldMarker =>
      var path :- ParsePath(PathMarkerValue(line[4..]), lib);
      Success(FileState(s.file.(oldPath := path.0, oldDevNull := path.1), true, s.sawNew))
    case NewMarker =>
      var path :- ParsePath(PathMarkerValue(line[4..]), lib);
      Success(FileState(s.file.(newPath := path.0, newDevNull := path.1), s.sawOld, true))
    case OtherLine => if IsKnownMetadata(line) || TrimSpace(line) == "" then Success(s) else Failure(UnsupportedLine)
  }

  /** A line that opens a hunk and is not claimed by an earlier case. */
  predicate OpensHunk(line: string) {
    "@@ " <= line
  }

  function ParseFileBody(lines: seq<string>, s: FileState, lib: PathLibrary): (r: Result<Parsed<PatchFile>, ParseError>)
    ensures r.Success? ==> |r.value.rest| <= |lines|
    decreases |lines|
  {
    if lines == [] || DIFF_HEADER <= lines[0] then
      var file :- ValidateFile(s.file, s.sawOld, s.sawNew);
      Success(Parsed(file, lines))
    else
      var line := TrimLineEnding(lines[0]);
      if OpensHunk(line) then
        var hunk :- ParseHunk(lines);
        ParseFileBody(hunk.rest, s.(file := s.file.(hunks := s.file.hunks + [hunk.value])), lib)
      else
        var s' :- ParseFileLine(line, s, lib);
        ParseFileBody(lines[1..], s', lib)
  }

  function InitialFile(line: string, lib: PathLibrary): Result<FileState, ParseError>
    requires DIFF_HEADER <= line
  {
    var tokens :- ParseDiffHeader(line);
    var old_ :- ParsePath(tokens.0, lib);
    var new_ :- ParsePath(tokens.1, lib);
    Success(FileState(PatchFile(old_.0, new_.0, old_.1, new_.1, 0, false, false, []), false, false))
  }

  function ParseFile(lines: seq<string>, lib: PathLibrary): (r: Result<Parsed<PatchFile>, ParseError>)
    requires lines != [] && DIFF_HEADER <= lines[0]
    ensures r.Success? ==> |r.value.rest| < |lines|
  {
    var s :- InitialFile(lines[0], lib);
    ParseFileBody(lines[1..], s, lib)
  }

  function ParseFiles(lines: seq<string>, files: seq<PatchFile>, lib: PathLibrary):
    (r: Result<seq<PatchFile>, ParseError>)
    decreases |lines|
  {
    if lines == [] then Success(files)
    else if TrimSpace(lines[0]) == "" then ParseFiles(lines[1..], files, lib)
    else if !(DIFF_HEADER <= lines[0]) then Failure(ExpectedDiffHeader)
    else
      var file :- ParseFile(lines, lib);
      ParseFiles(file.rest, files + [file.value], lib)
  }

  function ParsePatch(patch: string, lib: PathLibrary): Result<seq<PatchFile>, ParseError> {
    if TrimSpace(patch) == "" then Failure(EmptyPatch)
    else if "*** Begin Patch" <= TrimSpace(patch) then Failure(UnsupportedEnvelope)
    else
      var files :- ParseFiles(Split(patch), [], lib);
      if files == [] then Failure(NoFileChanges) else Success(files)
  }
}
