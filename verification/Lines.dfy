/** Newline-keeping line lists: how file content and patch text are cut into lines and joined again. */
module Lines {

  /** A non-empty piece of text whose only newline, if any, is its last character. */
  predicate IsLine(line: string) {
    && |line| > 0
    && forall k :: 0 <= k < |line| - 1 ==> line[k] != '\n'
  }

  predicate IsTerminated(line: string) {
    |line| > 0 && line[|line| - 1] == '\n'
  }

  /** Only the last line of a well-formed list may lack its newline. */
  predicate WellFormed(lines: seq<string>) {
    && (forall i :: 0 <= i < |lines| ==> IsLine(lines[i]))
    && (forall i :: 0 <= i < |lines| - 1 ==> IsTerminated(lines[i]))
  }

  function Join(lines: seq<string>): string {
    if lines == [] then "" else lines[0] + Join(lines[1..])
  }

  /** The length of the first line of a non-empty text, its newline included. */
  function FirstLineLength(text: string): (n: nat)
    requires text != ""
    ensures 0 < n <= |text|
    ensures forall k :: 0 <= k < n - 1 ==> text[k] != '\n'
    ensures n < |text| ==> text[n - 1] == '\n'
  {
    if text[0] == '\n' || |text| == 1 then 1 else 1 + FirstLineLength(text[1..])
  }

  /** The reference meaning of cutting a text into lines. */
  function Split(text: string): (lines: seq<string>) {
    if text == "" then [] else
      var n := FirstLineLength(text);
      [text[..n]] + Split(text[n..])
  }

  lemma {:induction false} ConcatAssociative<T>(a: seq<T>, b: seq<T>, c: seq<T>)
    ensures a + (b + c) == (a + b) + c
  {
  }

  lemma {:induction false} JoinAppend(a: seq<string>, b: seq<string>)
    ensures Join(a + b) == Join(a) + Join(b)
  {
    if a == [] {
      assert a + b == b;
    } else {
      JoinAppend(a[1..], b);
      assert (a + b)[1..] == a[1..] + b;
      ConcatAssociative(a[0], Join(a[1..]), Join(b));
    }
  }

  lemma {:induction false} JoinLast(lines: seq<string>, k: nat)
    requires k < |lines|
    ensures Join(lines[..k + 1]) == Join(lines[..k]) + lines[k]
  {
    assert lines[..k + 1] == lines[..k] + [lines[k]];
    JoinAppend(lines[..k], [lines[k]]);
    assert [lines[k]][1..] == [];
  }

  lemma {:induction false} SliceIsLine(content: string, start: nat, end: nat)
    requires start < end <= |content|
    requires forall k :: start <= k < end - 1 ==> content[k] != '\n'
    ensures IsLine(content[start..end])
    ensures content[end - 1] == '\n' ==> IsTerminated(content[start..end])
  {
  }

  lemma {:induction false} WellFormedCons(line: string, rest: seq<string>)
    requires IsLine(line) && (IsTerminated(line) || rest == []) && WellFormed(rest)
    ensures WellFormed([line] + rest)
  {
    var lines := [line] + rest;
    forall i | 0 <= i < |lines|
      ensures IsLine(lines[i])
      ensures i < |lines| - 1 ==> IsTerminated(lines[i])
    {
      if i > 0 {
        assert lines[i] == rest[i - 1];
      }
    }
  }

  /** The first line of a text and what comes after it. */
  lemma {:induction false} SplitHead(text: string) returns (line: string, rest: string)
    requires text != ""
    ensures text == line + rest && |rest| < |text| && Split(text) == [line] + Split(rest)
    ensures IsLine(line) && (IsTerminated(line) || rest == "")
  {
    var n := FirstLineLength(text);
    line, rest := text[..n], text[n..];
    SliceIsLine(text, 0, n);
  }

  lemma {:induction false} JoinCons(line: string, lines: seq<string>)
    ensures Join([line] + lines) == line + Join(lines)
  {
    assert ([line] + lines)[1..] == lines;
  }

  /** Cutting loses nothing, and always gives a well-formed list. */
  lemma {:induction false} SplitIsFaithful(text: string)
    ensures Join(Split(text)) == text
    ensures WellFormed(Split(text))
    decreases |text|
  {
    hide WellFormed, IsLine;
    if text == "" {
      NothingIsWellFormed();
    } else {
      hide Join, Split;
      var line, rest := SplitHead(text);
      SplitIsFaithful(rest);
      if rest == "" {
        SplitNothing();
      }
      WellFormedCons(line, Split(rest));
      JoinCons(line, Split(rest));
    }
  }

  lemma {:induction false} NothingIsWellFormed()
    ensures WellFormed([])
  {
  }

  lemma {:induction false} FirstLineOfJoin(lines: seq<string>)
    requires WellFormed(lines) && lines != []
    ensures Join(lines) != "" && FirstLineLength(Join(lines)) == |lines[0]|
  {
    var text := Join(lines);
    var first := lines[0];
    assert text[..|first|] == first;
    if |lines| == 1 {
      assert Join(lines[1..]) == "";
      assert text == first;
    } else {
      assert IsTerminated(first);
    }
    assert forall k :: 0 <= k < |first| ==> text[k] == first[k];
  }

  /** Joining then cutting gives the list back exactly when the list is well formed. */
  lemma {:induction false} SplitOfJoin(lines: seq<string>)
    ensures Split(Join(lines)) == lines <==> WellFormed(lines)
  {
    SplitIsFaithful(Join(lines));
    if WellFormed(lines) && lines != [] {
      FirstLineOfJoin(lines);
      SplitOfJoin(lines[1..]);
      assert WellFormed(lines[1..]) by {
        forall i | 0 <= i < |lines[1..]|
          ensures IsLine(lines[1..][i])
          ensures i < |lines[1..]| - 1 ==> IsTerminated(lines[1..][i])
        {
          assert lines[1..][i] == lines[i + 1];
        }
      }
      assert Join(lines)[..|lines[0]|] == lines[0];
      assert Join(lines)[|lines[0]|..] == Join(lines[1..]);
      assert lines == [lines[0]] + lines[1..];
    }
  }

  /** A text that starts with a complete line is cut after it. */
  lemma {:induction false} SplitStep(line: string, rest: string)
    requires IsLine(line) && (IsTerminated(line) || rest == "")
    ensures Split(line + rest) == [line] + Split(rest)
  {
    SplitIsFaithful(rest);
    var lines := [line] + Split(rest);
    assert Join(lines) == line + rest by {
      assert lines[1..] == Split(rest);
    }
    WellFormedCons(line, Split(rest));
    SplitOfJoin(lines);
  }

  lemma {:induction false} SliceSplits<T>(s: seq<T>, start: nat, end: nat)
    requires start <= end <= |s|
    ensures s[start..] == s[start..end] + s[end..]
  {
  }

  lemma {:induction false} SplitNothing()
    ensures Split("") == []
  {
  }

  /** `done` holds the lines before `start`; the next line ends at `end`. */
  lemma {:induction false} SplitAt(content: string, done: seq<string>, start: nat, end: nat)
    requires start < end <= |content|
    requires Split(content) == done + Split(content[start..])
    requires forall k :: start <= k < end - 1 ==> content[k] != '\n'
    requires content[end - 1] == '\n' || end == |content|
    ensures Split(content) == (done + [content[start..end]]) + Split(content[end..])
  {
    SliceIsLine(content, start, end);
    SliceSplits(content, start, end);
    SplitStep(content[start..end], content[end..]);
    ConcatAssociative(done, [content[start..end]], Split(content[end..]));
  }

  /** The index loop that cuts a text after each newline. */
  method SplitLines(content: string) returns (lines: seq<string>)
    ensures lines == Split(content)
  {
    hide Split;
    hide FirstLineLength;
    lines := [];
    SplitNothing();
    if content != "" {
      var start := 0;
      for i := 0 to |content|
        invariant 0 <= start <= i
        invariant forall k :: start <= k < i ==> content[k] != '\n'
        invariant Split(content) == lines + Split(content[start..])
      {
        if content[i] == '\n' {
          SplitAt(content, lines, start, i + 1);
          lines := lines + [content[start..i + 1]];
          start := i + 1;
        }
      }
      if start < |content| {
        SplitAt(content, lines, start, |content|);
        lines := lines + [content[start..|content|]];
        start := |content|;
      }
      assert content[start..] == "";
    }
  }
}
