/** The line ranges a managed read can ask for. */
module LineRanges {
  import opened Lines

  predicate ValidRange(start: int, end: int) {
    start >= 0 && end >= 0 && !(start > 0 && end > 0 && end < start)
  }

  /** The lines from `start` to `end`, counted from one; zero leaves an end open. */
  function Selected(content: string, start: int, end: int): string
    requires ValidRange(start, end)
  {
    var lines, first := Split(content), if start == 0 then 1 else start;
    if start == 0 && end == 0 then content
    else if first > |lines| then ""
    else Join(lines[first - 1..if end == 0 || end > |lines| then |lines| else end])
  }

  method SelectLineRange(content: string, start: int, end: int) returns (selected: string)
    requires ValidRange(start, end)
    ensures selected == Selected(content, start, end)
  {
    hide Split;
    if start == 0 && end == 0 {
      return content;
    }
    var lines := SplitLines(content);
    selected := "";
    if |lines| == 0 {
      return;
    }
    var first, last := start, end;
    if first == 0 {
      first := 1;
    }
    if first > |lines| {
      return;
    }
    if last == 0 || last > |lines| {
      last := |lines|;
    }
    ghost var range := lines[first - 1..last];
    for i := first - 1 to last
      invariant selected == Join(range[..i - (first - 1)])
    {
      var k := i - (first - 1);
      JoinLast(range, k);
      selected := selected + lines[i];
    }
    assert range[..|range|] == range;
  }

  lemma {:induction false} Halves<T>(s: seq<T>, k: nat)
    requires k <= |s|
    ensures s[0..k] + s[k..|s|] == s
  {
  }

  lemma {:induction false} SelectedHead(content: string, k: nat)
    requires k > 0
    ensures
      var lines := Split(content);
      Selected(content, 1, k) == Join(lines[0..if k > |lines| then |lines| else k])
  {
    hide Split;
    if Split(content) == [] {
      assert Split(content)[0..0] == [];
    }
  }

  lemma {:induction false} SelectedTail(content: string, k: nat)
    requires k > 0
    ensures
      var lines := Split(content);
      Selected(content, k + 1, 0) == Join(lines[(if k > |lines| then |lines| else k)..|lines|])
  {
    hide Split;
    var lines := Split(content);
    if k >= |lines| {
      assert lines[|lines|..|lines|] == [];
    }
  }

  /** Reading up to a line and then from the next one gives the whole content, byte for byte. */
  lemma {:induction false} PartsMakeTheWhole(content: string, k: nat)
    requires k > 0
    ensures Selected(content, 1, k) + Selected(content, k + 1, 0) == content
  {
    hide Split, Join, Selected, WellFormed;
    var lines := Split(content);
    SplitIsFaithful(content);
    SelectedHead(content, k);
    SelectedTail(content, k);
    var cut := if k > |lines| then |lines| else k;
    Halves(lines, cut);
    JoinAppend(lines[0..cut], lines[cut..|lines|]);
  }
}
