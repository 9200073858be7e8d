/** Revision-numbered command evidence: the store operations, and the window a reviewer is shown. */
module CommandEvidence {
  import opened Wrappers
  import opened Text

  /** A time stamp as the clock prints it. */
  type Stamp = s: string | s != "" witness "2"

  datatype Command = Command(text: string, workingDir: string, status: string, exitCode: int, executed: bool,
                             succeeded: bool)

  datatype Record = Record(command: Command, recordedAt: string, revision: int)

  datatype Review = Review(verdict: string, reason: string, recordedAt: string)

  datatype Evidence = Evidence(
    records: seq<Record>, reviewAttempts: nat, lastReview: Option<Review>,
    planBaseline: int, mutationRevision: int, mutationAt: string, mutationTool: string)

  const EMPTY := Evidence([], 0, None, 0, 0, "", "")

  const SUFFICIENT := "sufficient"
  const NOT_APPLICABLE := "not_applicable"
  const UNCLEAR := "unclear"

  /** The time given, or the clock's when none is. */
  function AtOr(at: string, now: Stamp): (r: string)
    ensures r != ""
  {
    if TrimSpace(at) == "" then now else at
  }

  // ----- Store operations -----

  /** The largest revision, 0 if there is none above it. */
  function MaxRevision(records: seq<Record>): int {
    if records == [] then 0
    else
      var before, last := MaxRevision(records[..|records| - 1]), records[|records| - 1].revision;
      if last > before then last else before
  }

  /** Numbers the records that have no positive revision, from `next` on. */
  function AssignFrom(records: seq<Record>, next: int): seq<Record> {
    if records == [] then []
    else if records[0].revision > 0 then [records[0]] + AssignFrom(records[1..], next)
    else [records[0].(revision := next)] + AssignFrom(records[1..], next + 1)
  }

  function AssignMissing(e: Evidence): Evidence {
    e.(records := AssignFrom(e.records, MaxRevision(e.records) + 1))
  }

  function Appended(e: Evidence, c: Command, at: string, now: Stamp): Evidence {
    e.(records := e.records + [Record(c, AtOr(at, now), MaxRevision(e.records) + 1)])
  }

  function Reviewed(e: Evidence, r: Review, now: Stamp): Evidence {
    e.(lastReview := Some(r.(recordedAt := AtOr(r.recordedAt, now))),
       reviewAttempts := e.reviewAttempts + if r.verdict != SUFFICIENT then 1 else 0)
  }

  function AttemptsReset(e: Evidence): Evidence {
    e.(reviewAttempts := 0, lastReview := None)
  }

  function PlanBaseline(e: Evidence): Evidence {
    var a := AssignMissing(e);
    Evidence(a.records, 0, None, MaxRevision(a.records), 0, "", "")
  }

  function WorkspaceMutated(e: Evidence, tool: string, at: string, now: Stamp): Evidence {
    var a := AssignMissing(e);
    Evidence(a.records, 0, None, a.planBaseline, MaxRevision(a.records), AtOr(at, now), TrimSpace(tool))
  }

  /** Coordinates the persistence of evidence; `stored` says whether the store accepts the write. */
  class Manager {
    var state: Evidence

    constructor ()
      ensures state == EMPTY
    {
      state := EMPTY;
    }

    method Write(e: Evidence, stored: bool)
      modifies this
      ensures state == if stored then e else old(state)
    {
      if stored {
        state := e;
      }
    }

    method Append(c: Command, at: string, now: Stamp, stored: bool)
      modifies this
      ensures state == if stored then Appended(old(state), c, at, now) else old(state)
    {
      hide AtOr, MaxRevision;
      var revision := MaxCommandRevision(state.records);
      Write(state.(records := state.records + [Record(c, AtOr(at, now), revision + 1)]), stored);
    }

    method RecordReview(r: Review, now: Stamp, stored: bool)
      modifies this
      ensures state == if stored then Reviewed(old(state), r, now) else old(state)
    {
      var next := state.(lastReview := Some(r.(recordedAt := AtOr(r.recordedAt, now))));
      if r.verdict != SUFFICIENT {
        next := next.(reviewAttempts := next.reviewAttempts + 1);
      }
      Write(next, stored);
    }

    method ResetReviewAttempts(stored: bool)
      modifies this
      ensures state == if stored then AttemptsReset(old(state)) else old(state)
    {
      Write(state.(reviewAttempts := 0, lastReview := None), stored);
    }

    method RecordPlanBaseline(stored: bool)
      modifies this
      ensures state == if stored then PlanBaseline(old(state)) else old(state)
    {
      hide AssignFrom, MaxRevision;
      var records := AssignMissingRevisions(state.records);
      var top := MaxCommandRevision(records);
      Write(state.(records := records, planBaseline := top, mutationRevision := 0, mutationAt := "", mutationTool := "",
                   reviewAttempts := 0, lastReview := None), stored);
    }

    method RecordWorkspaceMutation(tool: string, at: string, now: Stamp, stored: bool)
      modifies this
      ensures state == if stored then WorkspaceMutated(old(state), tool, at, now) else old(state)
    {
      hide AssignFrom, MaxRevision, AtOr, TrimSpace;
      var records := AssignMissingRevisions(state.records);
      var top := MaxCommandRevision(records);
      Write(state.(records := records, mutationRevision := top, mutationAt := AtOr(at, now),
                   mutationTool := TrimSpace(tool), reviewAttempts := 0, lastReview := None), stored);
    }

    method Clear(stored: bool)
      modifies this
      ensures state == if stored then EMPTY else old(state)
    {
      Write(EMPTY, stored);
    }
  }

  method MaxCommandRevision(records: seq<Record>) returns (top: int)
    ensures top == MaxRevision(records)
  {
    top := 0;
    for i := 0 to |records|
      invariant top == MaxRevision(records[..i])
    {
      assert records[..i + 1][..i] == records[..i];
      if records[i].revision > top {
        top := records[i].revision;
      }
    }
    assert records[..|records|] == records;
  }

  /** `numbered` and what is still to be numbered from `next` make up `goal`. */
  ghost predicate NumberedSoFar(goal: seq<Record>, numbered: seq<Record>, i: nat, next: int)
    requires i <= |numbered|
  {
    goal == numbered[..i] + AssignFrom(numbered[i..], next)
  }

  lemma {:induction false} NumberOneMore(goal: seq<Record>, numbered: seq<Record>, i: nat, next: int)
    requires i < |numbered| && NumberedSoFar(goal, numbered, i, next)
    ensures numbered[i].revision > 0 ==> NumberedSoFar(goal, numbered, i + 1, next)
    ensures numbered[i].revision <= 0 ==>
            NumberedSoFar(goal, numbered[i := numbered[i].(revision := next)], i + 1, next + 1)
  {
    var rest, r := numbered[i..], numbered[i];
    assert rest[0] == r && rest[1..] == numbered[i + 1..];
    if r.revision > 0 {
      SplitAt(goal, numbered, i, AssignFrom(rest[1..], next));
    } else {
      var numbered' := numbered[i := r.(revision := next)];
      assert numbered'[i + 1..] == rest[1..] && numbered'[..i] == numbered[..i];
      SplitAt(goal, numbered', i, AssignFrom(rest[1..], next + 1));
    }
  }

  lemma {:induction false} SplitAt(goal: seq<Record>, s: seq<Record>, i: nat, tail: seq<Record>)
    requires i < |s| && goal == s[..i] + ([s[i]] + tail)
    ensures goal == s[..i + 1] + tail
  {
  }

  /** Numbers, in place and in order, the records that have no revision yet. */
  method AssignMissingRevisions(records: seq<Record>) returns (numbered: seq<Record>)
    ensures numbered == AssignFrom(records, MaxRevision(records) + 1)
  {
    hide MaxRevision, NumberedSoFar;
    numbered := records;
    var next := MaxCommandRevision(records);
    next := next + 1;
    ghost var goal := AssignFrom(records, next);
    NothingNumbered(goal, records, next);
    for i := 0 to |records|
      invariant |numbered| == |records| && NumberedSoFar(goal, numbered, i, next)
    {
      NumberOneMore(goal, numbered, i, next);
      if numbered[i].revision > 0 {
        continue;
      }
      numbered := numbered[i := numbered[i].(revision := next)];
      next := next + 1;
    }
    AllNumbered(goal, numbered, next);
  }

  lemma {:induction false} NothingNumbered(goal: seq<Record>, records: seq<Record>, next: int)
    requires goal == AssignFrom(records, next)
    ensures NumberedSoFar(goal, records, 0, next)
  {
    assert records[..0] + AssignFrom(records, next) == goal && records[0..] == records;
  }

  lemma {:induction false} AllNumbered(goal: seq<Record>, numbered: seq<Record>, next: int)
    requires NumberedSoFar(goal, numbered, |numbered|, next)
    ensures goal == numbered
  {
  }

  // ----- The review window -----

  const MAX_REVIEW_COMMANDS: nat := 20

  function LastOf<T>(s: seq<T>, n: nat): seq<T> {
    if |s| <= n then s else s[|s| - n..]
  }

  predicate Reviewable(e: Evidence, r: Record) {
    var cutoff := if e.mutationRevision > e.planBaseline then e.mutationRevision else e.planBaseline;
    (cutoff == 0 && e.mutationAt == "" && e.mutationTool == "") || r.revision > cutoff
  }

  function ReviewableOf(e: Evidence, records: seq<Record>): seq<Record> {
    if records == [] then []
    else
      var last := records[|records| - 1];
      ReviewableOf(e, records[..|records| - 1]) + if Reviewable(e, last) then [last] else []
  }

  method SelectReviewCommands(e: Evidence) returns (selected: seq<Record>)
    ensures selected == LastOf(ReviewableOf(e, e.records), MAX_REVIEW_COMMANDS)
  {
    var cutoff := e.planBaseline;
    if e.mutationRevision > cutoff {
      cutoff := e.mutationRevision;
    }
    var records: seq<Record> := [];
    for i := 0 to |e.records|
      invariant records == ReviewableOf(e, e.records[..i])
    {
      assert e.records[..i + 1][..i] == e.records[..i];
      if (cutoff == 0 && e.mutationAt == "" && e.mutationTool == "") || e.records[i].revision > cutoff {
        records := records + [e.records[i]];
      }
    }
    assert e.records[..|e.records|] == e.records;
    var start := |records| - MAX_REVIEW_COMMANDS;
    if start < 0 {
      start := 0;
    }
    selected := [];
    for i := start to |records|
      invariant selected == records[start..i]
    {
      selected := selected + [records[i]];
    }
  }

  // ----- Runs -----

  datatype Event =
    | Append(command: Command, at: string, now: Stamp)
    | Baseline
    | Mutation(tool: string, at: string, now: Stamp)
    | ReviewDone(review: Review, now: Stamp)
    | ResetAttempts
    | Clear

  function After(e: Evidence, event: Event): Evidence {
    match event
    case Append(c, at, now) => Appended(e, c, at, now)
    case Baseline => PlanBaseline(e)
    case Mutation(tool, at, now) => WorkspaceMutated(e, tool, at, now)
    case ReviewDone(r, now) => Reviewed(e, r, now)
    case ResetAttempts => AttemptsReset(e)
    case Clear => EMPTY
  }

  function Run(e: Evidence, events: seq<Event>): Evidence {
    if events == [] then e else After(Run(e, events[..|events| - 1]), events[|events| - 1])
  }

  /** The commands appended since the latest baseline, mutation or clear, or since the start. */
  function Window(events: seq<Event>): seq<Command> {
    if events == [] then []
    else
      var before := Window(events[..|events| - 1]);
      match events[|events| - 1]
      case Append(c, _, _) => before + [c]
      case Baseline | Mutation(_, _, _) | Clear => []
      case _ => before
  }

  function CommandsOf(records: seq<Record>): seq<Command> {
    seq(|records|, i requires 0 <= i < |records| => records[i].command)
  }

  /** Records are numbered 1, 2, 3, … and the boundaries are among them. */
  ghost predicate Numbered(e: Evidence) {
    && (forall i :: 0 <= i < |e.records| ==> e.records[i].revision == i + 1)
    && 0 <= e.planBaseline <= |e.records| && 0 <= e.mutationRevision <= |e.records|
    && ((e.mutationAt == "" && e.mutationTool == "") ==> e.mutationRevision == 0)
  }

  function Cutoff(e: Evidence): int {
    if e.mutationRevision > e.planBaseline then e.mutationRevision else e.planBaseline
  }

  lemma {:induction false} MaxOfNumbered(records: seq<Record>)
    requires forall i :: 0 <= i < |records| ==> records[i].revision == i + 1
    ensures MaxRevision(records) == |records|
  {
    if records != [] {
      MaxOfNumbered(records[..|records| - 1]);
    }
  }

  lemma {:induction false} NothingToAssign(records: seq<Record>, next: int)
    requires forall i :: 0 <= i < |records| ==> records[i].revision > 0
    ensures AssignFrom(records, next) == records
  {
    if records != [] {
      NothingToAssign(records[1..], next);
    }
  }

  lemma {:induction false} NumberedIsAssigned(e: Evidence)
    requires Numbered(e)
    ensures MaxRevision(e.records) == |e.records| && AssignMissing(e) == e
  {
    hide MaxRevision;
    MaxOfNumbered(e.records);
    NothingToAssign(e.records, |e.records| + 1);
  }

  lemma {:induction false} AfterStaysNumbered(e: Evidence, event: Event)
    requires Numbered(e)
    ensures Numbered(After(e, event))
    ensures After(e, event).records ==
            match event
            case Append(c, at, now) => e.records + [Record(c, AtOr(at, now), |e.records| + 1)]
            case Clear => []
            case _ => e.records
    ensures Cutoff(After(e, event)) ==
            match event case Baseline | Mutation(_, _, _) => |e.records| case Clear => 0 case _ => Cutoff(e)
  {
    hide MaxRevision, AssignMissing, AtOr, TrimSpace;
    NumberedIsAssigned(e);
  }

  /** The window is the commands of the records after the cutoff. */
  ghost predicate WindowIs(window: seq<Command>, e: Evidence) {
    Numbered(e) && window == CommandsOf(e.records[Cutoff(e)..])
  }

  lemma {:induction false} WindowAfter(window: seq<Command>, e: Evidence, event: Event)
    requires WindowIs(window, e)
    ensures
      WindowIs(match event
               case Append(c, _, _) => window + [c]
               case Baseline | Mutation(_, _, _) | Clear => []
               case _ => window, After(e, event))
  {
    hide After, Numbered;
    AfterStaysNumbered(e, event);
    CutoffInRange(e);
  }

  lemma {:induction false} CutoffInRange(e: Evidence)
    requires Numbered(e)
    ensures 0 <= Cutoff(e) <= |e.records|
  {
  }

  lemma {:induction false} NoWindow()
    ensures WindowIs([], EMPTY)
  {
  }

  lemma {:induction false} RunWindow(events: seq<Event>)
    ensures WindowIs(Window(events), Run(EMPTY, events))
  {
    hide After, WindowIs;
    if events == [] {
      NoWindow();
    } else {
      RunWindow(events[..|events| - 1]);
      WindowAfter(Window(events[..|events| - 1]), Run(EMPTY, events[..|events| - 1]), events[|events| - 1]);
    }
  }

  lemma {:induction false} ReviewableSnoc(e: Evidence, records: seq<Record>, last: Record)
    ensures ReviewableOf(e, records + [last]) == ReviewableOf(e, records) + if Reviewable(e, last) then [last] else []
  {
    hide Reviewable;
    assert (records + [last])[..|records|] == records;
  }

  lemma {:induction false} NumberedIsReviewable(e: Evidence, i: nat)
    requires Numbered(e) && i < |e.records|
    ensures Reviewable(e, e.records[i]) <==> i >= Cutoff(e)
  {
  }

  lemma {:induction false} SliceSnoc<T>(s: seq<T>, from: nat, n: nat)
    requires n < |s|
    ensures s[..n + 1] == s[..n] + [s[n]]
    ensures from <= n ==> s[from..n + 1] == s[from..n] + [s[n]]
  {
  }

  lemma {:induction false} ReviewableOfNumbered(e: Evidence, n: nat)
    requires Numbered(e) && n <= |e.records|
    ensures ReviewableOf(e, e.records[..n]) == if n <= Cutoff(e) then [] else e.records[Cutoff(e)..n]
  {
    hide Reviewable, ReviewableOf, Numbered, Cutoff;
    CutoffInRange(e);
    if n == 0 {
      assert e.records[..n] == [];
      NothingReviewable(e);
    } else {
      var before, last := e.records[..n - 1], e.records[n - 1];
      ReviewableOfNumbered(e, n - 1);
      SliceSnoc(e.records, Cutoff(e), n - 1);
      ReviewableSnoc(e, before, last);
      NumberedIsReviewable(e, n - 1);
      assert n - 1 == Cutoff(e) ==> e.records[Cutoff(e)..n - 1] == [];
    }
  }

  lemma {:induction false} NothingReviewable(e: Evidence)
    ensures ReviewableOf(e, []) == []
  {
  }

  lemma {:induction false} LastOfCommands(records: seq<Record>, n: nat)
    ensures CommandsOf(LastOf(records, n)) == LastOf(CommandsOf(records), n)
  {
  }

  /**
   * From empty evidence, over any run: the reviewer is shown exactly the last commands, at most twenty, of those
   * appended since the latest baseline, mutation or clear, in order.
   */
  lemma {:induction false} EvidenceWindow(events: seq<Event>)
    ensures
      var e := Run(EMPTY, events);
      CommandsOf(LastOf(ReviewableOf(e, e.records), MAX_REVIEW_COMMANDS)) == LastOf(Window(events), MAX_REVIEW_COMMANDS)
  {
    var e := Run(EMPTY, events);
    RunWindow(events);
    ReviewableOfNumbered(e, |e.records|);
    assert e.records[..|e.records|] == e.records;
    LastOfCommands(e.records[Cutoff(e)..], MAX_REVIEW_COMMANDS);
  }

  // ----- Revisions are never shared, whatever the evidence held at first -----

  ghost predicate DistinctRevisions(records: seq<Record>) {
    forall i, j :: 0 <= i < j < |records| && records[i].revision > 0 ==> records[i].revision != records[j].revision
  }

  lemma {:induction false} MaxRevisionBounds(records: seq<Record>)
    ensures MaxRevision(records) >= 0
    ensures forall i :: 0 <= i < |records| ==> records[i].revision <= MaxRevision(records)
  {
    if records != [] {
      MaxRevisionBounds(records[..|records| - 1]);
    }
  }

  /** Every record has a positive revision, its own if it had one, else one not below `next`. */
  ghost predicate AssignedFrom(records: seq<Record>, numbered: seq<Record>, next: int) {
    && |numbered| == |records| && DistinctRevisions(numbered)
    && forall i :: 0 <= i < |records| ==>
         && numbered[i].revision > 0 && numbered[i].command == records[i].command
         && (numbered[i].revision >= next || (records[i].revision > 0 && numbered[i] == records[i]))
  }

  ghost predicate AllBelow(records: seq<Record>, next: int) {
    forall i :: 0 <= i < |records| ==> records[i].revision < next
  }

  lemma {:induction false} ConsAssigned(head: Record, rest: seq<Record>, numbered: seq<Record>, from: int, next: int)
    requires 0 < next && DistinctRevisions([head] + rest) && AllBelow([head] + rest, next)
    requires AssignedFrom(rest, numbered, from) && from == if head.revision > 0 then next else next + 1
    ensures AssignedFrom([head] + rest, [if head.revision > 0 then head else head.(revision := next)] + numbered, next)
  {
    var records, first := [head] + rest, if head.revision > 0 then head else head.(revision := next);
    var all := [first] + numbered;
    assert forall k :: 0 < k < |records| ==> records[k] == rest[k - 1];
    forall k | 0 < k < |all| ensures all[k].revision != first.revision && all[k] == numbered[k - 1] {
      assert records[0] == head && records[k] == rest[k - 1];
    }
  }

  lemma {:induction false} AssignedRevisions(records: seq<Record>, next: int)
    requires next > 0 && DistinctRevisions(records) && AllBelow(records, next)
    ensures AssignedFrom(records, AssignFrom(records, next), next)
  {
    hide AssignedFrom;
    if records == [] {
      NothingAssigned(next);
    } else {
      var rest, from := records[1..], if records[0].revision > 0 then next else next + 1;
      assert [records[0]] + rest == records;
      AssignedRevisions(rest, from);
      ConsAssigned(records[0], rest, AssignFrom(rest, from), from, next);
    }
  }

  lemma {:induction false} NothingAssigned(next: int)
    ensures AssignedFrom([], [], next)
  {
  }

  lemma {:induction false} AfterStaysDistinct(e: Evidence, event: Event)
    requires DistinctRevisions(e.records)
    ensures DistinctRevisions(After(e, event).records)
  {
    hide MaxRevision, AssignFrom, AtOr, TrimSpace;
    MaxRevisionBounds(e.records);
    AssignedRevisions(e.records, MaxRevision(e.records) + 1);
  }

  /** Positive revisions stay distinct over any run from any evidence in which they are. */
  lemma {:induction false} RevisionsStayDistinct(e: Evidence, events: seq<Event>)
    requires DistinctRevisions(e.records)
    ensures DistinctRevisions(Run(e, events).records)
  {
    hide After, DistinctRevisions;
    if events != [] {
      RevisionsStayDistinct(e, events[..|events| - 1]);
      AfterStaysDistinct(Run(e, events[..|events| - 1]), events[|events| - 1]);
    }
  }
}
