/** What a run leaves in its trace and in the stored history, and what each call of it keeps. */
module AgentTrace {
  import opened Wrappers
  import opened Todos
  import opened PlanState
  import opened ToolResults
  import opened Transcript
  import opened FailureTracker
  import opened ToolPolicy
  import opened AgentStep
  import opened AgentRun
  import opened AgentCalls
  import E = CommandEvidence

  // ----- The stored history -----

  /** What a run has stored so far: its calls answered but for those waiting, and its nudges counted. */
  ghost predicate HistoryOk(history: seq<Message>, base: nat, waiting: seq<ToolCall>, nudges: nat) {
    && base <= |history|
    && Unanswered(history[base..]) == Some(waiting) && SystemCount(history[base..]) == nudges
  }

  lemma {:induction false} AppendAny(history: seq<Message>, base: nat, m: Message)
    requires base <= |history|
    ensures
      var run := (history + [m])[base..];
      run != [] && run[..|run| - 1] == history[base..] && run[|run| - 1] == m
  {
  }

  lemma {:induction false} AppendAnswer(history: seq<Message>, base: nat, waiting: seq<ToolCall>, nudges: nat,
                                        r: ToolResult)
    requires HistoryOk(history, base, waiting, nudges) && waiting != []
    requires waiting[0].id == r.callId && waiting[0].name == r.name
    ensures HistoryOk(history + [Answer(r)], base, waiting[1..], nudges)
  {
    AppendAny(history, base, Answer(r));
  }

  lemma {:induction false} AppendAssistant(history: seq<Message>, base: nat, nudges: nat, text: string,
                                           calls: seq<ToolCall>)
    requires HistoryOk(history, base, [], nudges)
    ensures HistoryOk(history + [Assistant(text, calls)], base, calls, nudges)
  {
    AppendAny(history, base, Assistant(text, calls));
  }

  lemma {:induction false} AppendNudge(history: seq<Message>, base: nat, nudges: nat, content: string)
    requires HistoryOk(history, base, [], nudges)
    ensures HistoryOk(history + [System(content)], base, [], nudges + 1)
  {
    AppendAny(history, base, System(content));
  }

  /** The last text of the assistant among these messages. */
  function LastText(messages: seq<Message>): string {
    if messages == [] then ""
    else
      var last := messages[|messages| - 1];
      if last.Assistant? && last.text != "" then last.text else LastText(messages[..|messages| - 1])
  }

  lemma {:induction false} TextAfter(history: seq<Message>, base: nat, m: Message)
    requires base <= |history|
    ensures LastText((history + [m])[base..]) ==
            if m.Assistant? && m.text != "" then m.text else LastText(history[base..])
  {
    AppendAny(history, base, m);
  }

  // ----- Readings of a trace -----

  function AskedCount(trace: seq<Happening>): nat {
    if trace == [] then 0 else AskedCount(trace[..|trace| - 1]) + if trace[|trace| - 1].Asked? then 1 else 0
  }

  /** How often plan mode was left. */
  function LeftCount(trace: seq<Happening>): nat {
    if trace == [] then 0 else LeftCount(trace[..|trace| - 1]) + if trace[|trace| - 1].PlanLeft? then 1 else 0
  }

  /** The calls handled and their results. */
  function GotIn(trace: seq<Happening>): seq<(ToolCall, ToolResult)> {
    if trace == [] then []
    else
      var last := trace[|trace| - 1];
      GotIn(trace[..|trace| - 1]) + if last.Got? then [(last.call, last.result)] else []
  }

  function GotKeys(got: seq<(ToolCall, ToolResult)>, rules: Rules): seq<Option<Key>> {
    seq(|got|, i requires 0 <= i < |got| => FailureKey(got[i].0, got[i].1, rules.identity))
  }

  lemma {:induction false} TraceSnoc(trace: seq<Happening>, x: Happening, rules: Rules)
    ensures AskedCount(trace + [x]) == AskedCount(trace) + if x.Asked? then 1 else 0
    ensures LeftCount(trace + [x]) == LeftCount(trace) + if x.PlanLeft? then 1 else 0
    ensures GotIn(trace + [x]) == GotIn(trace) + if x.Got? then [(x.call, x.result)] else []
    ensures KeysOf(trace + [x], rules.identity) ==
            KeysOf(trace, rules.identity) + if x.Got? then [FailureKey(x.call, x.result, rules.identity)] else []
  {
    hide FailureKey;
    assert (trace + [x])[..|trace|] == trace;
  }

  lemma {:induction false} KeysAreGotKeys(trace: seq<Happening>, rules: Rules)
    ensures KeysOf(trace, rules.identity) == GotKeys(GotIn(trace), rules)
    decreases |trace|
  {
    hide FailureKey;
    if trace != [] {
      KeysAreGotKeys(trace[..|trace| - 1], rules);
    }
  }

  // ----- What is so of every happening -----

  ghost predicate IsCheckpoint(m: Message) {
    m.System? && NUDGE_PREFIX <= m.content
  }

  /** The stored messages, and the checkpoint after them when there is one. */
  function Shown(history: seq<Message>, nudge: Option<Message>): seq<Message> {
    history + if nudge.Some? then [nudge.value] else []
  }

  /**
   * The request is the stored messages, the checkpoint when there is one, and the current mode; every call in what is
   * stored is answered; the tools are those the mode allows.
   */
  ghost predicate AskedOk(q: Happening, prepared: seq<Message>, rules: Rules)
    requires q.Asked?
  {
    && q.request == Shown(q.stored, q.nudge) + [System(rules.renderMode(q.mode))]
    && (q.nudge.Some? ==> IsCheckpoint(q.nudge.value))
    && q.tools == Filtered(q.mode, q.available, rules.letters)
    && prepared <= q.stored && Unanswered(q.stored[|prepared|..]) == Some([])
  }

  ghost predicate HappeningOk(x: Happening, prepared: seq<Message>, rules: Rules) {
    match x
    case Asked(_, _, _, _, _, _) => AskedOk(x, prepared, rules)
    case Ran(mode, entry, _) => ToolDecision(mode, entry, rules.letters).allowed
                                && (mode == PlanMode ==> PlanHarmless(entry))
    case Got(call, r) => r.callId == call.id && r.name == call.name
    case PlanLeft(conv) => ExitOk(conv, rules.planning.validPlan)
  }

  /** What a request showed as stored is what is stored still, before anything that came later. */
  ghost predicate AskedBefore(trace: seq<Happening>, history: seq<Message>) {
    forall k :: 0 <= k < |trace| && trace[k].Asked? ==> trace[k].stored <= history
  }

  lemma {:induction false} AskedBeforeSnoc(trace: seq<Happening>, x: Happening, history: seq<Message>)
    requires AskedBefore(trace, history) && (x.Asked? ==> x.stored <= history)
    ensures AskedBefore(trace + [x], history)
  {
  }

  ghost predicate TraceOk(trace: seq<Happening>, prepared: seq<Message>, rules: Rules) {
    forall k :: 0 <= k < |trace| ==> HappeningOk(trace[k], prepared, rules)
  }

  lemma {:induction false} TraceOkSnoc(trace: seq<Happening>, x: Happening, prepared: seq<Message>, rules: Rules)
    requires TraceOk(trace, prepared, rules) && HappeningOk(x, prepared, rules)
    ensures TraceOk(trace + [x], prepared, rules)
  {
    hide HappeningOk;
  }

  /** The mode is the one the run started in, until plan mode is left once. */
  ghost predicate ModeIs(mode: Mode, startMode: Mode, trace: seq<Happening>) {
    if LeftCount(trace) == 0 then mode == startMode
    else LeftCount(trace) == 1 && startMode == PlanMode && mode == DefaultMode
  }

  // ----- The answers stored -----

  function AnswersIn(messages: seq<Message>): seq<ToolResult> {
    if messages == [] then []
    else
      var last := messages[|messages| - 1];
      AnswersIn(messages[..|messages| - 1]) + if last.Answer? then [last.result] else []
  }

  /** The answer for the last of these results: with a warning from the second identical failure in a row on. */
  function AnswerFor(got: seq<(ToolCall, ToolResult)>, rules: Rules): ToolResult
    requires got != []
  {
    var r := got[|got| - 1].1;
    if TrailingBlock(GotKeys(got, rules)) >= 2 then WithWarning(r, rules.mentionsWarning) else r
  }

  /** The stored answers are those of the results, in order; only the last result may be without one. */
  ghost predicate Matched(answers: seq<ToolResult>, got: seq<(ToolCall, ToolResult)>, rules: Rules) {
    && |answers| <= |got| <= |answers| + 1
    && forall k :: 0 <= k < |answers| ==> answers[k] == AnswerFor(got[..k + 1], rules)
  }

  lemma {:induction false} MatchedOneMore(answers: seq<ToolResult>, got: seq<(ToolCall, ToolResult)>,
                                          x: (ToolCall, ToolResult), rules: Rules)
    requires Matched(answers, got, rules) && |answers| == |got|
    ensures Matched(answers, got + [x], rules)
    ensures Matched(answers + [AnswerFor(got + [x], rules)], got + [x], rules)
  {
    hide AnswerFor;
    var more := got + [x];
    forall k | 0 <= k < |answers| ensures answers[k] == AnswerFor(more[..k + 1], rules) {
      assert more[..k + 1] == got[..k + 1];
    }
    assert more[..|answers| + 1] == more;
  }

  // ----- The invariant of a run -----

  /** What the run has told the store: the prepared messages, then its own, answered but for those waiting. */
  ghost predicate Told(history: seq<Message>, prepared: seq<Message>, waiting: seq<ToolCall>, nudges: nat) {
    prepared <= history && HistoryOk(history, |prepared|, waiting, nudges)
  }

  ghost predicate AnswersAre(s: Live, prepared: seq<Message>, rules: Rules) {
    prepared <= s.store.history && Matched(AnswersIn(s.store.history[|prepared|..]), GotIn(s.trace), rules)
  }

  /** Every result has its answer, and the guard has not tripped. */
  ghost predicate Calm(s: Live, prepared: seq<Message>, rules: Rules) {
    && |prepared| <= |s.store.history| && |AnswersIn(s.store.history[|prepared|..])| == |GotIn(s.trace)|
    && TrailingBlock(KeysOf(s.trace, rules.identity)) < 3
  }

  /** The run a state belongs to: the messages it was prepared with, and the mode it started in. */
  datatype Origin = Origin(prepared: seq<Message>, startMode: Mode)

  ghost predicate Good(s: Live, o: Origin, rules: Rules) {
    && TraceOk(s.trace, o.prepared, rules) && ModeIs(s.store.mode, o.startMode, s.trace)
    && AskedBefore(s.trace, s.store.history)
    && AnswersAre(s, o.prepared, rules) && NeverThrice(KeysOf(s.trace, rules.identity))
  }

  /**
   * The guard ends a run on the third identical failure in a row and on nothing else; a store failure may come first.
   */
  ghost predicate GuardSays(s: Live, rules: Rules, failure: Failure) {
    var block := TrailingBlock(KeysOf(s.trace, rules.identity));
    && (failure.RepeatedFailure? ==> block == 3)
    && (block == 3 ==> failure.RepeatedFailure? || failure.StoreFailed?)
    && block <= 3
  }

  // ----- One call -----

  lemma {:induction false} BlockGrowsByOne(keys: seq<Option<Key>>, key: Option<Key>)
    ensures TrailingBlock(keys + [key]) <= TrailingBlock(keys) + 1
  {
    hide TrailingBlock;
    BlockAfter(keys, key);
  }

  lemma {:induction false} NotedTrace(trace: seq<Happening>, mode: Mode, call: ToolCall, h: Handled, rules: Rules,
                                      env: CallEnv)
    ensures
      var noted := Noted(trace, mode, call, h, env);
      && GotIn(noted) == GotIn(trace) + [(call, h.result)]
      && KeysOf(noted, rules.identity) == KeysOf(trace, rules.identity) + [FailureKey(call, h.result, rules.identity)]
      && AskedCount(noted) == AskedCount(trace) && LeftCount(noted) == LeftCount(trace)
  {
    hide FailureKey;
    var ran := if h.ran.Some? then [Ran(mode, h.ran.value, env.planning.writes)] else [];
    if h.ran.Some? {
      TraceSnoc(trace, Ran(mode, h.ran.value, env.planning.writes), rules);
    } else {
      assert trace + ran == trace;
    }
    TraceSnoc(trace + ran, Got(call, h.result), rules);
  }

  lemma {:induction false} NotedIsOk(s: Live, call: ToolCall, available: seq<Entry>, rules: Rules, env: CallEnv,
                                     prepared: seq<Message>)
    requires TraceOk(s.trace, prepared, rules)
    ensures
      var h := HandleCall(s.store.conv, s.store.mode, call, available, rules, env);
      TraceOk(Noted(s.trace, s.store.mode, call, h, env), prepared, rules)
  {
    hide HandleCall, TraceOk, RunTool, ToolDecision, PlanHarmless, ExitOk, IsRefusal, ResultOf, AskedOk;
    var mode := s.store.mode;
    var h := HandleCall(s.store.conv, mode, call, available, rules, env);
    HandledEitherWay(s.store.conv, mode, call, available, rules, env);
    HandledCallKeeps(s.store.conv, mode, call, available, rules, env);
    var ran := if h.ran.Some? then [Ran(mode, h.ran.value, env.planning.writes)] else [];
    if h.ran.Some? {
      PlanModeAllowsIff(h.ran.value, rules.letters);
      TraceOkSnoc(s.trace, Ran(mode, h.ran.value, env.planning.writes), prepared, rules);
    } else {
      assert s.trace + ran == s.trace;
    }
    TraceOkSnoc(s.trace + ran, Got(call, h.result), prepared, rules);
  }

  lemma {:induction false} NotedAsksNothing(trace: seq<Happening>, mode: Mode, call: ToolCall, h: Handled, env: CallEnv,
                                            history: seq<Message>)
    requires AskedBefore(trace, history)
    ensures AskedBefore(Noted(trace, mode, call, h, env), history)
  {
    hide AskedBefore;
    var ran := if h.ran.Some? then [Ran(mode, h.ran.value, env.planning.writes)] else [];
    if h.ran.Some? {
      AskedBeforeSnoc(trace, Ran(mode, h.ran.value, env.planning.writes), history);
    } else {
      assert trace + ran == trace;
    }
    AskedBeforeSnoc(trace + ran, Got(call, h.result), history);
  }

  /** A state with a result that has no answer yet. */
  ghost predicate Pending(s: Live, prepared: seq<Message>, rules: Rules) {
    && |prepared| <= |s.store.history| && |AnswersIn(s.store.history[|prepared|..])| + 1 == |GotIn(s.trace)|
    && TrailingBlock(KeysOf(s.trace, rules.identity)) <= 3
  }

  lemma {:induction false} NotedKeeps(s: Live, call: ToolCall, available: seq<Entry>, rules: Rules, env: CallEnv,
                                      o: Origin)
    requires Good(s, o, rules) && Calm(s, o.prepared, rules)
    ensures
      var h := HandleCall(s.store.conv, s.store.mode, call, available, rules, env);
      var s' := s.(store := s.store.(conv := h.conv), trace := Noted(s.trace, s.store.mode, call, h, env));
      && Good(s', o, rules) && Pending(s', o.prepared, rules) && AskedCount(s'.trace) == AskedCount(s.trace)
      && GotIn(s'.trace) != [] && AnswerFor(GotIn(s'.trace), rules) == Given(s'.trace, h.result, rules)
  {
    hide HandleCall, TraceOk, AskedBefore, TrailingBlock, NeverThrice, Matched, FailureKey, Noted, WithWarning;
    var h := HandleCall(s.store.conv, s.store.mode, call, available, rules, env);
    var s' := s.(store := s.store.(conv := h.conv), trace := Noted(s.trace, s.store.mode, call, h, env));
    NotedTrace(s.trace, s.store.mode, call, h, rules, env);
    NotedIsOk(s, call, available, rules, env, o.prepared);
    NotedAsksNothing(s.trace, s.store.mode, call, h, env, s.store.history);
    MatchedOneMore(AnswersIn(s.store.history[|o.prepared|..]), GotIn(s.trace), (call, h.result), rules);
    var keys := KeysOf(s.trace, rules.identity);
    NeverThriceAfter(keys, FailureKey(call, h.result, rules.identity));
    BlockGrowsByOne(keys, FailureKey(call, h.result, rules.identity));
    KeysAreGotKeys(s'.trace, rules);
  }

  lemma {:induction false} AnswersGrow(history: seq<Message>, base: nat, m: Message)
    requires base <= |history|
    ensures AnswersIn((history + [m])[base..]) == AnswersIn(history[base..]) + if m.Answer? then [m.result] else []
  {
    AppendAny(history, base, m);
  }

  lemma {:induction false} MatchedLast(answers: seq<ToolResult>, got: seq<(ToolCall, ToolResult)>, r: ToolResult,
                                       rules: Rules)
    requires Matched(answers, got, rules) && |answers| + 1 == |got| && r == AnswerFor(got, rules)
    ensures Matched(answers + [r], got, rules)
  {
    hide AnswerFor;
    assert got[..|got|] == got;
  }

  /** Storing the answer of a pending result. */
  lemma {:induction false} AnsweredKeeps(s: Live, r: ToolResult, o: Origin, rules: Rules)
    requires Good(s, o, rules) && Pending(s, o.prepared, rules)
    requires GotIn(s.trace) != [] && r == AnswerFor(GotIn(s.trace), rules)
    ensures
      var history := s.store.history + [Answer(r)];
      && AnswersAre(s.(store := s.store.(history := history)), o.prepared, rules)
      && |AnswersIn(history[|o.prepared|..])| == |GotIn(s.trace)|
  {
    hide AnswerFor, TraceOk, NeverThrice, TrailingBlock, Matched, GotIn, AnswersIn, KeysOf, ModeIs;
    AnswersGrow(s.store.history, |o.prepared|, Answer(r));
    MatchedLast(AnswersIn(s.store.history[|o.prepared|..]), GotIn(s.trace), r, rules);
  }

  /** Leaving plan mode is noted once, with a valid plan in store. */
  lemma {:induction false} LeftKeeps(s: Live, call: ToolCall, r: ToolResult, o: Origin, rules: Rules)
    requires Good(s, o, rules)
    requires call.name == "write_plan" && ReadyForImplementation(r) ==> ExitOk(s.store.conv, rules.planning.validPlan)
    ensures
      var left := Left(s, call, r);
      && Good(left, o, rules) && left.store == s.store.(mode := left.store.mode) && left.messages == s.messages
      && GotIn(left.trace) == GotIn(s.trace) && KeysOf(left.trace, rules.identity) == KeysOf(s.trace, rules.identity)
      && AskedCount(left.trace) == AskedCount(s.trace)
  {
    hide TraceOk, NeverThrice, Matched, ExitOk, ReadyForImplementation, FailureKey, AskedOk;
    if Left(s, call, r) != s {
      TraceSnoc(s.trace, PlanLeft(s.store.conv), rules);
      TraceOkSnoc(s.trace, PlanLeft(s.store.conv), o.prepared, rules);
      assert GotIn(s.trace) + [] == GotIn(s.trace)
             && KeysOf(s.trace, rules.identity) + [] == KeysOf(s.trace, rules.identity);
    }
  }

  /** Drawing the consequences of an answer touches nothing that a run has to account for. */
  lemma {:induction false} ProgressedKeeps(s: Live, r: ToolResult, mutates: bool, rules: Rules, env: CallEnv)
    ensures
      var step := Progressed(s, r, mutates, rules, env);
      && step.live.trace == s.trace && step.live.messages == s.messages
      && step.live.store == s.store.(conv := s.store.conv.(evidence := step.live.store.conv.evidence))
      && (step.failure.NotFailed? || step.failure.StoreFailed?)
      && step.live.flags.accepted == s.flags.accepted
  {
    hide MutationObserved, ShouldNudge, E.WorkspaceMutated;
  }

  lemma {:induction false} SettledKeeps(s: Live, call: ToolCall, available: seq<Entry>, r: ToolResult, rules: Rules,
                                        env: CallEnv, o: Origin, waiting: seq<ToolCall>, nudges: nat)
    requires Good(s, o, rules) && Pending(s, o.prepared, rules) && s.messages == s.store.history
    requires GotIn(s.trace) != [] && r == AnswerFor(GotIn(s.trace), rules) && r.callId == call.id && r.name == call.name
    requires call.name == "write_plan" && ReadyForImplementation(r) ==> ExitOk(s.store.conv, rules.planning.validPlan)
    requires Told(s.store.history, o.prepared, waiting, nudges)
    requires waiting != [] && waiting[0].id == call.id && waiting[0].name == call.name
    ensures
      var step := Settled(s, call, available, r, rules, env);
      && Good(step.live, o, rules) && GuardSays(step.live, rules, step.failure)
      && AskedCount(step.live.trace) == AskedCount(s.trace)
      && Told(step.live.store.history, o.prepared, waiting[1..], nudges)
      && (step.failure.NotFailed? ==>
          Calm(step.live, o.prepared, rules) && step.live.messages == step.live.store.history)
  {
    hide TraceOk, NeverThrice, Matched, ExitOk, ReadyForImplementation, AnswerFor, Progressed, Mutates, Flagged, Left,
         TrailingBlock, KeysOf, HistoryOk, ModeIs;
    var answered := s.(store := s.store.(history := s.store.history + [Answer(r)]),
                       messages := s.messages + [Answer(r)]);
    AnsweredKeeps(s, r, o, rules);
    AppendAnswer(s.store.history, |o.prepared|, waiting, nudges, r);
    LeftKeeps(answered, call, r, o, rules);
    var left := Left(answered, call, r);
    ProgressedKeeps(left.(flags := Flagged(left.flags, call, r)), r, Mutates(call.name, available), rules, env);
  }

  /** One call of a round: answered and all is well, or the run is over. */
  lemma {:induction false} AnswerOneKeeps(s: Live, call: ToolCall, available: seq<Entry>, rules: Rules, env: RunEnv,
                                          i: nat, j: nat, o: Origin, waiting: seq<ToolCall>, nudges: nat)
    requires Good(s, o, rules) && Calm(s, o.prepared, rules) && s.messages == s.store.history
    requires Told(s.store.history, o.prepared, waiting, nudges)
    requires waiting != [] && waiting[0].id == call.id && waiting[0].name == call.name
    ensures
      var step := AnswerOne(s, call, available, rules, env, i, j);
      && Good(step.live, o, rules) && GuardSays(step.live, rules, step.failure)
      && AskedCount(step.live.trace) == AskedCount(s.trace)
      && (Told(step.live.store.history, o.prepared, waiting, nudges)
          || Told(step.live.store.history, o.prepared, waiting[1..], nudges))
      && (step.failure.NotFailed? ==>
            && Calm(step.live, o.prepared, rules) && step.live.messages == step.live.store.history
            && Told(step.live.store.history, o.prepared, waiting[1..], nudges))
  {
    hide HandleCall, Settled, KeysOf, TrailingBlock, NeverThrice, Told, Noted, WithWarning, Good, ExitOk,
         ReadyForImplementation, AnswerFor, GateSafe, SubmissionAccepted;
    var h := HandleCall(s.store.conv, s.store.mode, call, available, rules, env.call(i, j));
    var s' := s.(store := s.store.(conv := h.conv), trace := Noted(s.trace, s.store.mode, call, h, env.call(i, j)));
    NotedKeeps(s, call, available, rules, env.call(i, j), o);
    HandledCallKeeps(s.store.conv, s.store.mode, call, available, rules, env.call(i, j));
    WarningKeeps(h.result, rules.mentionsWarning);
    if env.historyStored(|s.store.history|) {
      SettledKeeps(s', call, available, Given(s'.trace, h.result, rules), rules, env.call(i, j), o, waiting, nudges);
    }
  }
}
