/** Every run of the agent: what is stored, what the model is shown, what is executed, and when a run may end. */
module AgentSafety {
  import opened Wrappers
  import opened PlanState
  import opened ToolResults
  import opened Transcript
  import opened FailureTracker
  import opened ToolPolicy
  import opened AgentStep
  import opened AgentRun
  import opened AgentCalls
  import opened AgentTrace
  import E = CommandEvidence

  // ----- A round -----

  /** The same calls by id and name: what is stored of a round differs from what is executed only in its arguments. */
  ghost predicate SameCalls(calls: seq<ToolCall>, stored: seq<ToolCall>) {
    |calls| == |stored|
    && forall k :: 0 <= k < |calls| ==> calls[k].id == stored[k].id && calls[k].name == stored[k].name
  }

  /** Every call of the run has been answered in turn, all of them if it is complete; at most one nudge was stored. */
  ghost predicate InTurn(history: seq<Message>, prepared: seq<Message>, nudges: nat, complete: bool) {
    exists waiting :: Told(history, prepared, waiting, nudges) && (complete ==> waiting == [])
  }

  lemma {:induction false} AnswerAllKeeps(s: Live, calls: seq<ToolCall>, stored: seq<ToolCall>, available: seq<Entry>,
                                          rules: Rules, env: RunEnv, i: nat, j: nat, o: Origin, nudges: nat)
    requires j <= |calls| && SameCalls(calls, stored)
    requires Good(s, o, rules) && Calm(s, o.prepared, rules) && s.messages == s.store.history
    requires Told(s.store.history, o.prepared, stored[j..], nudges)
    ensures
      var step := AnswerAll(s, calls, available, rules, env, i, j);
      && Good(step.live, o, rules) && GuardSays(step.live, rules, step.failure)
      && AskedCount(step.live.trace) == AskedCount(s.trace)
      && InTurn(step.live.store.history, o.prepared, nudges, false)
      && (step.failure.NotFailed? ==>
            && Calm(step.live, o.prepared, rules) && step.live.messages == step.live.store.history
            && Told(step.live.store.history, o.prepared, [], nudges))
    decreases |calls| - j
  {
    hide AnswerOne, Good, Told, TrailingBlock, KeysOf, AskedCount;
    if j == |calls| {
      assert stored[j..] == [];
    } else {
      assert stored[j..][0] == stored[j] && stored[j..][1..] == stored[j + 1..];
      AnswerOneKeeps(s, calls[j], available, rules, env, i, j, o, stored[j..], nudges);
      var step := AnswerOne(s, calls[j], available, rules, env, i, j);
      if step.failure.NotFailed? {
        AnswerAllKeeps(step.live, calls, stored, available, rules, env, i, j + 1, o, nudges);
      }
    }
  }

  /** Answers leave the last text of the assistant alone. */
  lemma {:induction false} AnswerOneText(s: Live, call: ToolCall, available: seq<Entry>, rules: Rules, env: RunEnv,
                                         i: nat, j: nat, base: nat)
    requires base <= |s.store.history|
    ensures
      var after := AnswerOne(s, call, available, rules, env, i, j).live.store.history;
      base <= |after| && LastText(after[base..]) == LastText(s.store.history[base..])
  {
    hide HandleCall, LastText, MutationObserved, ShouldNudge, E.WorkspaceMutated, WithWarning, KeysOf, TrailingBlock,
         SubmissionAccepted, ReadyForImplementation, PlanOrTodosWritten, Succeeded, Noted;
    var after := AnswerOne(s, call, available, rules, env, i, j).live.store.history;
    if after != s.store.history {
      TextAfter(s.store.history, base, after[|s.store.history|]);
    }
  }

  lemma {:induction false} AnswerAllText(s: Live, calls: seq<ToolCall>, available: seq<Entry>, rules: Rules,
                                         env: RunEnv, i: nat, j: nat, base: nat)
    requires j <= |calls| && base <= |s.store.history|
    ensures
      var after := AnswerAll(s, calls, available, rules, env, i, j).live.store.history;
      base <= |after| && LastText(after[base..]) == LastText(s.store.history[base..])
    decreases |calls| - j
  {
    hide AnswerOne, LastText;
    if j < |calls| {
      AnswerOneText(s, calls[j], available, rules, env, i, j, base);
      var step := AnswerOne(s, calls[j], available, rules, env, i, j);
      if step.failure.NotFailed? {
        AnswerAllText(step.live, calls, available, rules, env, i, j + 1, base);
      }
    }
  }

  // ----- One pass of the loop -----

  function NudgesOf(l: Loop): nat {
    if l.submitNudged then 1 else 0
  }

  /** The output is the last text that the run has stored. */
  ghost predicate OutputIs(output: string, history: seq<Message>, prepared: seq<Message>) {
    prepared <= history && output == LastText(history[|prepared|..])
  }

  /** What holds of the loop with `asked` requests made: the history is in turn, and nothing has gone wrong. */
  ghost predicate Sound(l: Loop, o: Origin, rules: Rules, asked: nat) {
    && AskedCount(l.live.trace) == asked && Good(l.live, o, rules) && Calm(l.live, o.prepared, rules)
    && Told(l.live.store.history, o.prepared, [], NudgesOf(l)) && OutputIs(l.output, l.live.store.history, o.prepared)
  }

  /** What holds whenever the loop is about to ask the model. */
  ghost predicate AtHead(l: Loop, o: Origin, rules: Rules, max: nat) {
    && l.toolRounds <= max && Sound(l, o, rules, l.toolRounds)
    && l.live.messages == Shown(l.live.store.history, l.progressNudge)
    && (l.progressNudge.Some? ==> IsCheckpoint(l.progressNudge.value))
  }

  /** What a finished run leaves behind. */
  ghost predicate AtEnd(e: End, o: Origin, rules: Rules, max: nat) {
    && Good(e.live, o, rules) && GuardSays(e.live, rules, e.result.failure) && AskedCount(e.live.trace) <= max + 1
    && (e.result.completed <==> e.result.failure.NotFailed?)
    && (e.result.completed ==> OutputIs(e.result.output, e.live.store.history, o.prepared))
    && (InTurn(e.live.store.history, o.prepared, 0, e.result.completed)
        || InTurn(e.live.store.history, o.prepared, 1, e.result.completed))
  }

  /** What one pass promises: the loop goes on from its head, or the run is over. */
  ghost predicate TurnOk(t: TurnStep, o: Origin, rules: Rules, max: nat) {
    match t.ended
    case None => AtHead(t.next, o, rules, max)
    case Some(result) => AtEnd(End(result, t.next.live), o, rules, max)
  }

  lemma {:induction false} StoppedIsOk(l: Loop, result: RunResult, o: Origin, rules: Rules, max: nat, asked: nat)
    requires Sound(l, o, rules, asked) && asked <= max + 1
    requires !result.failure.RepeatedFailure? && (result.completed <==> result.failure.NotFailed?)
    requires result.completed ==> result.output == l.output
    ensures AtEnd(End(result, l.live), o, rules, max)
  {
    hide Good, Told, TrailingBlock, KeysOf, AskedCount, OutputIs;
    assert InTurn(l.live.store.history, o.prepared, NudgesOf(l), result.completed);
  }

  lemma {:induction false} ShownPlain(history: seq<Message>)
    ensures Shown(history, None) == history
  {
    assert history + [] == history;
  }

  /** Storing a message that is no answer leaves everything in place but what is waiting. */
  lemma {:induction false} StoredKeeps(s: Live, m: Message, o: Origin, rules: Rules)
    requires Good(s, o, rules) && Calm(s, o.prepared, rules) && !m.Answer?
    ensures Good(Appended(s, m), o, rules) && Calm(Appended(s, m), o.prepared, rules)
  {
    hide TraceOk, NeverThrice, TrailingBlock, Matched, GotIn, AnswersIn, KeysOf, ModeIs;
    AnswersGrow(s.store.history, |o.prepared|, m);
    var answers := AnswersIn(s.store.history[|o.prepared|..]);
    assert answers + [] == answers;
  }

  lemma {:induction false} FinishedKeeps(l: Loop, max: nat, env: RunEnv, o: Origin, rules: Rules)
    requires l.toolRounds <= max && Sound(l, o, rules, l.toolRounds + 1) && l.live.messages == l.live.store.history
    requires l.progressNudge.None?
    ensures TurnOk(Finished(l, max, env), o, rules, max)
  {
    hide Good, Calm, HistoryOk, AskedCount, AtEnd, Cleared, LastText;
    var t := Finished(l, max, env);
    if t.ended.Some? {
      StoppedIsOk(l, t.ended.value, o, rules, max, l.toolRounds + 1);
    } else {
      StoredKeeps(l.live, System(SUBMIT_REQUIRED), o, rules);
      AppendNudge(l.live.store.history, |o.prepared|, 0, SUBMIT_REQUIRED);
      TextAfter(l.live.store.history, |o.prepared|, System(SUBMIT_REQUIRED));
      ShownPlain(t.next.live.store.history);
    }
  }

  /** After the round the checkpoint is shown, not stored. */
  lemma {:induction false} CheckpointShown(s: Live, rules: Rules)
    requires s.messages == s.store.history && CheckpointFor(s, rules).Some?
    ensures
      var nudge := CheckpointFor(s, rules);
      IsCheckpoint(nudge.value) && s.messages + [nudge.value] == Shown(s.store.history, nudge)
  {
    var nudge := CheckpointFor(s, rules).value;
    assert nudge.content == NUDGE_PREFIX + ("\n" + rules.renderTodos(s.store.conv.todos));
  }

  lemma {:induction false} RoundOfKeeps(l: Loop, calls: seq<ToolCall>, stored: seq<ToolCall>, available: seq<Entry>,
                                        rules: Rules, max: nat, env: RunEnv, o: Origin)
    requires l.toolRounds < max && SameCalls(calls, stored) && l.progressNudge.None?
    requires AskedCount(l.live.trace) == l.toolRounds + 1 && l.live.messages == l.live.store.history
    requires Good(l.live, o, rules) && Calm(l.live, o.prepared, rules)
    requires Told(l.live.store.history, o.prepared, stored, NudgesOf(l))
             && OutputIs(l.output, l.live.store.history, o.prepared)
    ensures TurnOk(RoundOf(l, calls, available, rules, env), o, rules, max)
  {
    hide AnswerAll, Good, Calm, HistoryOk, GuardSays, KeysOf, AskedCount, CheckpointFor, InTurn, LastText;
    var started := l.live.(flags := l.live.flags.(nudge := false, todosUpdated := false));
    FlagsDoNotMatter(l.live, started, o, rules);
    assert stored[0..] == stored;
    AnswerAllKeeps(started, calls, stored, available, rules, env, l.toolRounds, 0, o, NudgesOf(l));
    AnswerAllText(started, calls, available, rules, env, l.toolRounds, 0, |o.prepared|);
    var step := AnswerAll(started, calls, available, rules, env, l.toolRounds, 0);
    var t := RoundOf(l, calls, available, rules, env);
    if t.ended.None? {
      ShownPlain(step.live.store.history);
      if CheckpointFor(step.live, rules).Some? {
        CheckpointShown(step.live, rules);
        FlagsDoNotMatter(step.live, t.next.live, o, rules);
      }
    } else if step.failure.NotFailed? {
      StoppedIsOk(t.next, t.ended.value, o, rules, max, t.next.toolRounds);
    }
  }

  /** Of a state, only what is stored, the mode and the trace are accounted for. */
  lemma {:induction false} FlagsDoNotMatter(s: Live, s': Live, o: Origin, rules: Rules)
    requires s'.store == s.store && s'.trace == s.trace
    ensures Good(s, o, rules) ==> Good(s', o, rules)
    ensures Calm(s, o.prepared, rules) ==> Calm(s', o.prepared, rules)
  {
    hide TraceOk, NeverThrice, TrailingBlock, Matched, GotIn, AnswersIn, KeysOf, ModeIs;
  }

  /** Without its checkpoint, what the model was shown is what is stored. */
  lemma {:induction false} NudgeDrops(messages: seq<Message>, history: seq<Message>, nudge: Option<Message>)
    requires messages == Shown(history, nudge) && (nudge.Some? ==> IsCheckpoint(nudge.value))
    ensures WithoutNudge(messages, nudge) == history
  {
    if nudge.Some? {
      assert messages[..|messages| - 1] == history;
    } else {
      ShownPlain(history);
    }
  }

  lemma {:induction false} SanitizedIsSame(calls: seq<ToolCall>, validJson: string -> bool)
    ensures SameCalls(calls, Sanitized(calls, validJson))
  {
  }

  lemma {:induction false} ActedKeeps(l: Loop, response: Response, available: seq<Entry>, rules: Rules, max: nat,
                                      env: RunEnv, o: Origin)
    requires l.toolRounds <= max && Sound(l, o, rules, l.toolRounds + 1)
    requires l.live.messages == Shown(l.live.store.history, l.progressNudge)
    requires l.progressNudge.Some? ==> IsCheckpoint(l.progressNudge.value)
    ensures TurnOk(Acted(l, response, available, rules, max, env), o, rules, max)
  {
    hide Good, Calm, HistoryOk, AskedCount, AtEnd, AtHead, RoundOf, Finished, Sanitized, WithoutNudge, Shown, SameCalls,
         LastText;
    var Response(text, calls) := response;
    NudgeDrops(l.live.messages, l.live.store.history, l.progressNudge);
    var l1 := l.(live := l.live.(messages := l.live.store.history), progressNudge := None,
                 output := if text != "" then text else l.output);
    FlagsDoNotMatter(l.live, l1.live, o, rules);
    if calls != [] && l.toolRounds >= max {
      StoppedIsOk(l1.(output := l.output), RunResult(l1.output, false, MaxToolRounds), o, rules, max, l.toolRounds + 1);
    } else if text == "" && calls == [] {
      FinishedKeeps(l1, max, env, o, rules);
    } else if !env.historyStored(|l1.live.store.history|) {
      StoppedIsOk(l1.(output := l.output), RunResult(l1.output, false, StoreFailed), o, rules, max, l.toolRounds + 1);
    } else {
      var stored := Sanitized(calls, rules.validJson);
      var l2 := l1.(live := Appended(l1.live, Assistant(text, stored)));
      StoredKeeps(l1.live, Assistant(text, stored), o, rules);
      AppendAssistant(l1.live.store.history, |o.prepared|, NudgesOf(l), text, stored);
      TextAfter(l1.live.store.history, |o.prepared|, Assistant(text, stored));
      SanitizedIsSame(calls, rules.validJson);
      if calls == [] {
        NoCalls(stored, calls);
        FinishedKeeps(l2, max, env, o, rules);
      } else {
        RoundOfKeeps(l2, calls, stored, available, rules, max, env, o);
      }
    }
  }

  lemma {:induction false} NoCalls(stored: seq<ToolCall>, calls: seq<ToolCall>)
    requires SameCalls(calls, stored) && calls == []
    ensures stored == []
  {
  }

  /** The request noted is the stored messages, the checkpoint and the mode. */
  lemma {:induction false} AskingKeeps(l: Loop, available: seq<Entry>, o: Origin, rules: Rules, max: nat)
    requires AtHead(l, o, rules, max)
    ensures Sound(Asking(l, available, rules), o, rules, l.toolRounds + 1)
  {
    hide TraceOk, NeverThrice, TrailingBlock, Matched, AnswersIn, FailureKey, Shown, Filtered, IsCheckpoint, LastText;
    var asking := Asking(l, available, rules);
    var x := asking.live.trace[|l.live.trace|];
    TraceSnoc(l.live.trace, x, rules);
    TraceOkSnoc(l.live.trace, x, o.prepared, rules);
    assert GotIn(l.live.trace) + [] == GotIn(l.live.trace);
    assert KeysOf(l.live.trace, rules.identity) + [] == KeysOf(l.live.trace, rules.identity);
  }

  lemma {:induction false} TurnKeeps(l: Loop, rules: Rules, max: nat, env: RunEnv, o: Origin)
    requires AtHead(l, o, rules, max)
    ensures TurnOk(Turn(l, rules, max, env), o, rules, max)
  {
    hide Sound, AtEnd, Acted, Shown, Filtered, RequestFor, IsCheckpoint;
    var available := env.active(l.toolRounds);
    if available.None? || l.live.store.mode.OtherMode? {
      StoppedIsOk(l, Turn(l, rules, max, env).ended.value, o, rules, max, l.toolRounds);
    } else {
      var asking := Asking(l, available.value, rules);
      AskingKeeps(l, available.value, o, rules, max);
      var mode := l.live.store.mode;
      match env.model(l.toolRounds, RequestFor(l.live.messages, mode, rules),
                      Filtered(mode, available.value, rules.letters)) {
        case None => StoppedIsOk(asking, RunResult(l.output, false, ModelFailed), o, rules, max, l.toolRounds + 1);
        case Some(response) => ActedKeeps(asking, response, available.value, rules, max, env, o);
      }
    }
  }

  // ----- A whole run -----

  lemma {:induction false} RunFromKeeps(l: Loop, rules: Rules, max: nat, env: RunEnv, o: Origin)
    requires AtHead(l, o, rules, max)
    ensures AtEnd(RunFrom(l, rules, max, env), o, rules, max)
    decreases max - l.toolRounds
  {
    hide Sound, AtEnd, Turn, Shown, IsCheckpoint;
    TurnKeeps(l, rules, max, env, o);
    TurnGoesOn(l, rules, max, env);
    var turn := Turn(l, rules, max, env);
    if turn.ended.None? {
      RunFromKeeps(turn.next, rules, max, env, o);
    }
  }

  lemma {:induction false} BeginIsSound(store: Store, prompt: string, system: string, rules: Rules, max: nat,
                                        env: RunEnv)
    requires Started(store, prompt, system, env).Some?
    ensures
      var prepared := Started(store, prompt, system, env).value;
      var start := Begin(store, prompt, system, env);
      AtHead(Loop(start.live, None, false, 0, ""), Origin(prepared, start.live.store.mode), rules, max)
  {
    hide Cleared, Prepared;
    var prepared := Started(store, prompt, system, env).value;
    ShownPlain(prepared);
    assert prepared[|prepared|..] == [];
  }

  /**
   * Every run. A run that cannot start leaves everything alone. Otherwise, whatever the model, the tools and the
   * stores do: the stored history is the prepared messages and then what the run adds, every call answered in turn
   * by what its tool returned; every request is that history, a checkpoint at most, and the current mode; a tool runs
   * only when the mode allows it, and plan mode is left once at most, with a valid plan and valid todos in store; the
   * third identical failure in a row ends the run and none before it; there are at most `max + 1` requests; and a
   * completed run has answered every call and returns the last text it stored.
   */
  lemma {:induction false} EveryRunIsSound(store: Store, prompt: string, system: string, rules: Rules, max: nat,
                                           env: RunEnv)
    ensures
      var e := Run(store, prompt, system, rules, max, env);
      match Started(store, prompt, system, env)
      case None => e == End(RunResult("", false, StoreFailed), Live(store, [], NO_FLAGS, []))
      case Some(prepared) =>
        AtEnd(e, Origin(prepared, Routed(store.(history := prepared), env.route).0.mode), rules, max)
  {
    hide AtEnd, Sound, Shown, Turn, Routed, Prepared, IsCheckpoint;
    var start := Begin(store, prompt, system, env);
    if Started(store, prompt, system, env).Some? {
      var o := Origin(Started(store, prompt, system, env).value, start.live.store.mode);
      var l := Loop(start.live, None, false, 0, "");
      BeginIsSound(store, prompt, system, rules, max, env);
      if start.failure.NotFailed? {
        RunFromKeeps(l, rules, max, env, o);
      } else {
        StoppedIsOk(l, RunResult("", false, start.failure), o, rules, max, 0);
      }
    }
  }
}
