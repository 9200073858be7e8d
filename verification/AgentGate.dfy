/** When a run may end: the accepted submission, and what could uncover it again. */
module AgentGate {
  import opened Wrappers
  import opened Text
  import opened Todos
  import opened PlanState
  import opened ToolResults
  import opened Transcript
  import opened FailureTracker
  import opened ToolPolicy
  import opened AgentStep
  import opened AgentRun
  import opened AgentCalls
  import opened AgentTrace
  import S = Submission
  import E = CommandEvidence

  // ----- One call -----

  /** The accepted flag stands for a conversation without an active plan and without todos. */
  ghost predicate GateAt(s: Live) {
    s.flags.accepted ==> Cleared(s.store.conv.plan, s.store.conv.todos)
  }

  /** A result that reports a plan or todo write is answered as it is. */
  lemma {:induction false} WrittenIsGiven(trace: seq<Happening>, mode: Mode, call: ToolCall, h: Handled, rules: Rules,
                                         env: CallEnv)
    requires PlanOrTodosWritten(h.result)
    ensures Given(Noted(trace, mode, call, h, env), h.result, rules) == h.result
  {
    hide WithWarning, Noted, KeysOf;
    NotedTrace(trace, mode, call, h, rules, env);
    SuccessIsNoFailure(h.result);
  }

  /** The flag and the conversation after a call that did not end the run. */
  lemma {:induction false} AnswerOneFlag(s: Live, call: ToolCall, available: seq<Entry>, rules: Rules, env: RunEnv,
                                         i: nat, j: nat)
    ensures
      var h := HandleCall(s.store.conv, s.store.mode, call, available, rules, env.call(i, j));
      var step := AnswerOne(s, call, available, rules, env, i, j);
      step.failure.NotFailed? ==>
        && step.live.store.conv.plan == h.conv.plan && step.live.store.conv.todos == h.conv.todos
        && step.live.flags.accepted ==
           ((s.flags.accepted || (call.name == "submit_plan_implementation" && SubmissionAccepted(h.result)))
            && !PlanOrTodosWritten(h.result))
  {
    hide HandleCall, MutationObserved, ShouldNudge, E.WorkspaceMutated, WithWarning, KeysOf, TrailingBlock,
         SubmissionAccepted, ReadyForImplementation, PlanOrTodosWritten, Succeeded, Noted;
    var h := HandleCall(s.store.conv, s.store.mode, call, available, rules, env.call(i, j));
    WarningKeeps(h.result, rules.mentionsWarning);
    if PlanOrTodosWritten(h.result) {
      WrittenIsGiven(s.trace, s.store.mode, call, h, rules, env.call(i, j));
    } else {
      WarnedIsNotWritten(h.result, rules.mentionsWarning);
    }
  }

  lemma {:induction false} WarnedIsNotWritten(r: ToolResult, mentions: string -> bool)
    requires !PlanOrTodosWritten(r)
    ensures !PlanOrTodosWritten(WithWarning(r, mentions))
  {
    hide FailureText, TrimSpace;
  }

  /** Some plan write ran that the stores left half done. */
  ghost predicate TornIn(trace: seq<Happening>) {
    exists k :: 0 <= k < |trace| && trace[k].Ran? && trace[k].entry.name == "write_plan" && Torn(trace[k].writes)
  }

  /** The gate holds, or a plan write has been torn. */
  ghost predicate GateOrTorn(s: Live) {
    GateAt(s) || TornIn(s.trace)
  }

  lemma {:induction false} StillTorn(before: seq<Happening>, after: seq<Happening>)
    requires before <= after && TornIn(before)
    ensures TornIn(after)
  {
    var k :| 0 <= k < |before| && before[k].Ran? && before[k].entry.name == "write_plan" && Torn(before[k].writes);
    assert after[k] == before[k];
  }

  /** The trace of a call: it goes on from what it was, and shows the tool that ran. */
  lemma {:induction false} AnswerOneTrace(s: Live, call: ToolCall, available: seq<Entry>, rules: Rules, env: RunEnv,
                                          i: nat, j: nat)
    ensures
      var h := HandleCall(s.store.conv, s.store.mode, call, available, rules, env.call(i, j));
      var trace := AnswerOne(s, call, available, rules, env, i, j).live.trace;
      && s.trace <= trace
      && (h.ran.Some? ==>
            |trace| > |s.trace| && trace[|s.trace|] == Ran(s.store.mode, h.ran.value, env.call(i, j).planning.writes))
  {
    hide HandleCall, MutationObserved, ShouldNudge, E.WorkspaceMutated, WithWarning, KeysOf, TrailingBlock,
         SubmissionAccepted, ReadyForImplementation, PlanOrTodosWritten, Succeeded, Given, Flagged;
  }

  /** A call keeps the gate, unless it is a plan write that ran and was torn. */
  lemma {:induction false} AnswerOneGate(s: Live, call: ToolCall, available: seq<Entry>, rules: Rules, env: RunEnv,
                                         i: nat, j: nat)
    requires GateOrTorn(s)
    ensures
      var step := AnswerOne(s, call, available, rules, env, i, j);
      step.failure.NotFailed? ==> GateOrTorn(step.live)
  {
    hide HandleCall, AnswerOne, SubmissionAccepted, ReadyForImplementation, PlanOrTodosWritten, Cleared, Torn, TornIn;
    var h := HandleCall(s.store.conv, s.store.mode, call, available, rules, env.call(i, j));
    var trace := AnswerOne(s, call, available, rules, env, i, j).live.trace;
    HandledCallKeeps(s.store.conv, s.store.mode, call, available, rules, env.call(i, j));
    AnswerOneFlag(s, call, available, rules, env, i, j);
    AnswerOneTrace(s, call, available, rules, env, i, j);
    if TornIn(s.trace) {
      StillTorn(s.trace, trace);
    } else if h.ran.Some? && h.ran.value.name == "write_plan" && Torn(env.call(i, j).planning.writes) {
      TornHere(trace, |s.trace|);
    }
  }

  lemma {:induction false} TornHere(trace: seq<Happening>, k: nat)
    requires k < |trace| && trace[k].Ran? && trace[k].entry.name == "write_plan" && Torn(trace[k].writes)
    ensures TornIn(trace)
  {
  }

  /**
   * A plan write after an accepted submission, in plan mode: the gate survives it exactly when its arguments are
   * refused or the stores do not tear it.
   */
  lemma {:induction false} PlanWriteKeepsGateIff(s: Live, call: ToolCall, available: seq<Entry>, rules: Rules,
                                                 env: RunEnv, i: nat, j: nat)
    requires s.flags.accepted && GateAt(s) && s.store.mode == PlanMode
    requires call.name == "write_plan" && TrimSpace(call.id) != "" && rules.validJson(ArgumentsOf(call))
    requires CallAllowed(PlanMode, call.name, available, rules.letters) && rules.executor
    requires ValidPlansAreActive(rules.planning.validPlan)
    requires AnswerOne(s, call, available, rules, env, i, j).failure.NotFailed?
    ensures
      GateAt(AnswerOne(s, call, available, rules, env, i, j).live) <==>
      !(Acceptable(ArgumentsOf(call), rules) && Torn(env.call(i, j).planning.writes))
  {
    hide AnswerOne, SubmissionAccepted, PlanOrTodosWritten, Cleared, Torn, Acceptable, ActivePlan, ValidPlansAreActive,
         S.WritePlanTool, ResultOf, ToolDecision;
    AnswerOneFlag(s, call, available, rules, env, i, j);
    PlanWriteIsGateSafeIff(s.store.conv, call, rules, env.call(i, j).planning, ArgumentsOf(call));
    NotBlank();
  }

  lemma {:induction false} NotBlank()
    ensures TrimSpace("write_plan") != ""
  {
    hide TrimSpace;
    assert !IsSpace('w') && !IsSpace('n');
    TrimSpaceOfLine("write_plan");
  }

  // ----- A whole run -----

  lemma {:induction false} AnswerAllGate(s: Live, calls: seq<ToolCall>, available: seq<Entry>, rules: Rules,
                                         env: RunEnv, i: nat, j: nat)
    requires j <= |calls| && GateOrTorn(s)
    ensures
      var step := AnswerAll(s, calls, available, rules, env, i, j);
      step.failure.NotFailed? ==> GateOrTorn(step.live)
    decreases |calls| - j
  {
    hide AnswerOne, GateOrTorn;
    if j < |calls| {
      AnswerOneGate(s, calls[j], available, rules, env, i, j);
      var step := AnswerOne(s, calls[j], available, rules, env, i, j);
      if step.failure.NotFailed? {
        AnswerAllGate(step.live, calls, available, rules, env, i, j + 1);
      }
    }
  }

  /** One pass keeps the gate, and ends with a completed run only when everything is cleared. */
  ghost predicate TurnGated(t: TurnStep) {
    if t.ended.None? then GateOrTorn(t.next.live)
    else t.ended.value.completed ==>
           Cleared(t.next.live.store.conv.plan, t.next.live.store.conv.todos) || TornIn(t.next.live.trace)
  }

  lemma {:induction false} ActedGate(l: Loop, response: Response, available: seq<Entry>, rules: Rules, max: nat,
                                     env: RunEnv)
    requires GateOrTorn(l.live)
    ensures TurnGated(Acted(l, response, available, rules, max, env))
  {
    hide AnswerAll, Cleared, Sanitized, WithoutNudge, CheckpointFor, TornIn;
    var Response(text, calls) := response;
    var l1 := l.(live := l.live.(messages := WithoutNudge(l.live.messages, l.progressNudge)));
    var live := Appended(l1.live, Assistant(text, Sanitized(calls, rules.validJson)));
    AnswerAllGate(live.(flags := live.flags.(nudge := false, todosUpdated := false)), calls, available, rules, env,
                  l.toolRounds, 0);
  }

  lemma {:induction false} AskingGate(l: Loop, available: seq<Entry>, rules: Rules)
    requires GateOrTorn(l.live)
    ensures GateOrTorn(Asking(l, available, rules).live)
  {
    hide Cleared, TornIn, Filtered, RequestFor;
    if TornIn(l.live.trace) {
      StillTorn(l.live.trace, Asking(l, available, rules).live.trace);
    }
  }

  lemma {:induction false} TurnGate(l: Loop, rules: Rules, max: nat, env: RunEnv)
    requires GateOrTorn(l.live)
    ensures TurnGated(Turn(l, rules, max, env))
  {
    hide Acted, Filtered, RequestFor, GateOrTorn, Asking;
    var mode, active := l.live.store.mode, env.active(l.toolRounds);
    if active.Some? && !mode.OtherMode? {
      var available := active.value;
      var response := env.model(l.toolRounds, RequestFor(l.live.messages, mode, rules),
                                Filtered(mode, available, rules.letters));
      AskingGate(l, available, rules);
      if response.Some? {
        ActedGate(Asking(l, available, rules), response.value, available, rules, max, env);
      }
    }
  }

  lemma {:induction false} RunFromGate(l: Loop, rules: Rules, max: nat, env: RunEnv)
    requires l.toolRounds <= max && GateOrTorn(l.live)
    ensures
      var e := RunFrom(l, rules, max, env);
      e.result.completed ==> Cleared(e.live.store.conv.plan, e.live.store.conv.todos) || TornIn(e.live.trace)
    decreases max - l.toolRounds
  {
    hide Turn, GateOrTorn, Cleared, TornIn;
    TurnGate(l, rules, max, env);
    TurnGoesOn(l, rules, max, env);
    var turn := Turn(l, rules, max, env);
    if turn.ended.None? {
      RunFromGate(turn.next, rules, max, env);
    }
  }

  /** A completed run leaves no active plan and no todos, unless it ran a plan write that the stores left half done. */
  lemma {:induction false} CompletedRunHasCleared(store: Store, prompt: string, system: string, rules: Rules, max: nat,
                                                  env: RunEnv)
    ensures
      var e := Run(store, prompt, system, rules, max, env);
      e.result.completed ==> Cleared(e.live.store.conv.plan, e.live.store.conv.todos) || TornIn(e.live.trace)
  {
    hide RunFrom, Cleared, TornIn, Routed, Prepared;
    var start := Begin(store, prompt, system, env);
    if start.failure.NotFailed? {
      RunFromGate(Loop(start.live, None, false, 0, ""), rules, max, env);
    }
  }

  // ----- The bound of a run -----

  /** The same stores, and the same model, tools and calls up to request `n`. */
  ghost predicate SameUpTo(env: RunEnv, env': RunEnv, n: nat) {
    && env'.compact == env.compact && env'.route == env.route
    && env'.historyStored == env.historyStored && env'.callbackFails == env.callbackFails
    && (forall i :: 0 <= i <= n ==> env'.active(i) == env.active(i) && env'.stateRead(i) == env.stateRead(i))
    && (forall i, request, tools :: 0 <= i <= n ==> env'.model(i, request, tools) == env.model(i, request, tools))
    && (forall i, j :: 0 <= i < n && 0 <= j ==> env'.call(i, j) == env.call(i, j))
  }

  lemma {:induction false} AnswerAllSame(s: Live, calls: seq<ToolCall>, available: seq<Entry>, rules: Rules,
                                         env: RunEnv, env': RunEnv, n: nat, i: nat, j: nat)
    requires SameUpTo(env, env', n) && i < n && j <= |calls|
    ensures AnswerAll(s, calls, available, rules, env', i, j) == AnswerAll(s, calls, available, rules, env, i, j)
    decreases |calls| - j
  {
    hide HandleCall, Settled, Given, Noted;
    if j < |calls| {
      var step := AnswerOne(s, calls[j], available, rules, env, i, j);
      assert AnswerOne(s, calls[j], available, rules, env', i, j) == step;
      if step.failure.NotFailed? {
        AnswerAllSame(step.live, calls, available, rules, env, env', n, i, j + 1);
      }
    }
  }

  lemma {:induction false} TurnSame(l: Loop, rules: Rules, max: nat, env: RunEnv, env': RunEnv)
    requires SameUpTo(env, env', max) && l.toolRounds <= max
    ensures Turn(l, rules, max, env') == Turn(l, rules, max, env)
  {
    hide AnswerAll, Cleared, Filtered, Sanitized, RequestFor, WithoutNudge, CheckpointFor;
    var mode, active := l.live.store.mode, env.active(l.toolRounds);
    if active.Some? && !mode.OtherMode? {
      var response := env.model(l.toolRounds, RequestFor(l.live.messages, mode, rules),
                                Filtered(mode, active.value, rules.letters));
      if response.Some? {
        ActedSame(Asking(l, active.value, rules), response.value, active.value, rules, max, env, env');
      }
    }
  }

  lemma {:induction false} ActedSame(l: Loop, response: Response, available: seq<Entry>, rules: Rules, max: nat,
                                     env: RunEnv, env': RunEnv)
    requires SameUpTo(env, env', max) && l.toolRounds <= max
    ensures Acted(l, response, available, rules, max, env') == Acted(l, response, available, rules, max, env)
  {
    hide AnswerAll, Cleared, Sanitized, WithoutNudge, CheckpointFor;
    var Response(text, calls) := response;
    if l.toolRounds < max {
      var l1 := l.(live := l.live.(messages := WithoutNudge(l.live.messages, l.progressNudge)));
      var live := Appended(l1.live, Assistant(text, Sanitized(calls, rules.validJson)));
      AnswerAllSame(live.(flags := live.flags.(nudge := false, todosUpdated := false)), calls, available, rules, env,
                    env', max, l.toolRounds, 0);
    }
  }

  lemma {:induction false} RunFromSame(l: Loop, rules: Rules, max: nat, env: RunEnv, env': RunEnv)
    requires SameUpTo(env, env', max) && l.toolRounds <= max
    ensures RunFrom(l, rules, max, env') == RunFrom(l, rules, max, env)
    decreases max - l.toolRounds
  {
    hide Turn, SameUpTo;
    TurnSame(l, rules, max, env, env');
    TurnGoesOn(l, rules, max, env);
    TurnGoesOn(l, rules, max, env');
    var turn := Turn(l, rules, max, env);
    if turn.ended.None? {
      RunFromSame(turn.next, rules, max, env, env');
    }
  }

  /** Nothing the model would say after `max + 1` answers, and no call after `max` rounds, has any part in a run. */
  lemma {:induction false} RunIsBounded(store: Store, prompt: string, system: string, rules: Rules, max: nat,
                                        env: RunEnv, env': RunEnv)
    requires SameUpTo(env, env', max)
    ensures Run(store, prompt, system, rules, max, env') == Run(store, prompt, system, rules, max, env)
  {
    hide RunFrom, Routed, Prepared;
    var start := Begin(store, prompt, system, env);
    if start.failure.NotFailed? {
      RunFromSame(Loop(start.live, None, false, 0, ""), rules, max, env, env');
    }
  }

  // ----- The start of a run -----

  /**
   * A run starts with its own system prompt, exactly one in front, keeps the rest of the old messages and ends with
   * the user's prompt; preparing again replaces the system prompt.
   */
  lemma {:induction false} PreparedMeaning(history: seq<Message>, prompt: string, system: string, prompt': string,
                                           system': string)
    ensures
      var p := Prepared(history, prompt, system);
      && |p| >= 2 && p[0] == System(system) && p[|p| - 1] == User(prompt)
      && p[1..|p| - 1] == (if history != [] && history[0].System? then history[1..] else history)
      && Prepared(p, prompt', system') == Prepared(history, prompt, system') + [User(prompt')]
  {
    var p := Prepared(history, prompt, system);
    assert p[0 := System(system')] == Prepared(history, prompt, system');
  }
}
