/** The runner: the agent loop as it changes its state step by step, proved to be the run that the model describes. */
module AgentLoop {
  import opened Wrappers
  import opened Text
  import opened Todos
  import opened PlanState
  import opened ToolResults
  import opened Transcript
  import opened FailureTracker
  import opened ToolPolicy
  import opened AgentStep
  import opened AgentTrace
  import R = AgentRun
  import Gate = AgentGate
  import Safety = AgentSafety
  import S = Submission
  import E = CommandEvidence

  /** The local variables of a round: the messages in memory and the flags. */
  datatype Round = Round(messages: seq<Message>, flags: Flags)

  /** The local variables of the loop. */
  datatype Locals = Locals(round: Round, progressNudge: Option<Message>, submitNudged: bool, toolRounds: nat,
                           output: string)

  class Runner {
    const rules: Rules
    const maxToolRounds: nat
    const state: ConversationState
    var mode: Mode
    var history: seq<Message>
    ghost var trace: seq<Happening>

    constructor (rules: Rules, maxToolRounds: nat, state: ConversationState)
      ensures this.rules == rules && this.state == state
      ensures this.maxToolRounds == if maxToolRounds == 0 then 100 else maxToolRounds
      ensures mode == DefaultMode && history == []
    {
      this.rules, this.state := rules, state;
      this.maxToolRounds := if maxToolRounds == 0 then 100 else maxToolRounds;
      mode, history, trace := DefaultMode, [], [];
    }

    // ----- The state that the model of a run speaks about -----

    ghost function Stores(): Store
      reads this, state, state.evidence
    {
      Store(state.State(), mode, history)
    }

    ghost function LiveIn(round: Round): Live
      reads this, state, state.evidence
    {
      Live(Stores(), round.messages, round.flags, trace)
    }

    ghost function LoopIn(l: Locals): R.Loop
      reads this, state, state.evidence
    {
      R.Loop(LiveIn(l.round), l.progressNudge, l.submitNudged, l.toolRounds, l.output)
    }

    /** The tracker has seen the results of this run. */
    ghost predicate Tracks(t: Tracker)
      reads this, t
    {
      t.Valid() && t.recorded == KeysOf(trace, rules.identity)
    }

    // ----- The start of a run -----

    method Append(m: Message, env: RunEnv) returns (ok: bool)
      modifies this`history
      ensures ok == env.historyStored(|old(history)|)
      ensures history == if ok then old(history) + [m] else old(history)
    {
      ok := env.historyStored(|history|);
      if ok {
        history := history + [m];
      }
    }

    /** Loads the history, refreshes the system prompt, appends the user prompt, compacts, and stores the result. */
    method PrepareRun(prompt: string, system: string, env: RunEnv) returns (messages: Option<seq<Message>>)
      modifies this`history
      ensures messages == R.Started(old(Stores()), prompt, system, env)
      ensures history == if messages.Some? then messages.value else old(history)
    {
      var loaded := history;
      if |loaded| > 0 && loaded[0].System? {
        loaded := loaded[0 := System(system)];
      } else {
        loaded := [System(system)] + loaded;
      }
      loaded := loaded + [User(prompt)];
      messages := env.compact(loaded);
      if messages.None? || !env.historyStored(0) {
        return None;
      }
      history := messages.value;
    }

    /** Whether a submission is required; nothing if the plan or the todos cannot be read. */
    method RequiresSubmission(readable: bool) returns (required: Option<bool>)
      ensures required == if readable then Some(!Cleared(state.plan, state.todos)) else None
    {
      required := if readable then Some(ActivePlan(state.plan) || state.todos != []) else None;
    }

    /** Enters plan mode when routing asks for a plan and nothing is under way. */
    method RoutePreparedMessages(env: RunEnv) returns (ok: bool)
      modifies this`mode, state`plan
      ensures (Stores(), ok) == R.Routed(old(Stores()), env.route)
    {
      hide ActivePlan;
      if mode != DefaultMode {
        return true;
      }
      var required := RequiresSubmission(!env.route.StateUnread?);
      if required.None? {
        return false;
      }
      if required.value {
        return true;
      }
      match env.route
      case RouteFails => return false;
      case StayInMode => return true;
      case RequirePlan(stored) =>
        if TrimSpace(state.plan) == "" {
          if !stored {
            return false;
          }
          state.plan := STARTER_PLAN;
        }
        mode := PlanMode;
        ok := true;
    }

    // ----- One call -----

    /** Runs a tool: the only place where one runs, and only a tool of the called name that the mode allows. */
    method ExecuteTool(call: ToolCall, entry: Entry, raw: string, env: CallEnv) returns (x: Executed)
      requires entry.name == call.name && ToolDecision(mode, entry, rules.letters).allowed
      modifies this`trace, state, state.evidence
      ensures S.ToolStep(x, state.State()) == RunTool(old(state.State()), mode, entry, call, raw, rules, env)
      ensures trace == old(trace) + [Ran(mode, entry, env.planning.writes)]
    {
      hide S.WritePlanTool, S.WriteTodosTool, S.SubmitTool, E.Appended, ToolDecision;
      trace := trace + [Ran(mode, entry, env.planning.writes)];
      match call.name {
        case "write_plan" => x := S.ExecuteWritePlan(state, mode == PlanMode, raw, rules.planning, env.planning);
        case "write_todos" => x := S.ExecuteWriteTodos(state, raw, rules.planning, env.planning);
        case "submit_plan_implementation" => x := S.ExecuteSubmit(state, raw, rules.planning, env.planning);
        case _ =>
          x := env.outcome;
          if env.command.Some? {
            state.evidence.Append(env.command.value.0, env.command.value.1, env.planning.now, env.commandStored);
          }
      }
    }

    /** Checks a call and executes it; whatever happens, there is one answer for it. */
    method HandleToolCall(call: ToolCall, available: seq<Entry>, env: CallEnv) returns (r: ToolResult)
      modifies this`trace, state, state.evidence
      ensures
        var h := HandleCall(old(state.State()), mode, call, available, rules, env);
        && r == h.result && state.State() == h.conv
        && trace == old(trace) + if h.ran.Some? then [Ran(mode, h.ran.value, env.planning.writes)] else []
    {
      hide RunTool, ToolDecision, ResultOf, TrimSpace;
      assert trace + [] == trace;
      if TrimSpace(call.id) == "" {
        return ErrorResult(call, "missing_tool_call_id", "tool call id is required");
      }
      if TrimSpace(call.name) == "" {
        return ErrorResult(call, "missing_tool_name", "tool name is required");
      }
      var arguments := if TrimSpace(call.arguments) == "" then "{}" else call.arguments;
      if !rules.validJson(arguments) {
        return ErrorResult(call, "malformed_arguments", "tool arguments must be valid JSON");
      }
      var entry := FindTool(call.name, available);
      if entry.None? {
        return ErrorResult(call, "inactive_or_unknown_tool", "tool is not active or unknown: " + call.name);
      }
      var decision := ToolDecision(mode, entry.value, rules.letters);
      if !decision.allowed {
        return ErrorResult(call, "blocked_by_mode", "blocked by mode");
      }
      if !rules.executor {
        return ErrorResult(call, "tool_executor_unavailable", "tool executor is unavailable");
      }
      var x := ExecuteTool(call, entry.value, arguments, env);
      r := ResultOf(call, x, rules.payloadText);
    }

    /** Executes a call, counts it if it failed the same way again, and warns the model when it did. */
    method ExecuteAndTrack(call: ToolCall, available: seq<Entry>, tracker: Tracker, env: CallEnv)
      returns (r: ToolResult, count: nat)
      requires Tracks(tracker)
      modifies this`trace, state, state.evidence, tracker
      ensures
        var h := HandleCall(old(state.State()), mode, call, available, rules, env);
        && state.State() == h.conv && trace == Noted(old(trace), mode, call, h, env)
        && r == Given(trace, h.result, rules)
      ensures Tracks(tracker) && count == TrailingBlock(tracker.recorded)
    {
      hide HandleCall, TrailingBlock, WithWarning, FailureKey, KeysOf, FailureText;
      r := HandleToolCall(call, available, env);
      ghost var h := HandleCall(old(state.State()), mode, call, available, rules, env);
      var repeated := tracker.Record(call, r, rules.identity);
      NotedTrace(old(trace), mode, call, h, rules, env);
      trace := trace + [Got(call, r)];
      count := repeated.count;
      if repeated.count >= 2 {
        r := WithWarning(r, rules.mentionsWarning);
      }
    }

    /** A plan that was written ends plan mode. */
    method LeavePlanMode(call: ToolCall, r: ToolResult, ghost round: Round)
      modifies this`mode, this`trace
      ensures LiveIn(round) == Left(old(LiveIn(round)), call, r)
    {
      hide ReadyForImplementation;
      if mode == PlanMode && call.name == "write_plan" && ReadyForImplementation(r) {
        trace := trace + [PlanLeft(state.State())];
        mode := DefaultMode;
      }
    }

    /** Records a workspace mutation in the evidence, and notes progress that calls for a checkpoint. */
    method NoteMutation(r: ToolResult, entry: Option<Entry>, round: Round, env: CallEnv) returns (next: Round, ok: bool)
      modifies state.evidence
      ensures
        var mutates := entry.Some? && entry.value.safety.mutatesWorkspace;
        Step(LiveIn(next), if ok then NotFailed else StoreFailed) ==
        Progressed(old(LiveIn(round)), r, mutates, rules, env)
    {
      hide MutationObserved, ShouldNudge, E.WorkspaceMutated;
      next, ok := round, true;
      var mutated := MutationObserved(r, entry.Some? && entry.value.safety.mutatesWorkspace, rules.observational);
      if mutated && r.name in MANAGED_TOOLS {
        state.evidence.RecordWorkspaceMutation(r.name, "", env.planning.now, env.mutationStored);
        if !env.mutationStored {
          return next, false;
        }
      }
      if ShouldNudge(r, mutated, next.flags.mutated, rules.observational) {
        next := next.(flags := next.flags.(nudge := true));
      }
      if mutated {
        next := next.(flags := next.flags.(mutated := true));
      }
    }

    /** Draws the consequences of an answer: mode, flags, evidence. */
    method Settle(call: ToolCall, available: seq<Entry>, r: ToolResult, round: Round, env: CallEnv)
      returns (next: Round, ok: bool)
      modifies this`mode, this`trace, state.evidence
      ensures
        var left := Left(old(LiveIn(round)), call, r);
        Step(LiveIn(next), if ok then NotFailed else StoreFailed) ==
        Progressed(left.(flags := Flagged(left.flags, call, r)), r, Mutates(call.name, available), rules, env)
    {
      hide Left, Progressed, PlanOrTodosWritten, SubmissionAccepted, Succeeded;
      LeavePlanMode(call, r, round);
      next := round;
      if call.name == "submit_plan_implementation" && SubmissionAccepted(r) {
        next := next.(flags := next.flags.(accepted := true));
      }
      if PlanOrTodosWritten(r) {
        next := next.(flags := next.flags.(accepted := false));
      }
      if call.name == "write_todos" && Succeeded(r) {
        next := next.(flags := next.flags.(todosUpdated := true));
      }
      LeftFlags(old(LiveIn(round)), call, r);
      assert LiveIn(next) == Left(old(LiveIn(round)), call, r).(flags := Flagged(round.flags, call, r));
      var entry := FindTool(call.name, available);
      next, ok := NoteMutation(r, entry, next, env);
    }

    /** Answers one call: execute, track failures, store the answer, and update the flags of the round. */
    method AnswerCall(call: ToolCall, available: seq<Entry>, tracker: Tracker, round: Round, env: RunEnv, i: nat,
                      j: nat)
      returns (next: Round, failure: Failure)
      requires Tracks(tracker)
      modifies this`mode, this`history, this`trace, state, state.evidence, tracker
      ensures Step(LiveIn(next), failure) == AnswerOne(old(LiveIn(round)), call, available, rules, env, i, j)
      ensures Tracks(tracker)
    {
      hide HandleCall, Noted, Given, Left, Flagged, Progressed, Mutates, KeysOf, TrailingBlock;
      var r, count := ExecuteAndTrack(call, available, tracker, env.call(i, j));
      next := round;
      var stored := Append(Answer(r), env);
      if !stored {
        return next, StoreFailed;
      }
      next := next.(messages := next.messages + [Answer(r)]);
      ghost var answered := LiveIn(next);
      var ok;
      next, ok := Settle(call, available, r, next, env.call(i, j));
      SettledKeys(answered, call, available, r, rules, env.call(i, j));
      failure := if !ok then StoreFailed else if count >= 3 then RepeatedFailure else NotFailed;
    }

    /** Answers the calls of one round in order; stops at a store failure or at the third identical failure. */
    method HandleRound(calls: seq<ToolCall>, available: seq<Entry>, tracker: Tracker, round: Round, env: RunEnv, i: nat)
      returns (next: Round, failure: Failure)
      requires Tracks(tracker)
      modifies this`mode, this`history, this`trace, state, state.evidence, tracker
      ensures Step(LiveIn(next), failure) == AnswerAll(old(LiveIn(round)), calls, available, rules, env, i, 0)
      ensures Tracks(tracker)
    {
      hide AnswerOne, Tracks;
      next := round;
      for j := 0 to |calls|
        invariant Tracks(tracker)
        invariant AnswerAll(LiveIn(next), calls, available, rules, env, i, j) ==
                  AnswerAll(old(LiveIn(round)), calls, available, rules, env, i, 0)
      {
        next, failure := AnswerCall(calls[j], available, tracker, next, env, i, j);
        if !failure.NotFailed? {
          return;
        }
      }
      failure := NotFailed;
    }

    // ----- One pass of the loop -----

    /** The checkpoint shown to the model after progress, while todos remain; the todos may be unreadable. */
    method TodoProgressNudge(readable: bool) returns (nudge: Option<Message>, ok: bool)
      ensures ok == readable
      ensures
        nudge == if !readable || state.todos == [] || AllCompleted(state.todos) then None
                 else Some(System(NUDGE_PREFIX + "\n" + rules.renderTodos(state.todos)))
    {
      nudge, ok := None, readable;
      if !readable || state.todos == [] || AllCompleted(state.todos) {
        return;
      }
      nudge := Some(System(NUDGE_PREFIX + "\n" + rules.renderTodos(state.todos)));
    }

    /** Drops a trailing checkpoint from the messages in memory. */
    method RemoveTrailingNudge(messages: seq<Message>) returns (r: seq<Message>)
      ensures
        r == if messages != [] && messages[|messages| - 1].System? && NUDGE_PREFIX <= messages[|messages| - 1].content
             then messages[..|messages| - 1] else messages
    {
      if |messages| == 0 {
        return messages;
      }
      var last := messages[|messages| - 1];
      r := if last.System? && NUDGE_PREFIX <= last.content then messages[..|messages| - 1] else messages;
    }

    /** The messages in memory without the checkpoint that was shown, if one was. */
    method DropNudge(l: Locals) returns (next: Locals)
      ensures next == l.(round := l.round.(messages := R.WithoutNudge(l.round.messages, l.progressNudge)),
                         progressNudge := None)
    {
      next := l;
      if l.progressNudge.Some? {
        var messages := RemoveTrailingNudge(l.round.messages);
        next := l.(round := l.round.(messages := messages), progressNudge := None);
      }
    }

    /** The model stopped calling tools: ends the run, or asks once for the submission that is still missing. */
    method Finish(l: Locals, env: RunEnv) returns (next: Locals, ended: Option<RunResult>)
      modifies this`history
      ensures R.TurnStep(LoopIn(next), ended) == R.Finished(old(LoopIn(l)), maxToolRounds, env)
    {
      hide Cleared;
      next := l;
      var required := RequiresSubmission(env.stateRead(l.toolRounds));
      if required.None? {
        return next, Some(RunResult(l.output, false, StoreFailed));
      }
      if !required.value || l.round.flags.accepted {
        var failure := if env.callbackFails then CallbackFailed else NotFailed;
        return next, Some(RunResult(l.output, !env.callbackFails, failure));
      }
      if l.submitNudged {
        return next, Some(RunResult(l.output, false, SubmissionRequired));
      }
      if l.toolRounds >= maxToolRounds {
        return next, Some(RunResult(l.output, false, MaxToolRounds));
      }
      var nudge := System(SUBMIT_REQUIRED);
      var stored := Append(nudge, env);
      if !stored {
        return next, Some(RunResult(l.output, false, StoreFailed));
      }
      next := l.(round := l.round.(messages := l.round.messages + [nudge]), submitNudged := true,
                 toolRounds := l.toolRounds + 1);
      ended := None;
    }

    /** Answers the calls of a round, and shows a checkpoint after it when it is due. */
    method RunRound(l: Locals, calls: seq<ToolCall>, available: seq<Entry>, t: Tracker, env: RunEnv)
      returns (next: Locals, ended: Option<RunResult>)
      requires Tracks(t)
      modifies this`mode, this`history, this`trace, state, state.evidence, t
      ensures R.TurnStep(LoopIn(next), ended) == R.RoundOf(old(LoopIn(l)), calls, available, rules, env)
      ensures Tracks(t)
    {
      hide AnswerAll, Tracks, AllCompleted;
      var round := l.round.(flags := l.round.flags.(nudge := false, todosUpdated := false));
      var failure;
      round, failure := HandleRound(calls, available, t, round, env, l.toolRounds);
      next := l.(round := round, toolRounds := l.toolRounds + 1);
      if !failure.NotFailed? {
        return next, Some(RunResult(l.output, false, failure));
      }
      ended := None;
      if round.flags.nudge && !round.flags.todosUpdated {
        var nudge, readable := TodoProgressNudge(env.stateRead(l.toolRounds));
        if !readable {
          return next, Some(RunResult(l.output, false, StoreFailed));
        }
        if nudge.Some? {
          next := next.(round := round.(messages := round.messages + [nudge.value]), progressNudge := nudge);
        }
      }
    }

    /** Stores the model's answer, its calls sanitized, and acts upon it. */
    method Act(l: Locals, response: Response, available: seq<Entry>, t: Tracker, env: RunEnv)
      returns (next: Locals, ended: Option<RunResult>)
      requires Tracks(t)
      modifies this`mode, this`history, this`trace, state, state.evidence, t
      ensures R.TurnStep(LoopIn(next), ended) == R.Acted(old(LoopIn(l)), response, available, rules, maxToolRounds, env)
      ensures Tracks(t)
    {
      hide KeysOf, R.RoundOf, R.Finished, R.WithoutNudge, Sanitized;
      var Response(text, calls) := response;
      next := DropNudge(l);
      if text != "" {
        next := next.(output := text);
      }
      if calls != [] && next.toolRounds >= maxToolRounds {
        return next, Some(RunResult(next.output, false, MaxToolRounds));
      }
      if text != "" || calls != [] {
        var sanitized := SanitizeToolCalls(calls, rules.validJson);
        var stored := Append(Assistant(text, sanitized), env);
        if !stored {
          return next, Some(RunResult(next.output, false, StoreFailed));
        }
        next := next.(round := next.round.(messages := next.round.messages + [Assistant(text, sanitized)]));
      }
      if calls == [] {
        next, ended := Finish(next, env);
      } else {
        next, ended := RunRound(next, calls, available, t, env);
      }
    }

    /**
     * One pass of the loop: shows the model the messages, the mode and the tools the mode allows, and acts upon its
     * answer.
     */
    method Turn(l: Locals, t: Tracker, env: RunEnv) returns (next: Locals, ended: Option<RunResult>)
      requires Tracks(t)
      modifies this`mode, this`history, this`trace, state, state.evidence, t
      ensures R.TurnStep(LoopIn(next), ended) == R.Turn(old(LoopIn(l)), rules, maxToolRounds, env)
      ensures Tracks(t)
    {
      hide R.Acted, Filtered, R.RequestFor, KeysOf;
      next := l;
      var available := env.active(l.toolRounds);
      if available.None? {
        return next, Some(RunResult(l.output, false, ToolsFailed));
      }
      var allowed := FilterTools(mode, available.value, rules.letters);
      if allowed.None? {
        return next, Some(RunResult(l.output, false, UnsupportedModeFailure));
      }
      var request := R.RequestFor(l.round.messages, mode, rules);
      AskedKeys(trace, Asked(request, allowed.value, history, l.progressNudge, mode, available.value), rules);
      trace := trace + [Asked(request, allowed.value, history, l.progressNudge, mode, available.value)];
      var response := env.model(l.toolRounds, request, allowed.value);
      if response.None? {
        return next, Some(RunResult(l.output, false, ModelFailed));
      }
      next, ended := Act(next, response.value, available.value, t, env);
    }

    /**
     * One run of the agent: result, stores and trace are those of the model; so it is sound, and unless the stores tore
     * a plan write of this run, a completed run leaves no active plan and no todos.
     */
    method Run(prompt: string, system: string, env: RunEnv) returns (r: RunResult)
      modifies this`mode, this`history, this`trace, state, state.evidence
      ensures
        var e := R.Run(old(Stores()), prompt, system, rules, maxToolRounds, env);
        r == e.result && Stores() == e.live.store && trace == e.live.trace
      ensures
        var e := R.Run(old(Stores()), prompt, system, rules, maxToolRounds, env);
        var prepared := R.Started(old(Stores()), prompt, system, env);
        prepared.Some? ==>
          var startMode := R.Routed(old(Stores()).(history := prepared.value), env.route).0.mode;
          Safety.AtEnd(e, Origin(prepared.value, startMode), rules, maxToolRounds)
      ensures r.completed && !Gate.TornIn(trace) ==> Cleared(state.plan, state.todos)
    {
      hide R.Turn, R.Routed, R.Started, Gate.TornIn, Cleared, KeysOf, Safety.AtEnd;
      Safety.EveryRunIsSound(Stores(), prompt, system, rules, maxToolRounds, env);
      Gate.CompletedRunHasCleared(Stores(), prompt, system, rules, maxToolRounds, env);
      trace := [];
      var messages := PrepareRun(prompt, system, env);
      if messages.None? {
        return RunResult("", false, StoreFailed);
      }
      var routed := RoutePreparedMessages(env);
      if !routed {
        return RunResult("", false, RoutingFailed);
      }
      var tracker := new Tracker();
      var l := Locals(Round(messages.value, NO_FLAGS), None, false, 0, "");
      NoKeys(rules);
      while true
        invariant Tracks(tracker) && l.toolRounds <= maxToolRounds
        invariant R.RunFrom(LoopIn(l), rules, maxToolRounds, env).result ==
                  R.Run(old(Stores()), prompt, system, rules, maxToolRounds, env).result
        invariant R.RunFrom(LoopIn(l), rules, maxToolRounds, env).live ==
                  R.Run(old(Stores()), prompt, system, rules, maxToolRounds, env).live
        decreases maxToolRounds - l.toolRounds
      {
        R.TurnGoesOn(LoopIn(l), rules, maxToolRounds, env);
        var next, ended := Turn(l, tracker, env);
        if ended.Some? {
          return ended.value;
        }
        l := next;
      }
    }
  }

  lemma {:induction false} NoKeys(rules: Rules)
    ensures KeysOf([], rules.identity) == []
  {
  }

  lemma {:induction false} AskedKeys(trace: seq<Happening>, x: Happening, rules: Rules)
    requires x.Asked?
    ensures KeysOf(trace + [x], rules.identity) == KeysOf(trace, rules.identity)
  {
    TraceSnoc(trace, x, rules);
  }

  lemma {:induction false} LeftFlags(s: Live, call: ToolCall, r: ToolResult)
    ensures Left(s, call, r).flags == s.flags
  {
  }

  /** Drawing the consequences of an answer adds no result. */
  lemma {:induction false} SettledKeys(s: Live, call: ToolCall, available: seq<Entry>, r: ToolResult, rules: Rules,
                                       env: CallEnv)
    ensures
      var left := Left(s, call, r);
      var step := Progressed(left.(flags := Flagged(left.flags, call, r)), r, Mutates(call.name, available), rules,
                             env);
      KeysOf(step.live.trace, rules.identity) == KeysOf(s.trace, rules.identity)
  {
    hide ReadyForImplementation, Flagged, Mutates, Progressed, KeysOf;
    var left := Left(s, call, r);
    TraceSnoc(s.trace, PlanLeft(s.store.conv), rules);
    ProgressedKeeps(left.(flags := Flagged(left.flags, call, r)), r, Mutates(call.name, available), rules, env);
  }
}
