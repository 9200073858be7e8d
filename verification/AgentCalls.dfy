/** What one call does, whatever the model asks and whatever the tools and stores answer. */
module AgentCalls {
  import opened Wrappers
  import opened Text
  import opened Todos
  import opened PlanState
  import opened ToolResults
  import opened Transcript
  import opened FailureTracker
  import opened ToolPolicy
  import opened AgentStep
  import S = Submission
  import E = CommandEvidence

  // ----- A call that is not let through -----

  /** A call refused by name or mode has no effect, and nothing the tool might do has any influence on the answer. */
  lemma {:induction false} RefusedCallIsInert(conv: Conversation, mode: Mode, call: ToolCall, available: seq<Entry>,
                                              rules: Rules, env: CallEnv, env': CallEnv)
    requires !CallAllowed(mode, call.name, available, rules.letters)
    ensures
      var h := HandleCall(conv, mode, call, available, rules, env);
      h == HandleCall(conv, mode, call, available, rules, env') && h.conv == conv && h.ran.None? && !Succeeded(h.result)
  {
    hide RunTool, ToolDecision, TrimSpace;
  }

  /** In plan mode, a call whose tool has any influence at all is a call to a harmless tool. */
  lemma {:induction false} PlanModeRunsOnlyHarmless(conv: Conversation, call: ToolCall, available: seq<Entry>,
                                                    rules: Rules, env: CallEnv, env': CallEnv)
    requires HandleCall(conv, PlanMode, call, available, rules, env) !=
             HandleCall(conv, PlanMode, call, available, rules, env')
             || HandleCall(conv, PlanMode, call, available, rules, env).conv != conv
    ensures Find(call.name, available).Some? && PlanHarmless(Find(call.name, available).value)
  {
    hide HandleCall, ToolDecision, PlanHarmless;
    if !CallAllowed(PlanMode, call.name, available, rules.letters) {
      RefusedCallIsInert(conv, PlanMode, call, available, rules, env, env');
    }
    PlanModeAllowsIff(Find(call.name, available).value, rules.letters);
  }

  // ----- What the built-in tools leave behind -----

  /** A valid plan and a valid non-empty todo list are stored. */
  ghost predicate ExitOk(c: Conversation, validPlan: string -> bool) {
    validPlan(c.plan) && ValidList(c.todos) && c.todos != []
  }

  lemma {:induction false} EmptyPlanIsInactive()
    ensures !ActivePlan("")
  {
    assert TrimLeft("") == "" && TrimRight("") == "";
  }

  /** A call does not uncover: it reports a write, or a cleared conversation stays cleared. */
  ghost predicate GateSafe(r: ToolResult, before: Conversation, after: Conversation) {
    PlanOrTodosWritten(r) || (Cleared(before.plan, before.todos) ==> Cleared(after.plan, after.todos))
  }

  /** What an answer reports is so: an accepted submission has cleared, and a plan that is ready is stored. */
  ghost predicate ReportsTruly(call: ToolCall, r: ToolResult, after: Conversation, validPlan: string -> bool) {
    && (call.name == "submit_plan_implementation" && SubmissionAccepted(r) ==> Cleared(after.plan, after.todos))
    && (call.name == "write_plan" && ReadyForImplementation(r) ==> ExitOk(after, validPlan))
  }

  /** Only a plan write that was stored whole answers that the implementation can begin. */
  lemma {:induction false} PlanToolAnswers(s: Conversation, planMode: bool, call: ToolCall, rules: Rules,
                                           env: S.PlanningEnv, raw: string)
    requires call.name == "write_plan"
    ensures
      var step := S.WritePlanTool(s, planMode, raw, rules.planning, env);
      var r := ResultOf(call, step.result, rules.payloadText);
      if step.result == Succeed("Plan written successfully.", S.PLAN_WRITTEN) then PlanOrTodosWritten(r)
      else !ReadyForImplementation(r)
  {
    hide Normalized, PlanAndTodosWritten;
  }

  lemma {:induction false} PlanToolStores(s: Conversation, planMode: bool, rules: Rules, env: S.PlanningEnv,
                                          raw: string)
    ensures
      var step := S.WritePlanTool(s, planMode, raw, rules.planning, env);
      if step.result == Succeed("Plan written successfully.", S.PLAN_WRITTEN) then
        ExitOk(step.state, rules.planning.validPlan)
      else !Torn(env.writes) ==> step.state.plan == s.plan && step.state.todos == s.todos
  {
    hide Normalized, ValidList, E.PlanBaseline;
    var args := rules.planning.planArgs(raw);
    if args.Some? && args.value.todos.Some? && Normalized(args.value.todos.value).Some? {
      NormalizedTwice(args.value.todos.value);
    }
  }

  lemma {:induction false} PlanToolKeeps(s: Conversation, planMode: bool, call: ToolCall, rules: Rules,
                                         env: S.PlanningEnv, raw: string)
    requires call.name == "write_plan"
    ensures
      var step := S.WritePlanTool(s, planMode, raw, rules.planning, env);
      var r := ResultOf(call, step.result, rules.payloadText);
      (!Torn(env.writes) ==> GateSafe(r, s, step.state)) && ReportsTruly(call, r, step.state, rules.planning.validPlan)
  {
    hide S.WritePlanTool, ResultOf, PlanOrTodosWritten, ReadyForImplementation, ExitOk, Torn, ActivePlan;
    PlanToolAnswers(s, planMode, call, rules, env, raw);
    PlanToolStores(s, planMode, rules, env, raw);
  }

  /** A valid plan is an active one: it is not blank, and not the starter text. */
  ghost predicate ValidPlansAreActive(validPlan: string -> bool) {
    forall p :: validPlan(p) ==> ActivePlan(p)
  }

  /** The arguments of a `write_plan` call that the tool accepts. */
  ghost predicate Acceptable(raw: string, rules: Rules) {
    && rules.planning.planArgs(raw).Some? && rules.planning.validPlan(rules.planning.planArgs(raw).value.plan)
    && rules.planning.planArgs(raw).value.todos.Some?
    && Normalized(rules.planning.planArgs(raw).value.todos.value).Some?
    && Normalized(rules.planning.planArgs(raw).value.todos.value).value != []
  }

  /**
   * From a cleared conversation, a plan write in plan mode is safe exactly when its arguments are refused or the stores
   * do not tear it: a torn write leaves a plan or todos behind and reports an error.
   */
  lemma {:induction false} PlanWriteIsGateSafeIff(s: Conversation, call: ToolCall, rules: Rules, env: S.PlanningEnv,
                                                  raw: string)
    requires call.name == "write_plan" && Cleared(s.plan, s.todos)
    requires ValidPlansAreActive(rules.planning.validPlan)
    ensures
      var step := S.WritePlanTool(s, true, raw, rules.planning, env);
      GateSafe(ResultOf(call, step.result, rules.payloadText), s, step.state) <==>
      !(Acceptable(raw, rules) && Torn(env.writes))
  {
    hide Normalized, ActivePlan, E.PlanBaseline, ResultOf;
    PlanToolKeeps(s, true, call, rules, env, raw);
    if Acceptable(raw, rules) {
      NormalizedTwice(rules.planning.planArgs(raw).value.todos.value);
      if Torn(env.writes) {
        ThrownIsNotWritten(call, "write plan", rules);
      }
    }
  }

  lemma {:induction false} ThrownIsNotWritten(call: ToolCall, message: string, rules: Rules)
    ensures !PlanOrTodosWritten(ResultOf(call, Threw(message), rules.payloadText))
  {
  }

  lemma {:induction false} TodosToolKeeps(s: Conversation, call: ToolCall, rules: Rules, env: S.PlanningEnv,
                                          raw: string)
    requires call.name == "write_todos"
    ensures
      var step := S.WriteTodosTool(s, raw, rules.planning, env);
      var r := ResultOf(call, step.result, rules.payloadText);
      GateSafe(r, s, step.state) && ReportsTruly(call, r, step.state, rules.planning.validPlan)
  {
    hide Normalized, ValidList, ActivePlan;
  }

  /** A submission never uncovers, however the stores tear its completion. */
  lemma {:induction false} SubmitToolKeeps(s: Conversation, call: ToolCall, rules: Rules, env: S.PlanningEnv,
                                           raw: string)
    requires call.name == "submit_plan_implementation"
    ensures
      var step := S.SubmitTool(s, raw, rules.planning, env);
      var r := ResultOf(call, step.result, rules.payloadText);
      GateSafe(r, s, step.state) && ReportsTruly(call, r, step.state, rules.planning.validPlan)
  {
    hide ValidList, ActivePlan, AllCompleted, S.Review, E.Reviewed, E.AttemptsReset;
    EmptyPlanIsInactive();
  }

  /** An answer that reports a failure. */
  predicate IsRefusal(call: ToolCall, r: ToolResult) {
    && r.callId == call.id && r.name == call.name
    && r.payload.Decoded? && r.payload.fields.success == Some(false) && !r.payload.fields.ready
  }

  lemma {:induction false} ErrorIsRefusal(call: ToolCall, status: string, reason: string)
    ensures IsRefusal(call, ErrorResult(call, status, reason))
  {
  }

  /** A call is refused with an error and no effect, or its tool runs. */
  lemma {:induction false} HandledEitherWay(conv: Conversation, mode: Mode, call: ToolCall, available: seq<Entry>,
                                            rules: Rules, env: CallEnv)
    ensures
      var h := HandleCall(conv, mode, call, available, rules, env);
      || (h.conv == conv && h.ran.None? && IsRefusal(call, h.result))
      || (CallAllowed(mode, call.name, available, rules.letters) && h.ran.Some? && h.ran == Find(call.name, available)
          && var step := RunTool(conv, mode, h.ran.value, call, ArgumentsOf(call), rules, env);
             h.result == ResultOf(call, step.result, rules.payloadText) && h.conv == step.state)
  {
    hide RunTool, ToolDecision, TrimSpace, ErrorResult, ResultOf, IsRefusal;
    ErrorIsRefusal(call, "missing_tool_call_id", "tool call id is required");
    ErrorIsRefusal(call, "missing_tool_name", "tool name is required");
    ErrorIsRefusal(call, "malformed_arguments", "tool arguments must be valid JSON");
    ErrorIsRefusal(call, "inactive_or_unknown_tool", "tool is not active or unknown: " + call.name);
    ErrorIsRefusal(call, "blocked_by_mode", "blocked by mode");
    ErrorIsRefusal(call, "tool_executor_unavailable", "tool executor is unavailable");
  }

  /** Any call: what it reports is so, and unless it is a plan write that ran and was torn it does not uncover. */
  lemma {:induction false} HandledCallKeeps(conv: Conversation, mode: Mode, call: ToolCall, available: seq<Entry>,
                                            rules: Rules, env: CallEnv)
    ensures
      var h := HandleCall(conv, mode, call, available, rules, env);
      && h.result.callId == call.id && h.result.name == call.name
      && ((h.ran.Some? && h.ran.value.name == "write_plan" && Torn(env.planning.writes))
          || GateSafe(h.result, conv, h.conv))
      && ReportsTruly(call, h.result, h.conv, rules.planning.validPlan)
  {
    hide HandleCall, RunTool, ToolDecision, GateSafe, ReportsTruly, ResultOf, Torn, CallAllowed, IsRefusal;
    HandledEitherWay(conv, mode, call, available, rules, env);
    var h := HandleCall(conv, mode, call, available, rules, env);
    if h.ran.None? {
      RefusalKeeps(call, h.result, conv, rules);
    } else {
      AllowedGives(mode, call.name, available, rules.letters);
      RunToolKeeps(conv, mode, h.ran.value, call, ArgumentsOf(call), rules, env);
    }
  }

  lemma {:induction false} AllowedGives(mode: Mode, name: string, available: seq<Entry>, letters: Letters)
    requires CallAllowed(mode, name, available, letters)
    ensures
      var found := Find(name, available);
      found.Some? && found.value.name == name && ToolDecision(mode, found.value, letters).allowed
  {
    hide ToolDecision;
  }

  lemma {:induction false} RefusalKeeps(call: ToolCall, r: ToolResult, c: Conversation, rules: Rules)
    requires IsRefusal(call, r)
    ensures r.callId == call.id && r.name == call.name && GateSafe(r, c, c)
            && ReportsTruly(call, r, c, rules.planning.validPlan)
  {
  }

  lemma {:induction false} RunToolKeeps(conv: Conversation, mode: Mode, entry: Entry, call: ToolCall, raw: string,
                                        rules: Rules, env: CallEnv)
    requires entry.name == call.name && ToolDecision(mode, entry, rules.letters).allowed
    ensures
      var step := RunTool(conv, mode, entry, call, raw, rules, env);
      var r := ResultOf(call, step.result, rules.payloadText);
      && r.callId == call.id && r.name == call.name
      && ((call.name == "write_plan" && Torn(env.planning.writes)) || GateSafe(r, conv, step.state))
      && ReportsTruly(call, r, step.state, rules.planning.validPlan)
  {
    hide S.WritePlanTool, S.WriteTodosTool, S.SubmitTool, ToolDecision, ExitOk, ActivePlan, Torn, E.Appended,
         SubmissionAccepted, ReadyForImplementation, PlanOrTodosWritten, GateSafe, ReportsTruly;
    match call.name {
      case "write_plan" => PlanToolKeeps(conv, mode == PlanMode, call, rules, env.planning, raw);
      case "write_todos" => TodosToolKeeps(conv, call, rules, env.planning, raw);
      case "submit_plan_implementation" => SubmitToolKeeps(conv, call, rules, env.planning, raw);
      case _ =>
        OtherToolKeeps(conv, call, RunTool(conv, mode, entry, call, raw, rules, env), rules);
    }
  }

  lemma {:induction false} OtherToolKeeps(conv: Conversation, call: ToolCall, step: S.ToolStep, rules: Rules)
    requires call.name != "write_plan" && call.name != "submit_plan_implementation"
    requires step.state.plan == conv.plan && step.state.todos == conv.todos
    ensures
      var r := ResultOf(call, step.result, rules.payloadText);
      GateSafe(r, conv, step.state) && ReportsTruly(call, r, step.state, rules.planning.validPlan)
  {
    hide ActivePlan, ResultOf;
  }

  /** A warning changes neither what a result reports nor whose it is. */
  lemma {:induction false} WarningKeeps(r: ToolResult, mentions: string -> bool)
    ensures
      var w := WithWarning(r, mentions);
      && w.callId == r.callId && w.name == r.name
      && (SubmissionAccepted(w) <==> SubmissionAccepted(r))
      && (ReadyForImplementation(w) <==> ReadyForImplementation(r))
  {
  }

  // ----- The mode -----

  /** A call leaves the mode alone, or ends plan mode with a valid plan and valid todos in store. */
  lemma {:induction false} ModeLeavesOnlyWithPlan(s: Live, call: ToolCall, available: seq<Entry>, rules: Rules,
                                                  env: RunEnv, i: nat, j: nat)
    ensures
      var step := AnswerOne(s, call, available, rules, env, i, j);
      step.live.store.mode == s.store.mode
      || (s.store.mode == PlanMode && step.live.store.mode == DefaultMode && call.name == "write_plan"
          && ExitOk(step.live.store.conv, rules.planning.validPlan))
  {
    hide HandleCall, ExitOk, MutationObserved, ShouldNudge, E.WorkspaceMutated, WithWarning, KeysOf, TrailingBlock,
         SubmissionAccepted, ReadyForImplementation, PlanOrTodosWritten, Succeeded, Noted;
    var h := HandleCall(s.store.conv, s.store.mode, call, available, rules, env.call(i, j));
    HandledCallKeeps(s.store.conv, s.store.mode, call, available, rules, env.call(i, j));
    WarningKeeps(h.result, rules.mentionsWarning);
    var c, c' := h.conv, AnswerOne(s, call, available, rules, env, i, j).live.store.conv;
    assert c'.plan == c.plan && c'.todos == c.todos;
    ExitKeeps(c, c', rules.planning.validPlan);
  }

  lemma {:induction false} ExitKeeps(c: Conversation, c': Conversation, validPlan: string -> bool)
    requires c'.plan == c.plan && c'.todos == c.todos
    ensures ExitOk(c, validPlan) <==> ExitOk(c', validPlan)
  {
  }
}
