/** One call of the agent loop as a function of the state it finds: checks, execution, answer, flags. */
module AgentStep {
  import opened Wrappers
  import opened Text
  import opened Todos
  import opened PlanState
  import opened ToolResults
  import opened Transcript
  import opened FailureTracker
  import opened ToolPolicy
  import S = Submission
  import E = CommandEvidence

  // ----- What the loop meets -----

  /** Library and rendering functions the loop calls, and whether a tool executor is configured. */
  datatype Rules = Rules(
    executor: bool, planning: S.Rules, letters: Letters, validJson: string -> bool, payloadText: Payload -> string,
    identity: (ToolCall, ToolResult) -> string, mentionsWarning: string -> bool, observational: string -> bool,
    renderTodos: seq<Todo> -> string, renderMode: Mode -> string)

  datatype Response = Response(text: string, calls: seq<ToolCall>)

  /** What one tool call meets: the tool itself, a command record it leaves, and which stores accept their writes. */
  datatype CallEnv = CallEnv(
    planning: S.PlanningEnv, outcome: Executed, command: Option<(E.Command, string)>, commandStored: bool,
    mutationStored: bool)

  /** Whether routing asks for a plan first, or fails, or cannot read what is under way. */
  datatype Route = StayInMode | RequirePlan(stored: bool) | RouteFails | StateUnread

  /**
   * The model, which answers a request by its number, its messages and its tools; the active tools per request; the
   * calls per round; the stores, and whether the plan and the todos can be read after a request.
   */
  datatype RunEnv = RunEnv(
    compact: seq<Message> -> Option<seq<Message>>, route: Route,
    active: nat -> Option<seq<Entry>>, model: (nat, seq<Message>, seq<Entry>) -> Option<Response>,
    call: (nat, nat) -> CallEnv, historyStored: nat -> bool, stateRead: nat -> bool, callbackFails: bool)

  datatype Failure =
    | NotFailed | StoreFailed | ToolsFailed | UnsupportedModeFailure | ModelFailed | MaxToolRounds | SubmissionRequired
    | RepeatedFailure | RoutingFailed | CallbackFailed

  datatype RunResult = RunResult(output: string, completed: bool, failure: Failure)

  const STARTER_PLAN := "# Plan\n\n"
  const NUDGE_PREFIX := "TODO progress checkpoint:"
  const SUBMIT_REQUIRED := "Before the final response, call submit_plan_implementation."

  predicate ActivePlan(plan: string) {
    TrimSpace(plan) != "" && TrimSpace(plan) != TrimSpace(STARTER_PLAN)
  }

  /** No plan is active and no todos remain. */
  predicate Cleared(plan: string, todos: seq<Todo>) {
    !ActivePlan(plan) && todos == []
  }

  // ----- Predicates on results -----

  predicate SubmissionAccepted(r: ToolResult) {
    r.payload.Decoded? && r.payload.fields.success == Some(true) && r.payload.fields.accepted
  }

  predicate PlanOrTodosWritten(r: ToolResult) {
    (r.name == "write_plan" || r.name == "write_todos") && Succeeded(r)
  }

  predicate ReadyForImplementation(r: ToolResult) {
    r.payload.Decoded? && r.payload.fields.ready && r.payload.fields.planValid && r.payload.fields.todosWritten
    && r.payload.fields.todosValid
  }

  const MANAGED_TOOLS := ["write_file", "edit_file", "multi_edit", "apply_patch", "delete_file"]

  predicate MutationReported(m: Mutation) {
    m.observed || m.mayHaveOccurred || m.filesChanged > 0 || (m.rollbackAttempted && !m.rollbackSucceeded)
  }

  predicate MutationObserved(r: ToolResult, mutates: bool, observational: string -> bool) {
    var f := FieldsOf(r.payload);
    if r.name == "execute_command" then f.executed && Succeeded(r) && !observational(f.command)
    else if MutationReported(f.workspace) || MutationReported(f.mutation.(observed := false)) then true
    else if r.name == "write_file" then
      Succeeded(r) && (f.created || f.overwritten || f.status == "created" || f.status == "overwritten")
    else if r.name == "delete_file" then Succeeded(r) && (f.deleted || f.status == "deleted")
    else if r.name == "edit_file" then Succeeded(r) && f.changed && f.status != "unchanged"
    else if r.name == "multi_edit" then f.status != "no_changes" && f.mutation.filesChanged > 0
    else if r.name == "apply_patch" then Succeeded(r) && !(f.mutation.rollbackAttempted && f.mutation.rollbackSucceeded)
    else mutates && Succeeded(r)
  }

  const QUIET_TOOLS := ["write_todos", "read_todos", "write_plan", "read_plan", "submit_plan_implementation",
                        "read_command_evidence",
                        "read_memory", "update_memory", "read_file", "read_files", "glob", "grep"]

  predicate ShouldNudge(r: ToolResult, mutated: bool, mutatedBefore: bool, observational: string -> bool) {
    && Succeeded(r) && r.name !in QUIET_TOOLS
    && (mutated || (r.name == "execute_command" && FieldsOf(r.payload).executed
                    && (!observational(FieldsOf(r.payload).command) || mutatedBefore)))
  }

  // ----- Tool results -----

  function ErrorResult(call: ToolCall, status: string, reason: string): ToolResult {
    ToolResult(call.id, call.name, reason,
               Decoded(NO_FIELDS.(success := Some(false), status := status, error := reason)), reason)
  }

  function FromExecution(call: ToolCall, x: Execution, payloadText: Payload -> string): ToolResult {
    var payload :=
      if x.payload.NoPayload? then Decoded(NO_FIELDS.(success := Some(x.success), status := x.status, error := x.error))
      else x.payload;
    ToolResult(call.id, call.name, if x.content == "" then payloadText(payload) else x.content, payload, x.error)
  }

  function ResultOf(call: ToolCall, x: Executed, payloadText: Payload -> string): ToolResult {
    match x
    case Threw(message) => ErrorResult(call, "execution_error", message)
    case Returned(execution) => FromExecution(call, execution, payloadText)
  }

  // ----- The state of a run -----

  /** What the stores hold. */
  datatype Store = Store(conv: Conversation, mode: Mode, history: seq<Message>)

  /** What happened in a run, in order. */
  datatype Happening =
    | Asked(request: seq<Message>, tools: seq<Entry>, stored: seq<Message>, nudge: Option<Message>, mode: Mode,
            available: seq<Entry>)
    | Ran(mode: Mode, entry: Entry, writes: Writes)   // with what the stores made of its writes
    | Got(call: ToolCall, result: ToolResult)
    | PlanLeft(conv: Conversation)

  datatype Flags = Flags(accepted: bool, mutated: bool, nudge: bool, todosUpdated: bool)

  const NO_FLAGS := Flags(false, false, false, false)

  /** The stores, the in-memory messages, the flags of the loop, and what has happened. */
  datatype Live = Live(store: Store, messages: seq<Message>, flags: Flags, trace: seq<Happening>)

  /** The failure keys of the results so far. */
  function KeysOf(trace: seq<Happening>, identity: (ToolCall, ToolResult) -> string): seq<Option<Key>> {
    if trace == [] then []
    else
      var last := trace[|trace| - 1];
      KeysOf(trace[..|trace| - 1], identity) + if last.Got? then [FailureKey(last.call, last.result, identity)] else []
  }

  // ----- Executing a call -----

  /** The tool runs: only an active tool of the called name, and only one that the mode allows. */
  ghost function RunTool(conv: Conversation, mode: Mode, entry: Entry, call: ToolCall, raw: string, rules: Rules,
                         env: CallEnv): S.ToolStep
    requires entry.name == call.name && ToolDecision(mode, entry, rules.letters).allowed
  {
    match call.name
    case "write_plan" => S.WritePlanTool(conv, mode == PlanMode, raw, rules.planning, env.planning)
    case "write_todos" => S.WriteTodosTool(conv, raw, rules.planning, env.planning)
    case "submit_plan_implementation" => S.SubmitTool(conv, raw, rules.planning, env.planning)
    case _ =>
      S.ToolStep(env.outcome,
                 if env.command.Some? && env.commandStored then
                   conv.(evidence := E.Appended(conv.evidence, env.command.value.0, env.command.value.1,
                                                env.planning.now))
                 else conv)
  }

  datatype Handled = Handled(result: ToolResult, conv: Conversation, ran: Option<Entry>)

  function ArgumentsOf(call: ToolCall): string {
    if TrimSpace(call.arguments) == "" then "{}" else call.arguments
  }

  /** A call is checked, and executed if it passes; either way there is one result. */
  ghost function HandleCall(conv: Conversation, mode: Mode, call: ToolCall, available: seq<Entry>, rules: Rules,
                            env: CallEnv): Handled {
    if TrimSpace(call.id) == "" then
      Handled(ErrorResult(call, "missing_tool_call_id", "tool call id is required"), conv, None)
    else if TrimSpace(call.name) == "" then
      Handled(ErrorResult(call, "missing_tool_name", "tool name is required"), conv, None)
    else if !rules.validJson(ArgumentsOf(call)) then
      Handled(ErrorResult(call, "malformed_arguments", "tool arguments must be valid JSON"), conv, None)
    else match Find(call.name, available)
      case None => Handled(ErrorResult(call, "inactive_or_unknown_tool", "tool is not active or unknown: " + call.name),
                           conv, None)
      case Some(entry) =>
        if !ToolDecision(mode, entry, rules.letters).allowed then
          Handled(ErrorResult(call, "blocked_by_mode", "blocked by mode"), conv, None)
        else if !rules.executor then
          Handled(ErrorResult(call, "tool_executor_unavailable", "tool executor is unavailable"), conv, None)
        else
          var step := RunTool(conv, mode, entry, call, ArgumentsOf(call), rules, env);
          Handled(ResultOf(call, step.result, rules.payloadText), step.state, Some(entry))
  }

  // ----- Answering a call -----

  /** The trace after a call has been handled. */
  function Noted(trace: seq<Happening>, mode: Mode, call: ToolCall, h: Handled, env: CallEnv): seq<Happening> {
    trace + (if h.ran.Some? then [Ran(mode, h.ran.value, env.planning.writes)] else []) + [Got(call, h.result)]
  }

  /** The answer given: the result, with a warning from the second identical failure in a row on. */
  function Given(trace: seq<Happening>, r: ToolResult, rules: Rules): ToolResult {
    if TrailingBlock(KeysOf(trace, rules.identity)) >= 2 then WithWarning(r, rules.mentionsWarning) else r
  }

  /** The flags follow the answer. */
  function Flagged(flags: Flags, call: ToolCall, r: ToolResult): Flags {
    var submitted := flags.accepted || (call.name == "submit_plan_implementation" && SubmissionAccepted(r));
    flags.(accepted := submitted && !PlanOrTodosWritten(r),
           todosUpdated := flags.todosUpdated || (call.name == "write_todos" && Succeeded(r)))
  }

  /** A plan that was written ends plan mode. */
  function Left(s: Live, call: ToolCall, r: ToolResult): Live {
    if s.store.mode == PlanMode && call.name == "write_plan" && ReadyForImplementation(r) then
      s.(store := s.store.(mode := DefaultMode), trace := s.trace + [PlanLeft(s.store.conv)])
    else s
  }

  datatype Step = Step(live: Live, failure: Failure)

  /** A workspace mutation goes into the evidence, and progress calls for a checkpoint. */
  function Progressed(s: Live, r: ToolResult, mutates: bool, rules: Rules, env: CallEnv): Step {
    var mutated := MutationObserved(r, mutates, rules.observational);
    var managed := mutated && r.name in MANAGED_TOOLS;
    if managed && !env.mutationStored then Step(s, StoreFailed)
    else
      var evidence := if managed then E.WorkspaceMutated(s.store.conv.evidence, r.name, "", env.planning.now)
                      else s.store.conv.evidence;
      var flags := s.flags.(nudge := s.flags.nudge || ShouldNudge(r, mutated, s.flags.mutated, rules.observational),
                            mutated := s.flags.mutated || mutated);
      Step(s.(store := s.store.(conv := s.store.conv.(evidence := evidence)), flags := flags), NotFailed)
  }

  function Mutates(name: string, available: seq<Entry>): bool {
    Find(name, available).Some? && Find(name, available).value.safety.mutatesWorkspace
  }

  /** The answer is stored and its consequences are drawn; the third identical failure in a row ends the run. */
  function Settled(s: Live, call: ToolCall, available: seq<Entry>, r: ToolResult, rules: Rules, env: CallEnv): Step {
    var answered := s.(store := s.store.(history := s.store.history + [Answer(r)]),
                       messages := s.messages + [Answer(r)]);
    var left := Left(answered, call, r);
    var step := Progressed(left.(flags := Flagged(left.flags, call, r)), r, Mutates(call.name, available), rules, env);
    if step.failure.NotFailed? && TrailingBlock(KeysOf(step.live.trace, rules.identity)) >= 3 then
      Step(step.live, RepeatedFailure)
    else step
  }

  /** One call of a round: number `j` of round `i`. */
  ghost function AnswerOne(s: Live, call: ToolCall, available: seq<Entry>, rules: Rules, env: RunEnv, i: nat,
                           j: nat): Step {
    var h := HandleCall(s.store.conv, s.store.mode, call, available, rules, env.call(i, j));
    var s' := s.(store := s.store.(conv := h.conv), trace := Noted(s.trace, s.store.mode, call, h, env.call(i, j)));
    if !env.historyStored(|s.store.history|) then Step(s', StoreFailed)
    else Settled(s', call, available, Given(s'.trace, h.result, rules), rules, env.call(i, j))
  }

  /** The calls of a round from `j` on, until one fails the run. */
  ghost function AnswerAll(s: Live, calls: seq<ToolCall>, available: seq<Entry>, rules: Rules, env: RunEnv, i: nat,
                           j: nat): Step
    requires j <= |calls|
    decreases |calls| - j
  {
    if j == |calls| then Step(s, NotFailed)
    else
      var step := AnswerOne(s, calls[j], available, rules, env, i, j);
      if step.failure.NotFailed? then AnswerAll(step.live, calls, available, rules, env, i, j + 1) else step
  }
}
