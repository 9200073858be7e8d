/** The planning tools that write conversation state, and the submission retry protocol over whole traces. */
module Submission {
  import opened Wrappers
  import opened Todos
  import opened PlanState
  import opened ToolResults
  import E = CommandEvidence

  // ----- The completion decision -----

  datatype Check = Check(accepted: bool, status: string)

  const ACCEPTED := "accepted"
  const ACCEPTED_WITH_WARNING := "accepted_with_verification_warning"
  const BLOCKED_TODOS := "blocked_incomplete_todos"
  const BLOCKED_REVIEW := "blocked_verification_review"

  function ValidatePlanTodosComplete(todos: seq<Todo>): Check {
    if AllCompleted(todos) then Check(true, ACCEPTED) else Check(false, BLOCKED_TODOS)
  }

  function CompletionDecision(todos: seq<Todo>, review: E.Review, attempts: nat): Check {
    if !ValidatePlanTodosComplete(todos).accepted then ValidatePlanTodosComplete(todos)
    else if review.verdict == E.SUFFICIENT || review.verdict == E.NOT_APPLICABLE then Check(true, ACCEPTED)
    else if attempts <= 0 then Check(false, BLOCKED_REVIEW)
    else Check(true, ACCEPTED_WITH_WARNING)
  }

  // ----- The reviewer -----

  datatype Reviewer = Unavailable | Failing(message: string) | Says(review: E.Review)

  const KNOWN_VERDICTS := ["sufficient", "insufficient", "unclear", "not_applicable"]

  function NormalizedReview(r: E.Review, now: E.Stamp): E.Review {
    E.Review(if r.verdict in KNOWN_VERDICTS then r.verdict else E.UNCLEAR, r.reason, E.AtOr(r.recordedAt, now))
  }

  function Review(reviewer: Reviewer, now: E.Stamp): E.Review {
    match reviewer
    case Unavailable => E.Review(E.UNCLEAR, "command evidence reviewer is unavailable", now)
    case Failing(message) => E.Review(E.UNCLEAR, "command evidence reviewer returned an error: " + message, now)
    case Says(review) => NormalizedReview(review, now)
  }

  // ----- The tools -----

  /** Library functions on arguments and plans that the tools call. */
  datatype Rules = Rules(validPlan: string -> bool, planArgs: string -> Option<PlanArgs>,
                         todosArgs: string -> Option<Option<seq<Todo>>>, submitArgs: string -> bool)

  /** Decoded arguments; the todos are `None` when they are missing or are not a list of todos. */
  datatype PlanArgs = PlanArgs(plan: string, todos: Option<seq<Todo>>)

  /** What one state-writing tool call meets. */
  datatype PlanningEnv = PlanningEnv(stateRead: bool, reviewer: Reviewer, now: E.Stamp, reviewStored: bool,
                                     writes: Writes)

  datatype ToolStep = ToolStep(result: Executed, state: Conversation)

  const PLAN_WRITTEN := NO_FIELDS.(success := Some(true), ready := true, planValid := true, todosWritten := true,
                                   todosValid := true)
  const TODOS_WRITTEN := NO_FIELDS.(success := Some(true), todosWritten := true, todosValid := true)

  ghost function DecodedTodos(todos: Option<seq<Todo>>): Option<seq<Todo>> {
    if todos.None? then None else Normalized(todos.value)
  }

  ghost function WritePlanTool(s: Conversation, planMode: bool, raw: string, rules: Rules, env: PlanningEnv): ToolStep {
    if !planMode then ToolStep(Fail("blocked_by_mode", "write_plan is only available in plan mode"), s)
    else match rules.planArgs(raw)
      case None => ToolStep(Fail("invalid_arguments", "arguments do not decode"), s)
      case Some(args) =>
        if !rules.validPlan(args.plan) then ToolStep(Fail("invalid_plan", "invalid plan"), s)
        else if DecodedTodos(args.todos).None? then ToolStep(Fail("invalid_todos", "invalid todos"), s)
        else if DecodedTodos(args.todos).value == [] then
          ToolStep(Fail("invalid_todos", "todos must contain at least one item"), s)
        else
          var step := PlanAndTodosWritten(s, args.plan, DecodedTodos(args.todos).value, rules.validPlan, env.writes);
          ToolStep(if step.ok then Succeed("Plan written successfully.", PLAN_WRITTEN) else Threw("write plan"),
                   step.state)
  }

  ghost function WriteTodosTool(s: Conversation, raw: string, rules: Rules, env: PlanningEnv): ToolStep {
    match rules.todosArgs(raw)
    case None => ToolStep(Fail("invalid_arguments", "arguments do not decode"), s)
    case Some(todos) =>
      if DecodedTodos(todos).None? then ToolStep(Fail("invalid_todos", "invalid todos"), s)
      else
        var step := TodosReplaced(s, DecodedTodos(todos).value, env.writes.todos);
        ToolStep(if step.ok then Succeed("Todos written successfully.", TODOS_WRITTEN) else Threw("write todos"),
                 step.state)
  }

  function Verdict(check: Check, cleared: bool): Executed {
    var fields := NO_FIELDS.(success := Some(check.accepted), accepted := check.accepted, status := check.status,
                             todosCleared := cleared, planCleared := cleared);
    var error := if check.accepted then "" else "Implementation submission blocked.";
    Returned(Execution(check.accepted, check.status, if check.accepted then "Plan implementation accepted." else error,
                       Decoded(fields), error))
  }

  /** Checks the todos, asks the reviewer, and clears the plan and the todos when the submission is accepted. */
  function SubmitTool(s: Conversation, raw: string, rules: Rules, env: PlanningEnv): ToolStep {
    if !rules.submitArgs(raw) then ToolStep(Fail("invalid_arguments", "arguments do not decode"), s)
    else if !env.stateRead then ToolStep(Threw("read state"), s)
    else if !ValidatePlanTodosComplete(s.todos).accepted then
      ToolStep(Verdict(ValidatePlanTodosComplete(s.todos), false), s)
    else if !env.reviewStored then ToolStep(Threw("record review"), s)
    else
      var review := Review(env.reviewer, env.now);
      var reviewed := s.(evidence := E.Reviewed(s.evidence, review, env.now));
      var check := CompletionDecision(s.todos, review, s.evidence.reviewAttempts);
      if !check.accepted then ToolStep(Verdict(check, false), reviewed)
      else
        var done := ImplementationCompleted(reviewed, env.writes);
        ToolStep(if done.ok then Verdict(check, true) else Threw("complete plan"), done.state)
  }

  method ExecuteWritePlan(state: ConversationState, planMode: bool, raw: string, rules: Rules, env: PlanningEnv)
    returns (result: Executed)
    modifies state, state.evidence
    ensures ToolStep(result, state.State()) == WritePlanTool(old(state.State()), planMode, raw, rules, env)
  {
    hide Normalized, PlanAndTodosWritten;
    if !planMode {
      return Fail("blocked_by_mode", "write_plan is only available in plan mode");
    }
    var args := rules.planArgs(raw);
    if args.None? {
      return Fail("invalid_arguments", "arguments do not decode");
    }
    if !rules.validPlan(args.value.plan) {
      return Fail("invalid_plan", "invalid plan");
    }
    if args.value.todos.None? {
      return Fail("invalid_todos", "invalid todos");
    }
    var parsed := NormalizeTodos(args.value.todos.value);
    if parsed.None? {
      return Fail("invalid_todos", "invalid todos");
    }
    if parsed.value == [] {
      return Fail("invalid_todos", "todos must contain at least one item");
    }
    var ok := state.WritePlanAndTodos(args.value.plan, parsed.value, rules.validPlan, env.writes);
    result := if ok then Succeed("Plan written successfully.", PLAN_WRITTEN) else Threw("write plan");
  }

  method ExecuteWriteTodos(state: ConversationState, raw: string, rules: Rules, env: PlanningEnv)
    returns (result: Executed)
    modifies state
    ensures ToolStep(result, state.State()) == WriteTodosTool(old(state.State()), raw, rules, env)
  {
    hide Normalized, TodosReplaced;
    var args := rules.todosArgs(raw);
    if args.None? {
      return Fail("invalid_arguments", "arguments do not decode");
    }
    if args.value.None? {
      return Fail("invalid_todos", "invalid todos");
    }
    var parsed := NormalizeTodos(args.value.value);
    if parsed.None? {
      return Fail("invalid_todos", "invalid todos");
    }
    var ok := state.ReplaceTodos(parsed.value, env.writes.todos);
    result := if ok then Succeed("Todos written successfully.", TODOS_WRITTEN) else Threw("write todos");
  }

  method ExecuteSubmit(state: ConversationState, raw: string, rules: Rules, env: PlanningEnv) returns (result: Executed)
    modifies state, state.evidence
    ensures ToolStep(result, state.State()) == SubmitTool(old(state.State()), raw, rules, env)
  {
    hide ImplementationCompleted, E.Reviewed, AllCompleted, CompletionDecision, Review;
    if !rules.submitArgs(raw) {
      return Fail("invalid_arguments", "arguments do not decode");
    }
    if !env.stateRead {
      return Threw("read state");
    }
    var todoCheck := ValidatePlanTodosComplete(state.todos);
    if !todoCheck.accepted {
      return Verdict(todoCheck, false);
    }
    var priorAttempts := state.evidence.state.reviewAttempts;
    var review := Review(env.reviewer, env.now);
    state.evidence.RecordReview(review, env.now, env.reviewStored);
    if !env.reviewStored {
      return Threw("record review");
    }
    var check := CompletionDecision(state.todos, review, priorAttempts);
    if !check.accepted {
      return Verdict(check, false);
    }
    var ok := state.CompletePlanImplementation(env.writes);
    result := if ok then Verdict(check, true) else Threw("complete plan");
  }

  // ----- Traces without store failures -----

  datatype Op =
    | Submit(raw: string, reviewer: Reviewer, now: E.Stamp)
    | WritePlan(plan: string, todos: seq<Todo>)
    | WriteTodos(todos: seq<Todo>)
    | RecordMutation(tool: string, at: string, now: E.Stamp)
    | RecordCommand(command: E.Command, at: string, now: E.Stamp)
    | ResetAttempts
    | ClearEvidence

  function Working(reviewer: Reviewer, now: E.Stamp): PlanningEnv {
    PlanningEnv(true, reviewer, now, true, ALL_STORED)
  }

  ghost function Perform(s: Conversation, op: Op, rules: Rules): Conversation {
    match op
    case Submit(raw, reviewer, now) => SubmitTool(s, raw, rules, Working(reviewer, now)).state
    case WritePlan(plan, todos) => PlanAndTodosWritten(s, plan, todos, rules.validPlan, ALL_STORED).state
    case WriteTodos(todos) => TodosReplaced(s, todos, true).state
    case RecordMutation(tool, at, now) => s.(evidence := E.WorkspaceMutated(s.evidence, tool, at, now))
    case RecordCommand(c, at, now) => s.(evidence := E.Appended(s.evidence, c, at, now))
    case ResetAttempts => s.(evidence := E.AttemptsReset(s.evidence))
    case ClearEvidence => s.(evidence := E.EMPTY)
  }

  /** The state before the operation at `n`. */
  ghost function StateAt(s: Conversation, ops: seq<Op>, n: nat, rules: Rules): Conversation
    requires n <= |ops|
  {
    if n == 0 then s else Perform(StateAt(s, ops, n - 1, rules), ops[n - 1], rules)
  }

  /** The status a submission answers with; other operations have none. */
  function Status(s: Conversation, op: Op, rules: Rules): string {
    if op.Submit? then
      var result := SubmitTool(s, op.raw, rules, Working(op.reviewer, op.now)).result;
      if result.Returned? then result.execution.status else ""
    else ""
  }

  predicate IsAccepted(s: Conversation, op: Op, rules: Rules) {
    Status(s, op, rules) == ACCEPTED || Status(s, op, rules) == ACCEPTED_WITH_WARNING
  }

  /** A plan baseline, a workspace mutation, an accepted submission, an explicit reset, or a clear. */
  ghost predicate ResetsAttempts(s: Conversation, op: Op, rules: Rules) {
    match op
    case Submit(_, _, _) => IsAccepted(s, op, rules)
    case WritePlan(plan, todos) => PlanAndTodosWritten(s, plan, todos, rules.validPlan, ALL_STORED).ok
    case RecordMutation(_, _, _) | ResetAttempts | ClearEvidence => true
    case _ => false
  }

  /** What one submission does, by its status. */
  lemma {:induction false} SubmissionMeaning(s: Conversation, op: Op, rules: Rules)
    requires op.Submit?
    ensures
      var status, s' := Status(s, op, rules), Perform(s, op, rules);
      && (IsAccepted(s, op, rules) ==>
          AllCompleted(s.todos) && s'.plan == "" && s'.todos == [] && s'.evidence.reviewAttempts == 0)
      && (!IsAccepted(s, op, rules) ==>
          s'.plan == s.plan && s'.todos == s.todos && s'.evidence.records == s.evidence.records)
      && (status == BLOCKED_REVIEW ==> s.evidence.reviewAttempts == 0 && s'.evidence.reviewAttempts == 1)
      && (!IsAccepted(s, op, rules) ==> s'.evidence.reviewAttempts >= s.evidence.reviewAttempts)
      && (rules.submitArgs(op.raw) && AllCompleted(s.todos) && s.evidence.reviewAttempts > 0 ==>
          IsAccepted(s, op, rules))
  {
    hide AllCompleted, NormalizedReview, E.AtOr, Review;
  }

  lemma {:induction false} OnlyResetsLower(s: Conversation, op: Op, rules: Rules)
    requires !ResetsAttempts(s, op, rules)
    ensures Perform(s, op, rules).evidence.reviewAttempts >= s.evidence.reviewAttempts
  {
    hide SubmitTool, Normalized, AllCompleted, E.MaxRevision, E.AtOr;
    if op.Submit? {
      SubmissionMeaning(s, op, rules);
    }
  }

  ghost predicate NoResetBetween(s: Conversation, ops: seq<Op>, i: nat, j: nat, rules: Rules)
    requires j <= |ops|
  {
    forall k :: i < k < j ==> !ResetsAttempts(StateAt(s, ops, k, rules), ops[k], rules)
  }

  lemma {:induction false} AttemptsKept(s: Conversation, ops: seq<Op>, i: nat, j: nat, rules: Rules)
    requires i < j <= |ops| && NoResetBetween(s, ops, i, j, rules)
    ensures StateAt(s, ops, j, rules).evidence.reviewAttempts >= StateAt(s, ops, i + 1, rules).evidence.reviewAttempts
    decreases j
  {
    hide Perform, ResetsAttempts;
    if i + 1 < j {
      AttemptsKept(s, ops, i, j - 1, rules);
      OnlyResetsLower(StateAt(s, ops, j - 1, rules), ops[j - 1], rules);
    }
  }

  /** Between two submissions blocked by the reviewer there is always something that resets the attempts. */
  lemma {:induction false} BlockedOncePerReset(s: Conversation, ops: seq<Op>, i: nat, j: nat, rules: Rules)
    requires i < j < |ops|
    requires Status(StateAt(s, ops, i, rules), ops[i], rules) == BLOCKED_REVIEW
    requires Status(StateAt(s, ops, j, rules), ops[j], rules) == BLOCKED_REVIEW
    ensures exists k :: i < k < j && ResetsAttempts(StateAt(s, ops, k, rules), ops[k], rules)
  {
    hide Perform, ResetsAttempts, SubmitTool, IsAccepted, AllCompleted;
    SubmissionMeaning(StateAt(s, ops, i, rules), ops[i], rules);
    SubmissionMeaning(StateAt(s, ops, j, rules), ops[j], rules);
    if NoResetBetween(s, ops, i, j, rules) {
      AttemptsKept(s, ops, i, j, rules);
      assert false;
    }
  }

  /** After a block and no reset, the next submission with completed todos is accepted and clears everything. */
  lemma {:induction false} NextSubmissionIsAccepted(s: Conversation, ops: seq<Op>, i: nat, j: nat, rules: Rules)
    requires i < j < |ops| && NoResetBetween(s, ops, i, j, rules)
    requires Status(StateAt(s, ops, i, rules), ops[i], rules) == BLOCKED_REVIEW
    requires ops[j].Submit? && rules.submitArgs(ops[j].raw) && AllCompleted(StateAt(s, ops, j, rules).todos)
    ensures IsAccepted(StateAt(s, ops, j, rules), ops[j], rules)
    ensures
      var s' := StateAt(s, ops, j + 1, rules);
      s'.plan == "" && s'.todos == [] && s'.evidence.reviewAttempts == 0
  {
    hide Perform, ResetsAttempts, SubmitTool, IsAccepted, AllCompleted;
    SubmissionMeaning(StateAt(s, ops, i, rules), ops[i], rules);
    SubmissionMeaning(StateAt(s, ops, j, rules), ops[j], rules);
    AttemptsKept(s, ops, i, j, rules);
  }
}
