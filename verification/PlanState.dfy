/** Conversation state: the plan, the todo list and the evidence, written together with compensating rollback. */
module PlanState {
  import opened Wrappers
  import opened Todos
  import E = CommandEvidence

  datatype Conversation = Conversation(plan: string, todos: seq<Todo>, evidence: E.Evidence)

  /** Which of the store writes of one operation the stores accept; a refused write changes nothing. */
  datatype Writes = Writes(plan: bool, todos: bool, undo: bool, evidence: bool)

  const ALL_STORED := Writes(true, true, true, true)

  datatype StateStep = StateStep(ok: bool, state: Conversation)

  /** Stores a valid plan and a valid non-empty todo list, then marks the evidence baseline. */
  ghost function PlanAndTodosWritten(s: Conversation, plan: string, todos: seq<Todo>, validPlan: string -> bool,
                                     w: Writes): StateStep {
    if !validPlan(plan) || Normalized(todos).None? || Normalized(todos).value == [] || !w.plan then StateStep(false, s)
    else if !w.todos then StateStep(false, s.(plan := if w.undo then s.plan else plan))
    else
      var written := s.(plan := plan, todos := Normalized(todos).value);
      if w.evidence then StateStep(true, written.(evidence := E.PlanBaseline(s.evidence)))
      else StateStep(false, written)
  }

  /** Clears the plan and the todos after an accepted submission, then the review attempts. */
  function ImplementationCompleted(s: Conversation, w: Writes): StateStep {
    if !w.plan then StateStep(false, s)
    else if !w.todos then StateStep(false, s.(plan := if w.undo then s.plan else ""))
    else
      var cleared := s.(plan := "", todos := []);
      if w.evidence then StateStep(true, cleared.(evidence := E.AttemptsReset(s.evidence)))
      else StateStep(false, cleared)
  }

  ghost function TodosReplaced(s: Conversation, todos: seq<Todo>, stored: bool): StateStep {
    if Normalized(todos).None? || !stored then StateStep(false, s)
    else StateStep(true, s.(todos := Normalized(todos).value))
  }

  // ----- When a failed operation leaves a trace -----

  /** The store failures that defeat the compensation: the undo fails too, or only the evidence write fails. */
  predicate Torn(w: Writes) {
    w.plan && ((!w.todos && !w.undo) || (w.todos && !w.evidence))
  }

  /** The writes that the stores accepted store what is there already. */
  predicate StoresTheSame(s: Conversation, plan: string, todos: seq<Todo>, w: Writes) {
    plan == s.plan && (w.todos ==> todos == s.todos)
  }

  /**
   * Clearing a plan and its todos is all or nothing exactly when the stores do not tear it, or there was nothing to
   * clear.
   */
  lemma {:induction false} CompletionIsAtomicIff(s: Conversation, w: Writes)
    ensures
      var step := ImplementationCompleted(s, w);
      && (step.ok ==> step.state.plan == "" && step.state.todos == [] && step.state.evidence.reviewAttempts == 0)
      && (step.ok || step.state == s <==> !Torn(w) || StoresTheSame(s, "", [], w))
  {
  }

  /** The plan is valid, and so are the todos, of which there is one at least. */
  ghost predicate Writable(plan: string, todos: seq<Todo>, validPlan: string -> bool) {
    validPlan(plan) && Normalized(todos).Some? && Normalized(todos).value != []
  }

  /**
   * Writing a plan with its todos is all or nothing exactly when they are refused, or the stores do not tear the write,
   * or it stores what is there already.
   */
  lemma {:induction false} PlanWriteIsAtomicIff(s: Conversation, plan: string, todos: seq<Todo>,
                                                validPlan: string -> bool, w: Writes)
    ensures
      var step := PlanAndTodosWritten(s, plan, todos, validPlan, w);
      && (step.ok ==> step.state.plan == plan && ValidList(step.state.todos) && step.state.todos != [])
      && (step.ok || step.state == s <==>
            !Writable(plan, todos, validPlan) || !Torn(w) || StoresTheSame(s, plan, Normalized(todos).value, w))
  {
    hide Normalized;
    if Normalized(todos).Some? {
      NormalizedTwice(todos);
    }
  }

  // ----- The state object -----

  class ConversationState {
    var plan: string
    var todos: seq<Todo>
    const evidence: E.Manager

    ghost function State(): Conversation
      reads this, evidence
    {
      Conversation(plan, todos, evidence.state)
    }

    constructor ()
      ensures State() == Conversation("", [], E.EMPTY)
      ensures fresh(evidence)
    {
      plan, todos := "", [];
      evidence := new E.Manager();
    }

    method WritePlanAndTodos(text: string, items: seq<Todo>, validPlan: string -> bool, w: Writes) returns (ok: bool)
      modifies this, evidence
      ensures StateStep(ok, State()) == PlanAndTodosWritten(old(State()), text, items, validPlan, w)
    {
      hide Normalized, E.PlanBaseline;
      if !validPlan(text) {
        return false;
      }
      var normalized := NormalizeTodos(items);
      if normalized.None? || normalized.value == [] {
        return false;
      }
      var before := plan;
      if !w.plan {
        return false;
      }
      plan := text;
      if !w.todos {
        if w.undo {
          plan := before;
        }
        return false;
      }
      todos := normalized.value;
      evidence.RecordPlanBaseline(w.evidence);
      ok := w.evidence;
    }

    method CompletePlanImplementation(w: Writes) returns (ok: bool)
      modifies this, evidence
      ensures StateStep(ok, State()) == ImplementationCompleted(old(State()), w)
    {
      hide E.AttemptsReset;
      var before := plan;
      if !w.plan {
        return false;
      }
      plan := "";
      if !w.todos {
        if w.undo {
          plan := before;
        }
        return false;
      }
      todos := [];
      evidence.ResetReviewAttempts(w.evidence);
      ok := w.evidence;
    }

    method ReplaceTodos(items: seq<Todo>, stored: bool) returns (ok: bool)
      modifies this
      ensures StateStep(ok, State()) == TodosReplaced(old(State()), items, stored)
    {
      hide Normalized;
      var normalized := NormalizeTodos(items);
      if normalized.None? || !stored {
        return false;
      }
      todos := normalized.value;
      ok := true;
    }
  }
}
