/** A whole run of the agent as a function of the stores it finds and of everything it meets. */
module AgentRun {
  import opened Wrappers
  import opened Text
  import opened Todos
  import opened Transcript
  import opened ToolPolicy
  import opened AgentStep

  // ----- The start of a run -----

  /** The stored messages with a fresh system prompt in front and the user's prompt behind. */
  function Prepared(history: seq<Message>, prompt: string, system: string): seq<Message> {
    (if history != [] && history[0].System? then history[0 := System(system)] else [System(system)] + history)
    + [User(prompt)]
  }

  /** Routing: plan mode if a plan is asked for and nothing is under way; a blank plan becomes the starter text. */
  function Routed(store: Store, route: Route): (Store, bool) {
    if store.mode != DefaultMode then (store, true)
    else if route.StateUnread? then (store, false)
    else if !Cleared(store.conv.plan, store.conv.todos) then (store, true)
    else match route
      case RouteFails | StateUnread => (store, false)
      case StayInMode => (store, true)
      case RequirePlan(stored) =>
        if TrimSpace(store.conv.plan) != "" then (store.(mode := PlanMode), true)
        else if stored then (store.(mode := PlanMode, conv := store.conv.(plan := STARTER_PLAN)), true)
        else (store, false)
  }

  /** The prepared messages of a run; none if it cannot start. */
  function Started(store: Store, prompt: string, system: string, env: RunEnv): Option<seq<Message>> {
    if env.historyStored(0) then env.compact(Prepared(store.history, prompt, system)) else None
  }

  function Begin(store: Store, prompt: string, system: string, env: RunEnv): Step {
    match Started(store, prompt, system, env)
    case None => Step(Live(store, [], NO_FLAGS, []), StoreFailed)
    case Some(messages) =>
      var routed := Routed(store.(history := messages), env.route);
      Step(Live(routed.0, messages, NO_FLAGS, []), if routed.1 then NotFailed else RoutingFailed)
  }

  // ----- One pass of the loop -----

  /** What the loop carries from one request to the next. */
  datatype Loop = Loop(live: Live, progressNudge: Option<Message>, submitNudged: bool, toolRounds: nat, output: string)

  datatype TurnStep = TurnStep(next: Loop, ended: Option<RunResult>)

  /** The request: the messages, and the current mode after them. */
  function RequestFor(messages: seq<Message>, mode: Mode, rules: Rules): seq<Message> {
    messages + [System(rules.renderMode(mode))]
  }

  /** The messages without the checkpoint, if there was one. */
  function WithoutNudge(messages: seq<Message>, nudge: Option<Message>): seq<Message> {
    if nudge.Some? && messages != [] && messages[|messages| - 1].System?
       && NUDGE_PREFIX <= messages[|messages| - 1].content then
      messages[..|messages| - 1]
    else messages
  }

  function Appended(s: Live, m: Message): Live {
    s.(store := s.store.(history := s.store.history + [m]), messages := s.messages + [m])
  }

  /** There was progress that no todo update recorded. */
  predicate CheckpointDue(flags: Flags) {
    flags.nudge && !flags.todosUpdated
  }

  /** The checkpoint shown to the model when it is due, while todos remain. */
  function CheckpointFor(s: Live, rules: Rules): Option<Message> {
    var todos := s.store.conv.todos;
    if CheckpointDue(s.flags) && todos != [] && !AllCompleted(todos) then
      Some(System(NUDGE_PREFIX + "\n" + rules.renderTodos(todos)))
    else None
  }

  /** The model stopped calling tools: the run is over, or the missing submission is asked for once. */
  function Finished(l: Loop, max: nat, env: RunEnv): TurnStep {
    var conv := l.live.store.conv;
    if !env.stateRead(l.toolRounds) then TurnStep(l, Some(RunResult(l.output, false, StoreFailed)))
    else if Cleared(conv.plan, conv.todos) || l.live.flags.accepted then
      TurnStep(l,
               Some(RunResult(l.output, !env.callbackFails, if env.callbackFails then CallbackFailed else NotFailed)))
    else if l.submitNudged then TurnStep(l, Some(RunResult(l.output, false, SubmissionRequired)))
    else if l.toolRounds >= max then TurnStep(l, Some(RunResult(l.output, false, MaxToolRounds)))
    else if !env.historyStored(|l.live.store.history|) then TurnStep(l, Some(RunResult(l.output, false, StoreFailed)))
    else TurnStep(l.(live := Appended(l.live, System(SUBMIT_REQUIRED)), submitNudged := true,
                     toolRounds := l.toolRounds + 1), None)
  }

  /** The round of calls, and the checkpoint after it. */
  ghost function RoundOf(l: Loop, calls: seq<ToolCall>, available: seq<Entry>, rules: Rules, env: RunEnv): TurnStep {
    var fresh_ := l.live.(flags := l.live.flags.(nudge := false, todosUpdated := false));
    var step := AnswerAll(fresh_, calls, available, rules, env, l.toolRounds, 0);
    var l' := l.(live := step.live, toolRounds := l.toolRounds + 1);
    if !step.failure.NotFailed? then TurnStep(l', Some(RunResult(l.output, false, step.failure)))
    else if CheckpointDue(step.live.flags) && !env.stateRead(l.toolRounds) then
      TurnStep(l', Some(RunResult(l.output, false, StoreFailed)))
    else
      match CheckpointFor(step.live, rules)
      case None => TurnStep(l', None)
      case Some(nudge) => TurnStep(l'.(live := step.live.(messages := step.live.messages + [nudge]),
                                       progressNudge := Some(nudge)), None)
  }

  /** The model's answer is stored, its calls sanitized, and acted upon. */
  ghost function Acted(l: Loop, response: Response, available: seq<Entry>, rules: Rules, max: nat,
                       env: RunEnv): TurnStep {
    var Response(text, calls) := response;
    var l1 := l.(live := l.live.(messages := WithoutNudge(l.live.messages, l.progressNudge)), progressNudge := None,
                 output := if text != "" then text else l.output);
    if calls != [] && l.toolRounds >= max then TurnStep(l1, Some(RunResult(l1.output, false, MaxToolRounds)))
    else if text == "" && calls == [] then Finished(l1, max, env)
    else if !env.historyStored(|l1.live.store.history|) then
      TurnStep(l1, Some(RunResult(l1.output, false, StoreFailed)))
    else
      var l2 := l1.(live := Appended(l1.live, Assistant(text, Sanitized(calls, rules.validJson))));
      if calls == [] then Finished(l2, max, env) else RoundOf(l2, calls, available, rules, env)
  }

  /** The loop with a request noted. */
  function Asking(l: Loop, available: seq<Entry>, rules: Rules): Loop {
    var mode := l.live.store.mode;
    var asked := Asked(RequestFor(l.live.messages, mode, rules), Filtered(mode, available, rules.letters),
                       l.live.store.history, l.progressNudge, mode, available);
    l.(live := l.live.(trace := l.live.trace + [asked]))
  }

  ghost function Turn(l: Loop, rules: Rules, max: nat, env: RunEnv): TurnStep {
    match env.active(l.toolRounds)
    case None => TurnStep(l, Some(RunResult(l.output, false, ToolsFailed)))
    case Some(available) =>
      var mode := l.live.store.mode;
      if mode.OtherMode? then TurnStep(l, Some(RunResult(l.output, false, UnsupportedModeFailure)))
      else
        var asking := Asking(l, available, rules);
        match env.model(l.toolRounds, RequestFor(l.live.messages, mode, rules),
                        Filtered(mode, available, rules.letters))
        case None => TurnStep(asking, Some(RunResult(l.output, false, ModelFailed)))
        case Some(response) => Acted(asking, response, available, rules, max, env)
  }

  // ----- The run -----

  datatype End = End(result: RunResult, live: Live)

  lemma {:induction false} TurnGoesOn(l: Loop, rules: Rules, max: nat, env: RunEnv)
    requires l.toolRounds <= max
    ensures Turn(l, rules, max, env).ended.None? ==>
              l.toolRounds < max && Turn(l, rules, max, env).next.toolRounds == l.toolRounds + 1
  {
    hide AnswerAll, Filtered, Sanitized, RequestFor, WithoutNudge, CheckpointFor, Cleared;
  }

  ghost function RunFrom(l: Loop, rules: Rules, max: nat, env: RunEnv): End
    requires l.toolRounds <= max
    decreases max - l.toolRounds
  {
    TurnGoesOn(l, rules, max, env);
    var turn := Turn(l, rules, max, env);
    if turn.ended.Some? then End(turn.ended.value, turn.next.live) else RunFrom(turn.next, rules, max, env)
  }

  ghost function Run(store: Store, prompt: string, system: string, rules: Rules, max: nat, env: RunEnv): End {
    var start := Begin(store, prompt, system, env);
    if !start.failure.NotFailed? then End(RunResult("", false, start.failure), start.live)
    else RunFrom(Loop(start.live, None, false, 0, ""), rules, max, env)
  }
}
