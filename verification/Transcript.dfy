/** Conversation messages: what the agent loop stores, and when every tool call has been answered. */
module Transcript {
  import opened Wrappers
  import opened Text
  import opened ToolResults

  datatype ToolCall = ToolCall(id: string, name: string, arguments: string)

  datatype ToolResult = ToolResult(callId: string, name: string, content: string, payload: Payload, error: string)

  datatype Message =
    | System(content: string)
    | User(content: string)
    | Assistant(text: string, calls: seq<ToolCall>)
    | Answer(result: ToolResult)

  // ----- Answers -----

  /**
   * The calls still waiting for an answer after these messages; none at all if some message came out of turn: an
   * answer that is not for the first waiting call, or anything else while calls are waiting.
   */
  function Unanswered(messages: seq<Message>): Option<seq<ToolCall>> {
    if messages == [] then Some([])
    else
      var before := Unanswered(messages[..|messages| - 1]);
      if before.None? then None
      else
        match messages[|messages| - 1]
        case System(_) => if before.value == [] then Some([]) else None
        case User(_) => None
        case Assistant(_, calls) => if before.value == [] then Some(calls) else None
        case Answer(r) =>
          if before.value != [] && before.value[0].id == r.callId && before.value[0].name == r.name then
            Some(before.value[1..])
          else None
  }

  lemma {:induction false} UnansweredAfter(messages: seq<Message>, m: Message)
    ensures (messages + [m])[..|messages|] == messages && (messages + [m])[|messages|] == m
  {
  }

  /** System messages among these. */
  function SystemCount(messages: seq<Message>): nat {
    if messages == [] then 0
    else SystemCount(messages[..|messages| - 1]) + if messages[|messages| - 1].System? then 1 else 0
  }

  lemma {:induction false} AnswerTurns(messages: seq<Message>, waiting: seq<ToolCall>, r: ToolResult)
    requires Unanswered(messages) == Some(waiting) && waiting != [] && waiting[0].id == r.callId
             && waiting[0].name == r.name
    ensures Unanswered(messages + [Answer(r)]) == Some(waiting[1..])
  {
    UnansweredAfter(messages, Answer(r));
  }

  /** An assistant message and answers with the same ids, in order and each once, are all answered. */
  lemma {:induction false} RoundIsAnswered(before: seq<Message>, text: string, calls: seq<ToolCall>,
                                           results: seq<ToolResult>, n: nat)
    requires Unanswered(before) == Some([]) && n <= |results| <= |calls|
    requires forall i :: 0 <= i < n ==> results[i].callId == calls[i].id && results[i].name == calls[i].name
    ensures Unanswered(before + [Assistant(text, calls)] + Answers(results[..n])) == Some(calls[n..])
  {
    if n == 0 {
      assert before + [Assistant(text, calls)] + Answers(results[..0]) == before + [Assistant(text, calls)];
    } else {
      RoundIsAnswered(before, text, calls, results, n - 1);
      var head, last := before + [Assistant(text, calls)], Answer(results[n - 1]);
      assert head + Answers(results[..n]) == head + Answers(results[..n - 1]) + [last];
      AnswerTurns(head + Answers(results[..n - 1]), calls[n - 1..], results[n - 1]);
    }
  }

  lemma {:induction false} PrefixInTurn(messages: seq<Message>, n: nat)
    requires n <= |messages| && Unanswered(messages).Some?
    ensures Unanswered(messages[..n]).Some?
    decreases |messages|
  {
    if n == |messages| {
      assert messages[..n] == messages;
    } else {
      assert messages[..|messages| - 1][..n] == messages[..n];
      PrefixInTurn(messages[..|messages| - 1], n);
    }
  }

  /** In messages that are all in turn, the `k` messages after an assistant message answer its first `k` calls. */
  lemma {:induction false} AnswersFollow(messages: seq<Message>, i: nat, k: nat)
    requires Unanswered(messages).Some? && i + k < |messages|
    requires messages[i].Assistant? && k <= |messages[i].calls|
    ensures Unanswered(messages[..i + 1 + k]) == Some(messages[i].calls[k..])
    ensures k > 0 ==> messages[i + k].Answer? && messages[i + k].result.callId == messages[i].calls[k - 1].id
                      && messages[i + k].result.name == messages[i].calls[k - 1].name
    decreases k
  {
    var calls := messages[i].calls;
    PrefixInTurn(messages, i + k);
    PrefixInTurn(messages, i + 1 + k);
    assert messages[..i + 1 + k][..i + k] == messages[..i + k];
    if k > 0 {
      AnswersFollow(messages, i, k - 1);
    } else {
      assert calls[0..] == calls;
    }
  }

  /**
   * When nothing is left unanswered, every call of every assistant message has its answer, in order and before
   * anything else.
   */
  lemma {:induction false} EveryCallIsAnswered(messages: seq<Message>, i: nat, k: nat)
    requires Unanswered(messages) == Some([])
    requires i < |messages| && messages[i].Assistant? && k < |messages[i].calls|
    ensures i + 1 + k < |messages| && messages[i + 1 + k].Answer?
    ensures messages[i + 1 + k].result.callId == messages[i].calls[k].id
  {
    hide Unanswered;
    assert messages[..|messages|] == messages;
    AnswersFollow(messages, i, if i + 1 + k < |messages| then k + 1 else |messages| - 1 - i);
  }

  function Answers(results: seq<ToolResult>): seq<Message> {
    seq(|results|, i requires 0 <= i < |results| => Answer(results[i]))
  }

  // ----- Sanitized calls -----

  function SanitizedArguments(arguments: string, validJson: string -> bool): string {
    if TrimSpace(arguments) == "" then "{}" else if validJson(arguments) then arguments else "null"
  }

  function Sanitized(calls: seq<ToolCall>, validJson: string -> bool): seq<ToolCall> {
    seq(|calls|, i requires 0 <= i < |calls| =>
        calls[i].(arguments := SanitizedArguments(calls[i].arguments, validJson)))
  }

  /** Replaces, in place, arguments that are blank or not JSON. */
  method SanitizeToolCalls(calls: seq<ToolCall>, validJson: string -> bool) returns (sanitized: seq<ToolCall>)
    ensures sanitized == Sanitized(calls, validJson)
  {
    sanitized := calls;
    for i := 0 to |calls|
      invariant |sanitized| == |calls|
      invariant forall k :: 0 <= k < i ==> sanitized[k] == Sanitized(calls, validJson)[k]
      invariant forall k :: i <= k < |calls| ==> sanitized[k] == calls[k]
    {
      if TrimSpace(sanitized[i].arguments) == "" {
        sanitized := sanitized[i := sanitized[i].(arguments := "{}")];
        continue;
      }
      if !validJson(sanitized[i].arguments) {
        sanitized := sanitized[i := sanitized[i].(arguments := "null")];
      }
    }
  }
}
