/** Tool calls and their results, with JSON payloads as typed records. */
module ToolResults {
  import opened Wrappers

  /** The workspace mutation record nested in a payload. */
  datatype Mutation = Mutation(observed: bool, mayHaveOccurred: bool, filesChanged: int, rollbackAttempted: bool,
                               rollbackSucceeded: bool)

  const NO_MUTATION := Mutation(false, false, 0, false, false)

  /** The payload fields the agent loop decodes; a missing field has its zero value. */
  datatype Fields = Fields(
    success: Option<bool>, status: string, error: string,
    accepted: bool, todosCleared: bool, planCleared: bool,
    ready: bool, planValid: bool, todosWritten: bool, todosValid: bool,
    executed: bool, command: string,
    changed: bool, created: bool, overwritten: bool, deleted: bool, mutation: Mutation, workspace: Mutation,
    warning: string)

  const NO_FIELDS := Fields(
    None, "", "", false, false, false, false, false, false, false, false, "", false, false, false, false, NO_MUTATION,
    NO_MUTATION, "")

  /** A payload is absent, or JSON text that decodes as an object or not. */
  datatype Payload = NoPayload | Undecodable(raw: string) | Decoded(fields: Fields)

  function FieldsOf(p: Payload): Fields {
    if p.Decoded? then p.fields else NO_FIELDS
  }

  /** What a tool execution service returns. */
  datatype Execution = Execution(success: bool, status: string, content: string, payload: Payload, error: string)

  datatype Executed = Returned(execution: Execution) | Threw(message: string)

  function Fail(status: string, message: string): Executed {
    Returned(Execution(false, status, message,
                       Decoded(NO_FIELDS.(success := Some(false), status := status, error := message)), message))
  }

  function Succeed(content: string, fields: Fields): Executed {
    Returned(Execution(true, "ok", content, Decoded(fields), ""))
  }
}
