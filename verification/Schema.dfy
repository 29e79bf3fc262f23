/** Vocabulary shared by the other modules: bytes, optional values, results,
    and the messages exchanged with a model. */
module Basics {
  newtype byte = x: int | 0 <= x < 256

  type bytes = seq<byte>

  datatype Option<+T> = None | Some(value: T) {
    predicate IsFailure() {
      None?
    }

    function PropagateFailure<U>(): Option<U>
      requires None?
    {
      None
    }

    function Extract(): T
      requires Some?
    {
      value
    }
  }

  datatype Result<+T, +E> = Ok(value: T) | Err(error: E) {
    predicate IsFailure() {
      Err?
    }

    function PropagateFailure<U>(): Result<U, E>
      requires Err?
    {
      Err(error)
    }

    function Extract(): T
      requires Ok?
    {
      value
    }
  }

  function Min(a: int, b: int): int {
    if a < b then a else b
  }
}

/** Messages, tool calls and token counts (internal/schema/message.go).
    A Go string is a `string` here: its characters are the runes. */
module Schema {
  import opened Basics

  const ROLE_SYSTEM := "system"
  const ROLE_USER := "user"
  const ROLE_ASSISTANT := "assistant"

  datatype TokenUsage = TokenUsage(prompt: int, completion: int, cached: int)

  datatype ToolCall = ToolCall(id: string, name: string, arguments: string)

  datatype Message = Message(
    role: string,
    content: string,
    toolCalls: seq<ToolCall>,
    toolCallId: string,
    usage: Option<TokenUsage>)

  // A message typed by a user, as opposed to the result of a tool call.
  predicate OrdinaryUser(m: Message) {
    m.role == ROLE_USER && m.toolCallId == ""
  }
}
