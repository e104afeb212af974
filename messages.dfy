/** A transcript entry of a chat or layer session. */
module Messages {
  import opened Wrappers
  import opened Json

  /** `role` is "system", "user", "assistant" or "tool"; `toolCalls` holds the
      assistant's requested calls as JSON; `toolCallId` and `name` identify
      the call a tool message answers. */
  datatype Message = Message(
    role: string,
    content: string,
    cached: bool,
    toolCallId: Option<string>,
    name: Option<string>,
    toolCalls: Option<Json>)

  /** A message with no tool fields that is not marked for caching. */
  function Plain(role: string, content: string): Message {
    Message(role, content, false, None, None, None)
  }

  /** The message a session appends for one tool result. */
  function ToolMessage(content: string, toolCallId: string, name: string): Message {
    Message("tool", content, false, Some(toolCallId), Some(name), None)
  }
}
