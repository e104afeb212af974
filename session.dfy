/** The chat session state the modelled session code reads and updates:
    the transcript, the usage counters of `SessionInfo` and the current
    token counters, and the provider's answer to one request. */
module ChatSessions {
  import opened Wrappers
  import opened Messages
  import opened McpCore

  /** The integer part of a provider's usage report; `requestTimeMs` is the
      measured request time, when the provider gave one. */
  datatype TokenUsage = TokenUsage(promptTokens: nat, outputTokens: nat, cachedTokens: nat, requestTimeMs: Option<nat>)

  /** A provider's answer: the text, the requested tool calls, the finish
      reason and the usage of the exchange. */
  datatype ProviderResponse = ProviderResponse(
    content: string,
    toolCalls: Option<seq<McpToolCall>>,
    finishReason: Option<string>,
    usage: Option<TokenUsage>)

  /** `ChatSession` together with its `Session` and `SessionInfo`. The
      counters are unbounded here; the source's are `u64`. */
  class ChatSession {
    var messages: seq<Message>
    var model: string
    var toolCalls: nat
    var totalToolTimeMs: nat
    var totalApiTimeMs: nat
    var totalLayerTimeMs: nat
    var inputTokens: nat
    var outputTokens: nat
    var cachedTokens: nat
    var currentNonCachedTokens: nat
    var currentTotalTokens: nat

    /** A session over an existing transcript with all counters at zero. */
    constructor (model: string, messages: seq<Message>)
      ensures this.model == model && this.messages == messages
      ensures toolCalls == 0 && totalToolTimeMs == 0 && totalApiTimeMs == 0 && totalLayerTimeMs == 0
      ensures inputTokens == 0 && outputTokens == 0 && cachedTokens == 0
      ensures currentNonCachedTokens == 0 && currentTotalTokens == 0
    {
      this.model := model;
      this.messages := messages;
      toolCalls := 0;
      totalToolTimeMs := 0;
      totalApiTimeMs := 0;
      totalLayerTimeMs := 0;
      inputTokens := 0;
      outputTokens := 0;
      cachedTokens := 0;
      currentNonCachedTokens := 0;
      currentTotalTokens := 0;
    }

    /** `add_user_message`, as far as the transcript goes. */
    method AddUserMessage(content: string)
      modifies this`messages
      ensures messages == old(messages) + [Plain("user", content)]
    {
      messages := messages + [Plain("user", content)];
    }

    /** `add_tool_message`, as far as the transcript goes. */
    method AddToolMessage(content: string, toolCallId: string, name: string)
      modifies this`messages
      ensures messages == old(messages) + [ToolMessage(content, toolCallId, name)]
    {
      messages := messages + [ToolMessage(content, toolCallId, name)];
    }
  }
}
