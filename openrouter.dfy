/** The OpenRouter provider: which models it serves and caches, where its
    key comes from, the tool definitions sent with a request, how the
    transcript is converted to its wire format, and how a reply becomes a
    response (text, tool calls, usage) or an error. The HTTP exchange is an
    input (`Reply`); `parse` stands for `serde_json::from_str` and
    `freshId(i)` for the UUID drawn for the i-th call without an id. */
module OpenRouter {
  import opened Wrappers
  import opened Strings
  import opened Json
  import opened Messages
  import opened McpCore
  import opened ProviderWire
  import opened HttpStatus

  const API_KEY_ENV := "OPENROUTER_API_KEY"
  const KEY_MISSING := "OpenRouter API key not found in config or environment"
  const VENDOR_PREFIXES := ["anthropic", "openai", "google", "meta-llama", "mistralai"]

  /** `supports_model`: any `vendor/model` name, or a name that starts with
      one of the listed vendors. */
  predicate SupportsModel(model: string) {
    Contains(model, "/") || StartsWith(model, "anthropic") || StartsWith(model, "openai")
    || StartsWith(model, "google") || StartsWith(model, "meta-llama") || StartsWith(model, "mistralai")
  }

  /** The vendor list is exactly the set of accepted prefixes. */
  lemma SupportsModelMeaning(model: string)
    ensures SupportsModel(model) <==>
      Contains(model, "/") || exists i :: 0 <= i < |VENDOR_PREFIXES| && StartsWith(model, VENDOR_PREFIXES[i])
  {
    if StartsWith(model, "anthropic") { assert StartsWith(model, VENDOR_PREFIXES[0]); }
    if StartsWith(model, "openai") { assert StartsWith(model, VENDOR_PREFIXES[1]); }
    if StartsWith(model, "google") { assert StartsWith(model, VENDOR_PREFIXES[2]); }
    if StartsWith(model, "meta-llama") { assert StartsWith(model, VENDOR_PREFIXES[3]); }
    if StartsWith(model, "mistralai") { assert StartsWith(model, VENDOR_PREFIXES[4]); }
  }

  /** `supports_caching`: Claude models, by either name. */
  predicate SupportsCaching(model: string) {
    Contains(model, "claude") || Contains(model, "anthropic")
  }

  /** An Anthropic model is both served and cached; a served model that is
      not Claude is not cached. */
  lemma CachingMeaning(model: string)
    ensures StartsWith(model, "anthropic") ==> SupportsModel(model) && SupportsCaching(model)
    ensures SupportsCaching(model) && !Contains(model, "claude") ==> Contains(model, "anthropic")
  {
    if StartsWith(model, "anthropic") {
      StartsWithContains(model, "anthropic");
    }
  }

  /** `get_api_key`: the configured key, else the environment's. */
  function GetApiKey(configKey: Option<string>, envKey: Option<string>): (r: Result<string>)
    ensures r.Ok? <==> configKey.Some? || envKey.Some?
    ensures configKey.Some? ==> r == Ok(configKey.value)
    ensures configKey.None? && envKey.Some? ==> r == Ok(envKey.value)
    ensures r.Err? ==> r.msg == KEY_MISSING
  {
    if configKey.Some? then Ok(configKey.value)
    else if envKey.Some? then Ok(envKey.value)
    else Err(KEY_MISSING)
  }

  // ---------------------------------------------------------------------
  // Tool definitions
  // ---------------------------------------------------------------------

  const CACHE_CONTROL := JObject([("type", JString("ephemeral"))])
  const WEB_SEARCH_TOOL := JObject([("type", JString("web_search_20250305")), ("name", JString("web_search"))])
  const TEXT_EDITOR_TOOL := JObject([("type", JString("text_editor_20250124")), ("name", JString("text_editor"))])

  /** One MCP function as an OpenAI-style tool definition. */
  function ToolDefinition(f: McpFunction): Json {
    JObject([("type", JString("function")),
             ("function", JObject([("name", JString(f.name)), ("description", JString(f.description)),
                                   ("parameters", f.parameters)]))])
  }

  /** The definitions, with Anthropic's web-search and text-editor tools
      added for Claude Sonnet 4. */
  function ToolList(functions: seq<McpFunction>, model: string): (tools: seq<Json>)
    ensures |tools| == |functions| + (if Contains(model, "claude-sonnet-4") then 2 else 0)
  {
    seq(|functions|, i requires 0 <= i < |functions| => ToolDefinition(functions[i]))
    + (if Contains(model, "claude-sonnet-4") then [WEB_SEARCH_TOOL, TEXT_EDITOR_TOOL] else [])
  }

  /** `tool["cache_control"] = {"type": "ephemeral"}` */
  function WithCacheControl(tool: Json): Json {
    if tool.JObject? then JObject(SetField(tool.fields, "cache_control", CACHE_CONTROL)) else tool
  }

  predicate HasCacheControl(tool: Json) {
    Get(tool, "cache_control").Some?
  }

  /** The `tools` of a request: none unless MCP is on and offers functions;
      with caching, the last definition carries the cache marker. */
  function RequestTools(mcpEnabled: bool, functions: seq<McpFunction>, model: string): Option<seq<Json>> {
    if !mcpEnabled || functions == [] then None
    else
      var tools := ToolList(functions, model);
      if SupportsCaching(model) then Some(tools[|tools| - 1 := WithCacheControl(tools[|tools| - 1])])
      else Some(tools)
  }

  /** Building the tools: collect the definitions, then patch the last one
      in place. */
  method BuildTools(mcpEnabled: bool, functions: seq<McpFunction>, model: string) returns (tools: Option<seq<Json>>)
    ensures tools == RequestTools(mcpEnabled, functions, model)
  {
    if !mcpEnabled || functions == [] {
      return None;
    }
    var list := ToolList(functions, model);
    if SupportsCaching(model) && list != [] {
      var last := |list| - 1;
      list := list[last := WithCacheControl(list[last])];
    }
    tools := Some(list);
  }

  lemma NoCacheControlInDefinition(f: McpFunction)
    ensures !HasCacheControl(ToolDefinition(f))
  {
    var fields := ToolDefinition(f).fields;
    assert fields[0].0[0] != "cache_control"[0] && fields[1].0[0] != "cache_control"[0];
  }

  lemma NoCacheControlInAnthropicTools()
    ensures !HasCacheControl(WEB_SEARCH_TOOL) && !HasCacheControl(TEXT_EDITOR_TOOL)
  {
    assert WEB_SEARCH_TOOL.fields[1].0[0] != "cache_control"[0];
    assert TEXT_EDITOR_TOOL.fields[1].0[0] != "cache_control"[0];
  }

  /** With caching, exactly the last definition carries the marker; without
      it, none does. Each function's definition keeps its position. */
  lemma {:induction false} CacheMarkerOnLastTool(mcpEnabled: bool, functions: seq<McpFunction>, model: string, i: nat)
    ensures RequestTools(mcpEnabled, functions, model).None? <==> !mcpEnabled || functions == []
    ensures var t := RequestTools(mcpEnabled, functions, model);
      t.Some? && i < |t.value| ==>
        (HasCacheControl(t.value[i]) <==> SupportsCaching(model) && i == |t.value| - 1)
    ensures var t := RequestTools(mcpEnabled, functions, model);
      t.Some? && i < |functions| && (i < |functions| - 1 || !SupportsCaching(model) || Contains(model, "claude-sonnet-4")) ==>
        t.value[i] == ToolDefinition(functions[i])
  {
    var t := RequestTools(mcpEnabled, functions, model);
    if t.Some? && i < |t.value| {
      var tools := ToolList(functions, model);
      var last := |tools| - 1;
      assert !HasCacheControl(tools[i]) by {
        if i < |functions| {
          NoCacheControlInDefinition(functions[i]);
        } else {
          NoCacheControlInAnthropicTools();
        }
      }
      assert tools[last].JObject? by {
        if last < |functions| {
          assert tools[last] == ToolDefinition(functions[last]);
        }
      }
      if SupportsCaching(model) && i == last {
        SetFieldLookup(tools[last].fields, "cache_control", CACHE_CONTROL, "cache_control");
      }
    }
  }

  // ---------------------------------------------------------------------
  // Tool calls in a reply
  // ---------------------------------------------------------------------

  /** The call's parameters from its `arguments` text: blank text is an
      empty object, text that does not parse is kept as a JSON string. */
  function ParsedArguments(args: string, parse: string -> Option<Json>): Json {
    if Trim(args) == [] then JObject([])
    else if parse(args).Some? then parse(args).value
    else JString(args)
  }

  /** One entry of `tool_calls`. The OpenAI form has a `function` with a
      string `name` and `arguments` (otherwise the entry is skipped) and an
      optional `id`; the flat form, used only without `function`, needs a
      string `id` and `name` and takes `parameters` as they are, an absent
      or empty-string value meaning an empty object. */
  function ExtractedCall(tc: Json, parse: string -> Option<Json>): Option<McpToolCall> {
    var fn := Get(tc, "function");
    if fn.Some? then
      var name := GetStr(fn.value, "name");
      var args := GetStr(fn.value, "arguments");
      if name.Some? && args.Some? then
        Some(McpToolCall(name.value, ParsedArguments(args.value, parse), GetStr(tc, "id").GetOr("")))
      else None
    else
      var id := GetStr(tc, "id");
      var name := GetStr(tc, "name");
      if id.Some? && name.Some? then
        var params := Get(tc, "parameters");
        var p := if params.None? || params.value == JString("") then JObject([]) else params.value;
        Some(McpToolCall(name.value, p, id.value))
      else None
  }

  /** The calls extracted from the entries, in order. */
  function ExtractedCalls(items: seq<Json>, parse: string -> Option<Json>): (calls: seq<McpToolCall>)
    ensures |calls| <= |items|
  {
    if items == [] then []
    else ExtractedCalls(items[..|items| - 1], parse)
         + OptionToSeq(ExtractedCall(items[|items| - 1], parse))
  }

  function OptionToSeq<T>(o: Option<T>): seq<T> {
    if o.Some? then [o.value] else []
  }

  /** `ensure_tool_call_ids` applied to a list. */
  function FillIds(calls: seq<McpToolCall>, freshId: nat -> string): (r: seq<McpToolCall>)
    ensures |r| == |calls|
  {
    seq(|calls|, i requires 0 <= i < |calls| =>
      if calls[i].toolId == "" then calls[i].(toolId := "tool_" + freshId(i)) else calls[i])
  }

  /** The tool calls of a reply message: none unless `tool_calls` is a
      non-empty array. */
  function ToolCallsOf(message: Json, parse: string -> Option<Json>, freshId: nat -> string): Option<seq<McpToolCall>> {
    var tcv := Get(message, "tool_calls");
    if tcv.Some? && tcv.value.JArray? && tcv.value.items != [] then
      Some(FillIds(ExtractedCalls(tcv.value.items, parse), freshId))
    else None
  }

  /** Blank arguments give an empty object and unparsable ones a string; an
      OpenAI-form entry without an id gets a generated one, so every
      extracted call has an id. */
  lemma ExtractedCallMeaning(tc: Json, parse: string -> Option<Json>, args: string)
    ensures var f := Get(tc, "function");
      f.Some? && GetStr(f.value, "name").Some? && GetStr(f.value, "arguments") == Some(args) ==>
        (ExtractedCall(tc, parse).Some?
         && (Trim(args) == [] ==> ExtractedCall(tc, parse).value.parameters == JObject([]))
         && (Trim(args) != [] && parse(args).None? ==> ExtractedCall(tc, parse).value.parameters == JString(args))
         && (GetStr(tc, "id").None? ==> ExtractedCall(tc, parse).value.toolId == ""))
    ensures Get(tc, "function").None? ==>
      (ExtractedCall(tc, parse).Some? <==> GetStr(tc, "id").Some? && GetStr(tc, "name").Some?)
  {
  }

  /** Every call handed on has an id: the reply's own or a generated one. */
  lemma FillIdsMeaning(calls: seq<McpToolCall>, freshId: nat -> string, i: nat)
    requires i < |calls|
    ensures FillIds(calls, freshId)[i].toolId != ""
    ensures FillIds(calls, freshId)[i].toolName == calls[i].toolName
    ensures FillIds(calls, freshId)[i].parameters == calls[i].parameters
    ensures calls[i].toolId != "" ==> FillIds(calls, freshId)[i] == calls[i]
  {
  }

  /** The extraction loop: entries that give no call leave no trace. */
  method CollectCalls(items: seq<Json>, parse: string -> Option<Json>) returns (extracted: seq<McpToolCall>)
    ensures extracted == ExtractedCalls(items, parse)
  {
    extracted := [];
    var i := 0;
    while i < |items|
      invariant 0 <= i <= |items|
      invariant extracted == ExtractedCalls(items[..i], parse)
    {
      assert items[..i + 1][..i] == items[..i];
      var call := ExtractedCall(items[i], parse);
      if call.Some? {
        extracted := extracted + [call.value];
      }
      i := i + 1;
    }
    assert items[..i] == items;
  }

  /** `ensure_tool_call_ids` run over a buffer holding the calls. */
  method FillIdsInPlace(extracted: seq<McpToolCall>, freshId: nat -> string) returns (filled: seq<McpToolCall>)
    ensures filled == FillIds(extracted, freshId)
  {
    var buffer := new McpToolCall[|extracted|](k requires 0 <= k < |extracted| => extracted[k]);
    assert buffer[..] == extracted;
    EnsureToolCallIds(buffer, freshId);
    filled := buffer[..];
    assert forall k :: 0 <= k < |filled| ==> filled[k] == FillIds(extracted, freshId)[k];
  }

  /** The tool calls of a reply message, extracted and given ids. */
  method ExtractToolCalls(message: Json, parse: string -> Option<Json>, freshId: nat -> string)
    returns (calls: Option<seq<McpToolCall>>)
    ensures calls == ToolCallsOf(message, parse, freshId)
  {
    var tcv := Get(message, "tool_calls");
    if !(tcv.Some? && tcv.value.JArray? && tcv.value.items != []) {
      return None;
    }
    var extracted := CollectCalls(tcv.value.items, parse);
    var filled := FillIdsInPlace(extracted, freshId);
    calls := Some(filled);
  }

  // ---------------------------------------------------------------------
  // Replies
  // ---------------------------------------------------------------------

  /** What came back over HTTP: the status code, its display form, the body
      and the body parsed as JSON (or the parser's complaint). */
  datatype Reply = Reply(status: nat, statusLine: string, text: string, parsed: Result<Json>)

  /** The token counts of a reply; the cost and detail objects are not
      modelled. */
  datatype Usage = Usage(promptTokens: nat, completionTokens: nat, totalTokens: nat)

  datatype OpenRouterResponse = OpenRouterResponse(content: string, toolCalls: Option<seq<McpToolCall>>,
                                                   finishReason: Option<string>, usage: Option<Usage>)

  const ERROR_FIELDS := [DetailField("message", "Message: "), DetailField("code", "Code: "), DetailField("type", "Type: ")]
  const ERROR_PREFIX := "OpenRouter API error: "
  const BODY_ERROR := "HTTP 200 but error in response"

  /** The usage of a reply; every count defaults to 0. */
  function ReplyUsage(reply: Json): Option<Usage> {
    var usage := Get(reply, "usage");
    if usage.None? then None
    else Some(Usage(UsageCount(usage.value, "prompt_tokens"), UsageCount(usage.value, "completion_tokens"),
                    UsageCount(usage.value, "total_tokens")))
  }

  /** The details for an `error` in a successful reply: the marker and the
      error's message when it is a string. */
  function BodyErrorDetails(error: Json): seq<string> {
    var msg := GetStr(error, "message");
    [BODY_ERROR] + (if msg.Some? then ["Message: " + msg.value] else [])
  }

  /** How a reply becomes a response: an unparsable body, a failed status,
      an `error` in a successful body and a reply without
      `choices[0].message` are errors; otherwise text, tool calls, finish
      reason and usage. */
  function ReplyOutcome(reply: Reply, parse: string -> Option<Json>, freshId: nat -> string)
    : Result<OpenRouterResponse>
  {
    if reply.parsed.Err? then
      Err("Failed to parse response JSON: " + reply.parsed.msg + ". Response: " + reply.text)
    else
      var json := reply.parsed.value;
      var error := Get(json, "error");
      if !IsSuccess(reply.status) then
        Err(ERROR_PREFIX + Join(ErrorDetails(reply.statusLine, error, ERROR_FIELDS, reply.text), " | "))
      else if error.Some? then
        Err(ERROR_PREFIX + Join(BodyErrorDetails(error.value), " | "))
      else
        var message := ChoiceMessage(json);
        if message.None? then Err("Invalid response format from OpenRouter: " + reply.text)
        else Ok(OpenRouterResponse(MessageContent(message.value), ToolCallsOf(message.value, parse, freshId),
                                   FinishReason(json), ReplyUsage(json)))
  }

  /** A response comes exactly from a parsed, successful reply with no
      `error` and a first choice; an `error` object in a successful reply
      is reported as such; usage is present exactly when the reply has it,
      and every tool call handed on has an id. */
  lemma ReplyOutcomeMeaning(reply: Reply, parse: string -> Option<Json>, freshId: nat -> string, i: nat)
    ensures var r := ReplyOutcome(reply, parse, freshId);
      r.Ok? <==> reply.parsed.Ok? && IsSuccess(reply.status) && Get(reply.parsed.value, "error").None?
                 && ChoiceMessage(reply.parsed.value).Some?
    ensures var r := ReplyOutcome(reply, parse, freshId);
      reply.parsed.Ok? && IsSuccess(reply.status) && Get(reply.parsed.value, "error").Some? ==>
        StartsWith(r.msg, ERROR_PREFIX + BODY_ERROR)
    ensures var r := ReplyOutcome(reply, parse, freshId);
      r.Ok? ==>
        (r.value.usage.Some? <==> Get(reply.parsed.value, "usage").Some?)
        && (r.value.toolCalls.Some? && i < |r.value.toolCalls.value| ==> r.value.toolCalls.value[i].toolId != "")
  {
    var r := ReplyOutcome(reply, parse, freshId);
    if reply.parsed.Ok? && IsSuccess(reply.status) && Get(reply.parsed.value, "error").Some? {
      var d := BodyErrorDetails(Get(reply.parsed.value, "error").value);
      var p := ERROR_PREFIX + BODY_ERROR;
      if |d| == 1 {
        assert r.msg == p;
      } else {
        assert r.msg == p + " | " + Join(d[1..], " | ");
      }
      assert r.msg[..|p|] == p;
    }
    if r.Ok? && r.value.toolCalls.Some? && i < |r.value.toolCalls.value| {
      var message := ChoiceMessage(reply.parsed.value).value;
      var items := Get(message, "tool_calls").value.items;
      FillIdsMeaning(ExtractedCalls(items, parse), freshId, i);
    }
  }

  // ---------------------------------------------------------------------
  // Message conversion
  // ---------------------------------------------------------------------

  /** A message as OpenRouter receives it. */
  datatype OpenRouterMessage = OpenRouterMessage(role: string, content: Json, toolCallId: Option<string>,
                                                 name: Option<string>, toolCalls: Option<Json>)

  /** The content of a message: a cached one is a one-part array whose text
      part carries the cache marker. */
  function WireContent(m: Message): Json {
    if m.cached then JArray([JObject([("type", JString("text")), ("text", JString(m.content)), ("cache_control", CACHE_CONTROL)])])
    else JString(m.content)
  }

  /** A user message framed as `<fnr>…</fnr>`. */
  predicate IsLegacyFrame(content: string) {
    StartsWith(content, "<fnr>") && EndsWith(content, "</fnr>")
  }

  /** The framed body: every leading `<fnr>` and trailing `</fnr>` removed,
      then trimmed. */
  function LegacyBody(content: string): string {
    Trim(TrimEndPattern(TrimStartPattern(content, "<fnr>"), "</fnr>"))
  }

  /** The tool responses of a legacy message, when its body is a JSON
      array. */
  function LegacyResponses(m: Message, parse: string -> Option<Json>): Option<seq<Json>> {
    if m.role == "user" && IsLegacyFrame(m.content) then
      var parsed := parse(LegacyBody(m.content));
      if parsed.Some? && parsed.value.JArray? then Some(parsed.value.items) else None
    else None
  }

  /** One tool response of a legacy message; missing fields read as empty. */
  function LegacyToolMessage(response: Json): OpenRouterMessage {
    OpenRouterMessage("tool", JString(GetStr(response, "content").GetOr("")),
                      Some(GetStr(response, "tool_call_id").GetOr("")), Some(GetStr(response, "name").GetOr("")), None)
  }

  const LEGACY_CALL_ID := "legacy_tool_call"
  const LEGACY_TOOL := "legacy_tool"

  /** A legacy message with its parsed responses: one tool message per
      response when the first is a tool's, else the single legacy tool
      message carrying the body. */
  function ExpandLegacy(body: string, items: seq<Json>): seq<OpenRouterMessage> {
    if items != [] && GetStr(items[0], "role") == Some("tool") then
      seq(|items|, i requires 0 <= i < |items| => LegacyToolMessage(items[i]))
    else
      [OpenRouterMessage("tool", JString(body), Some(LEGACY_CALL_ID), Some(LEGACY_TOOL), None)]
  }

  /** What one message becomes. Tool messages keep their call id and name
      (empty when missing); assistant messages keep their tool calls; a
      legacy message whose first response is a tool's becomes one tool
      message per response, and any other legacy message a single legacy
      tool message; everything else keeps its role with no tool fields. */
  function ConvertOne(m: Message, parse: string -> Option<Json>): seq<OpenRouterMessage> {
    if m.role == "tool" then
      [OpenRouterMessage("tool", WireContent(m), Some(m.toolCallId.GetOr("")), Some(m.name.GetOr("")), None)]
    else if m.role == "assistant" then
      [OpenRouterMessage("assistant", WireContent(m), None, None, m.toolCalls)]
    else if LegacyResponses(m, parse).Some? then ExpandLegacy(LegacyBody(m.content), LegacyResponses(m, parse).value)
    else [OpenRouterMessage(m.role, WireContent(m), None, None, None)]
  }

  /** Whether a message goes out with its own content (and so counts as
      cached when marked). */
  predicate KeepsContent(m: Message, parse: string -> Option<Json>) {
    m.role == "tool" || m.role == "assistant" || LegacyResponses(m, parse).None?
  }

  function Converted(messages: seq<Message>, parse: string -> Option<Json>): seq<OpenRouterMessage> {
    if messages == [] then []
    else Converted(messages[..|messages| - 1], parse) + ConvertOne(messages[|messages| - 1], parse)
  }

  function CachedCount(messages: seq<Message>, parse: string -> Option<Json>): nat {
    if messages == [] then 0
    else
      var m := messages[|messages| - 1];
      CachedCount(messages[..|messages| - 1], parse) + (if m.cached && KeepsContent(m, parse) then 1 else 0)
  }

  /** `convert_messages` over the transcript as the cache manager marked
      it: the converted messages and the number sent with a cache marker. */
  method ConvertMessages(marked: seq<Message>, parse: string -> Option<Json>)
    returns (result: seq<OpenRouterMessage>, cachedCount: nat)
    ensures result == Converted(marked, parse)
    ensures cachedCount == CachedCount(marked, parse)
  {
    result := [];
    cachedCount := 0;
    var i := 0;
    while i < |marked|
      invariant 0 <= i <= |marked|
      invariant result == Converted(marked[..i], parse)
      invariant cachedCount == CachedCount(marked[..i], parse)
    {
      assert marked[..i + 1][..i] == marked[..i];
      var msg := marked[i];
      if KeepsContent(msg, parse) && msg.cached {
        cachedCount := cachedCount + 1;
      }
      result := result + ConvertOne(msg, parse);
      i := i + 1;
    }
    assert marked[..i] == marked;
  }

  /** A message that keeps its content becomes exactly one wire message
      with its role and content (a cached one as a single marked text
      part); tool fields go only on tool messages, defaulting to empty, and
      tool calls only on assistant messages, unchanged. */
  lemma ConvertOneMeaning(m: Message, parse: string -> Option<Json>)
    requires KeepsContent(m, parse)
    ensures var c := ConvertOne(m, parse);
      |c| == 1 && c[0].role == m.role && c[0].content == WireContent(m)
      && c[0].toolCallId == (if m.role == "tool" then Some(m.toolCallId.GetOr("")) else None)
      && c[0].name == (if m.role == "tool" then Some(m.name.GetOr("")) else None)
      && c[0].toolCalls == (if m.role == "assistant" then m.toolCalls else None)
    ensures m.cached ==>
      WireContent(m).JArray? && |WireContent(m).items| == 1
      && Get(WireContent(m).items[0], "cache_control") == Some(CACHE_CONTROL)
      && Get(WireContent(m).items[0], "text") == Some(JString(m.content))
    ensures !m.cached ==> WireContent(m) == JString(m.content)
  {
    if m.cached {
      var part := WireContent(m).items[0];
      assert part.fields[0].0[0] != "cache_control"[0] && part.fields[1].0[0] != "cache_control"[0];
      LookupAt(part.fields, "cache_control", 2);
      assert part.fields[0].0[1] != "text"[1];
      LookupAt(part.fields, "text", 1);
    }
  }

  /** A legacy message whose first response is a tool's expands to one tool
      message per response, in order, each with the response's fields or
      empty ones; any other legacy message becomes the single legacy tool
      message. */
  lemma LegacyExpansion(body: string, items: seq<Json>, i: nat)
    ensures items != [] && GetStr(items[0], "role") == Some("tool") ==>
      |ExpandLegacy(body, items)| == |items|
      && (i < |items| ==>
            ExpandLegacy(body, items)[i].role == "tool"
            && ExpandLegacy(body, items)[i].toolCallId == Some(GetStr(items[i], "tool_call_id").GetOr(""))
            && ExpandLegacy(body, items)[i].content == JString(GetStr(items[i], "content").GetOr("")))
    ensures !(items != [] && GetStr(items[0], "role") == Some("tool")) ==>
      ExpandLegacy(body, items)
      == [OpenRouterMessage("tool", JString(body), Some(LEGACY_CALL_ID), Some(LEGACY_TOOL), None)]
  {
  }

  /** Without legacy messages the conversion is one to one and in order. */
  lemma {:induction false} ConvertedOneToOne(messages: seq<Message>, parse: string -> Option<Json>, i: nat)
    requires forall k :: 0 <= k < |messages| ==> KeepsContent(messages[k], parse)
    ensures |Converted(messages, parse)| == |messages|
    ensures i < |messages| ==> Converted(messages, parse)[i] == ConvertOne(messages[i], parse)[0]
  {
    if messages != [] {
      var init := messages[..|messages| - 1];
      assert forall k :: 0 <= k < |init| ==> init[k] == messages[k];
      ConvertedOneToOne(init, parse, i);
      var last := messages[|messages| - 1];
      ConvertOneMeaning(last, parse);
      assert Converted(messages, parse) == Converted(init, parse) + ConvertOne(last, parse);
    }
  }

  // ---------------------------------------------------------------------
  // The request
  // ---------------------------------------------------------------------

  /** `chat_completion`, past the network: without a key nothing is sent;
      otherwise the marked transcript is converted, the tools are built
      and the reply is read as `ReplyOutcome` says. */
  method ChatCompletion(marked: seq<Message>, model: string, configKey: Option<string>, envKey: Option<string>,
                        mcpEnabled: bool, functions: seq<McpFunction>, reply: Reply,
                        parse: string -> Option<Json>, freshId: nat -> string)
    returns (r: Result<OpenRouterResponse>, sent: seq<OpenRouterMessage>, tools: Option<seq<Json>>)
    ensures configKey.None? && envKey.None? ==> r == Err(KEY_MISSING) && sent == [] && tools.None?
    ensures configKey.Some? || envKey.Some? ==>
      r == ReplyOutcome(reply, parse, freshId) && sent == Converted(marked, parse)
      && tools == RequestTools(mcpEnabled, functions, model)
  {
    var key := GetApiKey(configKey, envKey);
    if key.Err? {
      return Err(key.msg), [], None;
    }
    var cachedCount;
    sent, cachedCount := ConvertMessages(marked, parse);
    tools := BuildTools(mcpEnabled, functions, model);
    if reply.parsed.Err? {
      return Err("Failed to parse response JSON: " + reply.parsed.msg + ". Response: " + reply.text), sent, tools;
    }
    var json := reply.parsed.value;
    var error := Get(json, "error");
    if !IsSuccess(reply.status) {
      var details := BuildErrorDetails(reply.statusLine, error, ERROR_FIELDS, reply.text);
      return Err(ERROR_PREFIX + Join(details, " | ")), sent, tools;
    }
    if error.Some? {
      var details := [BODY_ERROR];
      var msg := GetStr(error.value, "message");
      if msg.Some? {
        details := details + ["Message: " + msg.value];
      }
      return Err(ERROR_PREFIX + Join(details, " | ")), sent, tools;
    }
    var message := ChoiceMessage(json);
    if message.None? {
      return Err("Invalid response format from OpenRouter: " + reply.text), sent, tools;
    }
    var calls := ExtractToolCalls(message.value, parse, freshId);
    r := Ok(OpenRouterResponse(MessageContent(message.value), calls, FinishReason(json), ReplyUsage(json)));
  }
}
