/** The DeepSeek provider: which models it serves, its capabilities and
    context size, the pricing-table lookup, the conversion of the
    transcript to its wire format, and how a reply becomes a response or
    an error. The HTTP exchange itself is an input (`Reply`); prices are
    exact reals rather than `f64`. */
module DeepSeek {
  import opened Wrappers
  import opened Strings
  import opened Json
  import opened Messages
  import opened ChatSessions
  import opened ProviderWire
  import opened HttpStatus

  const API_KEY_ENV := "DEEPSEEK_API_KEY"
  const KEY_MISSING := "DeepSeek API key not found in environment variable: " + API_KEY_ENV
  const CANCELLED_BEFORE_START := "Request cancelled before starting"
  const CONTEXT_WINDOW: nat := 128000
  const FALLBACK_CONTEXT: nat := 8192

  /** `supports_model`: the chat and coder model families. */
  predicate SupportsModel(model: string) {
    StartsWith(model, "deepseek-chat") || StartsWith(model, "deepseek-coder")
  }

  /** The cases the provider's own tests name. */
  lemma SupportsModelExamples()
    ensures SupportsModel("deepseek-chat") && SupportsModel("deepseek-coder") && !SupportsModel("gpt-4")
    ensures SupportsModel("deepseek-chat-v2") && !SupportsModel("my-deepseek-chat")
  {
    assert "my-deepseek-chat"[..13][0] != "deepseek-chat"[0];
    assert "my-deepseek-chat"[..14][0] != "deepseek-coder"[0];
  }

  /** `supports_caching`, `supports_vision` and `supports_temperature`:
      neither caching nor images, and every model takes a temperature. */
  predicate SupportsCaching(model: string) { false }
  predicate SupportsVision(model: string) { false }
  predicate SupportsTemperature(model: string) { true }

  /** `get_max_input_tokens` */
  function MaxInputTokens(model: string): nat {
    if Contains(model, "deepseek") then CONTEXT_WINDOW else FALLBACK_CONTEXT
  }

  /** Every served model has the 128K window and is sent a temperature but
      no cache markers or images. */
  lemma ServedModelCapabilities(model: string)
    requires SupportsModel(model)
    ensures MaxInputTokens(model) == CONTEXT_WINDOW
    ensures SupportsTemperature(model) && !SupportsCaching(model) && !SupportsVision(model)
  {
    assert model[..8] == "deepseek";
    assert OccursAt(model, "deepseek", 0);
  }

  /** A pricing-table row: a model name and its prices per million input
      and output tokens, in US dollars. */
  datatype Pricing = Pricing(model: string, inputPerMillion: real, outputPerMillion: real)

  const PRICING := [Pricing("deepseek-chat", 0.20, 0.40), Pricing("deepseek-coder", 0.20, 0.40)]

  /** The first row whose name occurs in the model. */
  function FirstPricing(table: seq<Pricing>, model: string): (r: Option<nat>)
    ensures r.Some? ==> r.value < |table| && Contains(model, table[r.value].model)
                        && forall j :: 0 <= j < r.value ==> !Contains(model, table[j].model)
    ensures r.None? <==> forall j :: 0 <= j < |table| ==> !Contains(model, table[j].model)
  {
    if table == [] then None
    else if Contains(model, table[0].model) then Some(0)
    else
      var r := FirstPricing(table[1..], model);
      assert forall j :: 1 <= j < |table| ==> table[j] == table[1..][j - 1];
      if r.Some? then Some(r.value + 1) else None
  }

  /** `calculate_cost`: the tokens priced by the first matching row; no row,
      no cost. */
  function CalculateCost(model: string, promptTokens: nat, completionTokens: nat): Option<real> {
    var row := FirstPricing(PRICING, model);
    if row.None? then None
    else
      var p := PRICING[row.value];
      Some((promptTokens as real / 1000000.0) * p.inputPerMillion
           + (completionTokens as real / 1000000.0) * p.outputPerMillion)
  }

  /** Both rows carry the same prices, so every served model costs 0.20
      dollars per million prompt tokens and 0.40 per million completion
      tokens; a model that names no row has no cost. */
  lemma CalculateCostMeaning(model: string, promptTokens: nat, completionTokens: nat)
    ensures SupportsModel(model) ==>
      CalculateCost(model, promptTokens, completionTokens)
      == Some((promptTokens as real * 0.20 + completionTokens as real * 0.40) / 1000000.0)
    ensures !Contains(model, "deepseek-chat") && !Contains(model, "deepseek-coder") ==>
      CalculateCost(model, promptTokens, completionTokens).None?
  {
    if StartsWith(model, "deepseek-chat") {
      StartsWithContains(model, "deepseek-chat");
    } else if StartsWith(model, "deepseek-coder") {
      StartsWithContains(model, "deepseek-coder");
    }
    var row := FirstPricing(PRICING, model);
    assert PRICING[0].model == "deepseek-chat" && PRICING[1].model == "deepseek-coder";
    assert SupportsModel(model) ==> row.Some?;
    if row.Some? {
      assert PRICING[row.value].inputPerMillion == 0.20 && PRICING[row.value].outputPerMillion == 0.40;
      var x, y := promptTokens as real, completionTokens as real;
      assert (x / 1000000.0) * 0.20 + (y / 1000000.0) * 0.40 == (x * 0.20 + y * 0.40) / 1000000.0;
    }
  }

  /** The figure the provider's test checks: a thousand tokens each way on
      the chat model cost 0.0006 dollars. */
  lemma CalculateCostExample()
    ensures CalculateCost("deepseek-chat", 1000, 1000) == Some(0.0006)
  {
    CalculateCostMeaning("deepseek-chat", 1000, 1000);
  }

  /** A message as DeepSeek receives it: role and content only. */
  datatype DeepSeekMessage = DeepSeekMessage(role: string, content: Json)

  /** `convert_messages`: one wire message per transcript message, in order,
      with its role and its content as a JSON string; tool fields and cache
      markers are dropped. */
  method ConvertMessages(messages: seq<Message>) returns (r: seq<DeepSeekMessage>)
    ensures |r| == |messages|
    ensures forall i :: 0 <= i < |messages| ==> r[i] == DeepSeekMessage(messages[i].role, JString(messages[i].content))
  {
    r := [];
    for i := 0 to |messages|
      invariant |r| == i
      invariant forall k :: 0 <= k < i ==> r[k] == DeepSeekMessage(messages[k].role, JString(messages[k].content))
    {
      r := r + [DeepSeekMessage(messages[i].role, JString(messages[i].content))];
    }
  }

  /** The `error` fields reported for a failed request. */
  const ERROR_FIELDS := [DetailField("message", "Message: "), DetailField("code", "Code: ")]

  /** What came back over HTTP: the status code, its display form, the body
      and the body parsed as JSON (or the parser's complaint). */
  datatype Reply = Reply(status: nat, statusLine: string, text: string, parsed: Result<Json>)

  /** The usage of a reply: counts default to 0, no token is cached, and the
      measured request time is recorded. */
  function ReplyUsage(reply: Json, apiTimeMs: nat): Option<TokenUsage> {
    var usage := Get(reply, "usage");
    if usage.None? then None
    else Some(TokenUsage(UsageCount(usage.value, "prompt_tokens"), UsageCount(usage.value, "completion_tokens"), 0,
                         Some(apiTimeMs)))
  }

  /** How a reply becomes a response: an unparsable body, a failed status
      and a reply without `choices[0].message` are errors; otherwise the
      text, the finish reason and the usage, never with tool calls. */
  function ReplyOutcome(reply: Reply, apiTimeMs: nat): Result<ProviderResponse> {
    if reply.parsed.Err? then
      Err("Failed to parse response JSON: " + reply.parsed.msg + ". Response: " + reply.text)
    else
      var json := reply.parsed.value;
      if !IsSuccess(reply.status) then
        Err("DeepSeek API error: " + Join(ErrorDetails(reply.statusLine, Get(json, "error"), ERROR_FIELDS, reply.text), " | "))
      else
        var message := ChoiceMessage(json);
        if message.None? then Err("Invalid response format from DeepSeek: " + reply.text)
        else Ok(ProviderResponse(MessageContent(message.value), None, FinishReason(json), ReplyUsage(json, apiTimeMs)))
  }

  /** A response comes only from a successful, well-formed reply; it never
      carries tool calls, and its usage, present exactly when the reply has
      `usage`, counts no cached tokens and records the request time. A failed
      status reports the status first. */
  lemma ReplyOutcomeMeaning(reply: Reply, apiTimeMs: nat)
    ensures var r := ReplyOutcome(reply, apiTimeMs);
      r.Ok? <==> reply.parsed.Ok? && IsSuccess(reply.status) && ChoiceMessage(reply.parsed.value).Some?
    ensures var r := ReplyOutcome(reply, apiTimeMs);
      r.Ok? ==>
        (r.value.toolCalls.None?
         && (r.value.usage.Some? <==> Get(reply.parsed.value, "usage").Some?)
         && (r.value.usage.Some? ==>
               r.value.usage.value.cachedTokens == 0 && r.value.usage.value.requestTimeMs == Some(apiTimeMs)))
    ensures var r := ReplyOutcome(reply, apiTimeMs);
      reply.parsed.Ok? && !IsSuccess(reply.status) ==>
        StartsWith(r.msg, "DeepSeek API error: HTTP " + reply.statusLine)
  {
    var r := ReplyOutcome(reply, apiTimeMs);
    if reply.parsed.Ok? && !IsSuccess(reply.status) {
      var d := ErrorDetails(reply.statusLine, Get(reply.parsed.value, "error"), ERROR_FIELDS, reply.text);
      ErrorDetailsMeaning(reply.statusLine, Get(reply.parsed.value, "error"), ERROR_FIELDS, reply.text);
      JoinHead(d, " | ");
      assert r.msg == "DeepSeek API error: " + Join(d, " | ");
      var p := "DeepSeek API error: HTTP " + reply.statusLine;
      assert r.msg[..|p|] == p;
    }
  }

  /** A join of several parts begins with the first part and the separator. */
  lemma JoinHead(parts: seq<string>, sep: string)
    requires |parts| >= 2
    ensures Join(parts, sep) == parts[0] + sep + Join(parts[1..], sep)
  {
  }

  /** `chat_completion`, past the network: cancellation and a missing key
      stop it before the request; otherwise the transcript is converted and
      the reply is read as `ReplyOutcome` says. */
  method ChatCompletion(messages: seq<Message>, cancelled: bool, envKey: Option<string>, reply: Reply, apiTimeMs: nat)
    returns (r: Result<ProviderResponse>, sent: seq<DeepSeekMessage>)
    ensures cancelled ==> r == Err(CANCELLED_BEFORE_START) && sent == []
    ensures !cancelled && envKey.None? ==> r == Err(KEY_MISSING) && sent == []
    ensures !cancelled && envKey.Some? ==>
      r == ReplyOutcome(reply, apiTimeMs) && |sent| == |messages|
      && forall i :: 0 <= i < |messages| ==> sent[i] == DeepSeekMessage(messages[i].role, JString(messages[i].content))
  {
    sent := [];
    if cancelled {
      return Err(CANCELLED_BEFORE_START), [];
    }
    if envKey.None? {
      return Err(KEY_MISSING), [];
    }
    sent := ConvertMessages(messages);
    if reply.parsed.Err? {
      return Err("Failed to parse response JSON: " + reply.parsed.msg + ". Response: " + reply.text), sent;
    }
    var json := reply.parsed.value;
    if !IsSuccess(reply.status) {
      var details := BuildErrorDetails(reply.statusLine, Get(json, "error"), ERROR_FIELDS, reply.text);
      return Err("DeepSeek API error: " + Join(details, " | ")), sent;
    }
    var message := ChoiceMessage(json);
    if message.None? {
      return Err("Invalid response format from DeepSeek: " + reply.text), sent;
    }
    var content := MessageContent(message.value);
    r := Ok(ProviderResponse(content, None, FinishReason(json), ReplyUsage(json, apiTimeMs)));
  }
}
