/** Running the tool calls of one assistant turn, for the main session and
    for layers: the permission filter, the per-call result (success, error
    result, or nothing for output the user declined), the time sum, the
    repair of the assistant message's `tool_calls` afterwards, and the
    console preview of a tool's output. The calls' outcomes, the error
    tracker's verdicts and cancellation are inputs. */
module ToolExecution {
  import opened Wrappers
  import opened Strings
  import opened Json
  import opened Seqs
  import opened Messages
  import opened ConfigMcp
  import opened McpCore
  import opened ChatSessions

  /** `ToolExecutionContext`: the main session, or a layer with its MCP
      settings. */
  datatype ExecutionContext = MainSession | Layer(mcp: RoleMcpConfig)

  /** `ToolExecutionContext::is_tool_allowed` */
  predicate IsToolAllowed(ctx: ExecutionContext, toolName: string) {
    match ctx
    case MainSession => true
    case Layer(mcp) => mcp.allowedTools == [] || toolName in mcp.allowedTools
  }

  /** The main session admits every tool; for a layer that has servers the
      filter agrees with the gate `execute_layer_tool_call` applies. */
  lemma IsToolAllowedAgreesWithGate(ctx: ExecutionContext, call: McpToolCall)
    ensures ctx.MainSession? ==> IsToolAllowed(ctx, call.toolName)
    ensures ctx.Layer? && ctx.mcp.serverRefs != [] ==>
      (IsToolAllowed(ctx, call.toolName) <==> LayerGate(call, ctx.mcp).Ok?)
  {
    if ctx.Layer? {
      LayerGateMeaning(call, ctx.mcp, "");
    }
  }

  /** The filter at the head of `execute_tools_parallel_unified`. */
  function AllowedCalls(calls: seq<McpToolCall>, ctx: ExecutionContext): seq<McpToolCall> {
    Filter(calls, (c: McpToolCall) => IsToolAllowed(ctx, c.toolName))
  }

  /** Disallowed calls are dropped and nothing else: in the main session the
      calls pass unchanged. */
  lemma AllowedCallsMeaning(calls: seq<McpToolCall>, ctx: ExecutionContext, c: McpToolCall)
    ensures c in AllowedCalls(calls, ctx) <==> c in calls && IsToolAllowed(ctx, c.toolName)
    ensures ctx.MainSession? ==> AllowedCalls(calls, ctx) == calls
  {
    FilterMembers(calls, (c: McpToolCall) => IsToolAllowed(ctx, c.toolName), c);
    if ctx.MainSession? {
      FilterAll(calls, (c: McpToolCall) => IsToolAllowed(ctx, c.toolName));
    }
  }

  /** How one call's task ended: the execution's result and its time, an
      execution error, or a failure of the task itself. */
  datatype CallOutcome =
    | Completed(result: McpToolResult, timeMs: nat)
    | Failed(error: string)
    | TaskFailed(error: string)

  /** The error tracker's answer after recording a failure: whether a loop
      was detected, the tool's error count and the configured maximum. */
  datatype TrackerVerdict = TrackerVerdict(loopDetected: bool, errorCount: nat, maxErrors: nat)

  const DECLINED_MARKER := "LARGE_OUTPUT_DECLINED_BY_USER"

  /** An error that reports output the user declined to keep. */
  predicate IsDeclined(error: string) {
    Contains(error, DECLINED_MARKER)
  }

  const LOOP_ADVICE := ". Please try a completely different approach or ask the user for guidance."
  const LOOP_SUGGESTION := "Try a different tool or approach, or ask user for clarification"

  function LoopErrorText(toolName: string, maxErrors: nat, error: string): string {
    "LOOP DETECTED: Tool '" + toolName + "' failed " + NatToString(maxErrors) + " consecutive times. Last error: "
    + error + LOOP_ADVICE
  }

  /** The error result recorded for a failed call (fields in serde_json's
      sorted key order); `task` tells a task failure from an execution
      error, and the tracker is consulted only in the main session. */
  function FailureResult(ctx: ExecutionContext, call: McpToolCall, error: string, task: bool,
                         verdict: TrackerVerdict): McpToolResult {
    var name := JString(call.toolName);
    var body :=
      if task then
        JObject([("error", JString("Internal task error: " + error)), ("error_type", JString("task_failure")),
                 ("tool_name", name)])
      else if ctx.Layer? then
        JObject([("error", JString("Tool execution failed: " + error)), ("tool_name", name)])
      else if verdict.loopDetected then
        JObject([("consecutive_failures", JNum(verdict.maxErrors)),
                 ("error", JString(LoopErrorText(call.toolName, verdict.maxErrors, error))),
                 ("loop_detected", JBool(true)), ("suggestion", JString(LOOP_SUGGESTION)), ("tool_name", name)])
      else
        JObject([("attempt", JNum(verdict.errorCount)), ("error", JString("Tool execution failed: " + error)),
                 ("max_attempts", JNum(verdict.maxErrors)), ("tool_name", name)]);
    McpToolResult(call.toolName, body, call.toolId)
  }

  /** A body whose `error` field is a string, at position `e`, and whose
      last field is `tool_name`, reads back both. */
  lemma NamedErrorBody(fields: seq<(string, Json)>, e: nat, name: string)
    requires e < |fields| - 1 && fields[e].0 == "error" && fields[e].1.JString?
    requires fields[|fields| - 1] == ("tool_name", JString(name))
    requires forall j :: 0 <= j < e ==> fields[j].0 != "error"
    requires forall j :: 0 <= j < |fields| - 1 ==> fields[j].0 != "tool_name"
    ensures Get(JObject(fields), "tool_name") == Some(JString(name))
    ensures GetStr(JObject(fields), "error").Some?
  {
    LookupAt(fields, "error", e);
    LookupAt(fields, "tool_name", |fields| - 1);
  }

  /** A failure result answers the failed call: its tool name and id, and a
      body naming the tool and carrying an error text. */
  lemma FailureResultAnswersCall(ctx: ExecutionContext, call: McpToolCall, error: string, task: bool,
                                 verdict: TrackerVerdict)
    ensures var r := FailureResult(ctx, call, error, task, verdict);
      r.toolName == call.toolName && r.toolId == call.toolId
      && Get(r.result, "tool_name") == Some(JString(call.toolName))
      && GetStr(r.result, "error").Some?
  {
    var fields := FailureResult(ctx, call, error, task, verdict).result.fields;
    assert "tool_name"[0] != "error"[0] && "tool_name"[0] != "error_type"[0] && "tool_name"[0] != "attempt"[0];
    assert "tool_name"[0] != "max_attempts"[0] && "tool_name"[0] != "consecutive_failures"[0];
    assert "tool_name"[0] != "loop_detected"[0] && "tool_name"[0] != "suggestion"[0];
    assert "error"[0] != "attempt"[0] && "error"[0] != "consecutive_failures"[0];
    if task || ctx.Layer? {
      NamedErrorBody(fields, 0, call.toolName);
    } else {
      NamedErrorBody(fields, 1, call.toolName);
    }
  }

  /** What one call contributes to the results: nothing for declined
      output, otherwise its result or its error result. */
  function ResultFor(ctx: ExecutionContext, call: McpToolCall, outcome: CallOutcome,
                     verdict: TrackerVerdict): Option<McpToolResult> {
    if outcome.Completed? then Some(outcome.result)
    else if IsDeclinedOutcome(outcome) then None
    else Some(FailureResult(ctx, call, outcome.error, outcome.TaskFailed?, verdict))
  }

  lemma DeclinedIffNoResult(ctx: ExecutionContext, call: McpToolCall, outcome: CallOutcome, verdict: TrackerVerdict)
    ensures ResultFor(ctx, call, outcome, verdict).None? <==> IsDeclinedOutcome(outcome)
  {
  }

  /** A failure caused by the user declining the output. */
  predicate IsDeclinedOutcome(outcome: CallOutcome) {
    !outcome.Completed? && IsDeclined(outcome.error)
  }

  function OptionSeq<T>(o: Option<T>): seq<T> {
    if o.Some? then [o.value] else []
  }

  /** The results in call order; `verdicts[i]` is the verdict for call i. */
  function Results(ctx: ExecutionContext, calls: seq<McpToolCall>, outcomes: seq<CallOutcome>,
                   verdicts: seq<TrackerVerdict>): seq<McpToolResult>
    requires |outcomes| == |calls| == |verdicts|
  {
    ResultsUpTo(ctx, calls, outcomes, verdicts, |calls|)
  }

  /** The results of the first `n` calls. */
  function ResultsUpTo(ctx: ExecutionContext, calls: seq<McpToolCall>, outcomes: seq<CallOutcome>,
                       verdicts: seq<TrackerVerdict>, n: nat): seq<McpToolResult>
    requires |outcomes| == |calls| == |verdicts| && n <= |calls|
  {
    if n == 0 then []
    else ResultsUpTo(ctx, calls, outcomes, verdicts, n - 1)
         + OptionSeq(ResultFor(ctx, calls[n - 1], outcomes[n - 1], verdicts[n - 1]))
  }

  /** The ids of the calls whose output the user declined, in order. */
  function DeclinedIds(calls: seq<McpToolCall>, outcomes: seq<CallOutcome>): seq<string>
    requires |outcomes| == |calls|
  {
    DeclinedIdsUpTo(calls, outcomes, |calls|)
  }

  function DeclinedIdsUpTo(calls: seq<McpToolCall>, outcomes: seq<CallOutcome>, n: nat): seq<string>
    requires |outcomes| == |calls| && n <= |calls|
  {
    if n == 0 then []
    else DeclinedIdsUpTo(calls, outcomes, n - 1)
         + (if IsDeclinedOutcome(outcomes[n - 1]) then [calls[n - 1].toolId] else [])
  }

  /** One more call: its result (if any), its id (if declined) and its time
      are appended to the first `n` calls' accounts. */
  lemma UpToStep(ctx: ExecutionContext, calls: seq<McpToolCall>, outcomes: seq<CallOutcome>,
                 verdicts: seq<TrackerVerdict>, n: nat)
    requires |outcomes| == |calls| == |verdicts| && n < |calls|
    ensures var r := ResultFor(ctx, calls[n], outcomes[n], verdicts[n]);
      ResultsUpTo(ctx, calls, outcomes, verdicts, n + 1)
        == ResultsUpTo(ctx, calls, outcomes, verdicts, n) + (if r.Some? then [r.value] else [])
    ensures DeclinedIdsUpTo(calls, outcomes, n + 1)
        == DeclinedIdsUpTo(calls, outcomes, n) + (if IsDeclinedOutcome(outcomes[n]) then [calls[n].toolId] else [])
    ensures TotalTimeUpTo(outcomes, n + 1)
        == TotalTimeUpTo(outcomes, n) + (if outcomes[n].Completed? then outcomes[n].timeMs else 0)
  {
  }

  /** The sum of the completed calls' times. */
  function TotalTime(outcomes: seq<CallOutcome>): nat {
    TotalTimeUpTo(outcomes, |outcomes|)
  }

  function TotalTimeUpTo(outcomes: seq<CallOutcome>, n: nat): nat
    requires n <= |outcomes|
  {
    if n == 0 then 0
    else TotalTimeUpTo(outcomes, n - 1) + (if outcomes[n - 1].Completed? then outcomes[n - 1].timeMs else 0)
  }

  /** Every call yields exactly one result unless its output was declined;
      when every call completed, the results are the calls' own results in
      call order. */
  lemma ResultsAccount(ctx: ExecutionContext, calls: seq<McpToolCall>, outcomes: seq<CallOutcome>,
                       verdicts: seq<TrackerVerdict>)
    requires |outcomes| == |calls| == |verdicts|
    ensures |Results(ctx, calls, outcomes, verdicts)| + |DeclinedIds(calls, outcomes)| == |calls|
    ensures (forall i :: 0 <= i < |outcomes| ==> outcomes[i].Completed?) ==>
      Results(ctx, calls, outcomes, verdicts) == seq(|outcomes|, i requires 0 <= i < |outcomes| => outcomes[i].result)
  {
    ResultsAccountUpTo(ctx, calls, outcomes, verdicts, |calls|);
  }

  lemma {:induction false} ResultsAccountUpTo(ctx: ExecutionContext, calls: seq<McpToolCall>, outcomes: seq<CallOutcome>,
                                              verdicts: seq<TrackerVerdict>, n: nat)
    requires |outcomes| == |calls| == |verdicts| && n <= |calls|
    ensures |ResultsUpTo(ctx, calls, outcomes, verdicts, n)| + |DeclinedIdsUpTo(calls, outcomes, n)| == n
    ensures (forall i :: 0 <= i < n ==> outcomes[i].Completed?) ==>
      ResultsUpTo(ctx, calls, outcomes, verdicts, n) == seq(n, i requires 0 <= i < n => outcomes[i].result)
  {
    if n > 0 {
      ResultsAccountUpTo(ctx, calls, outcomes, verdicts, n - 1);
    }
  }

  /** The total time is the sum over the completed calls: failures add
      nothing, and every completed call's time is included. */
  lemma TotalTimeMeaning(outcomes: seq<CallOutcome>, i: nat)
    ensures (forall k :: 0 <= k < |outcomes| ==> !outcomes[k].Completed?) ==> TotalTime(outcomes) == 0
    ensures i < |outcomes| && outcomes[i].Completed? ==> TotalTime(outcomes) >= outcomes[i].timeMs
  {
    TotalTimeUpToMeaning(outcomes, i, |outcomes|);
  }

  lemma {:induction false} TotalTimeUpToMeaning(outcomes: seq<CallOutcome>, i: nat, n: nat)
    requires n <= |outcomes|
    ensures (forall k :: 0 <= k < n ==> !outcomes[k].Completed?) ==> TotalTimeUpTo(outcomes, n) == 0
    ensures i < n && outcomes[i].Completed? ==> TotalTimeUpTo(outcomes, n) >= outcomes[i].timeMs
  {
    if n > 0 {
      TotalTimeUpToMeaning(outcomes, i, n - 1);
    }
  }

  /** The `id` of a tool call entry in an assistant message. */
  function CallId(tc: Json): Option<string> {
    GetStr(tc, "id")
  }

  /** The `retain` of `handle_declined_output_internal`: the entries whose
      id is not `toolId`. */
  function WithoutId(items: seq<Json>, toolId: string): seq<Json> {
    if items == [] then []
    else (if CallId(items[0]) != Some(toolId) then [items[0]] else []) + WithoutId(items[1..], toolId)
  }

  lemma {:induction false} WithoutIdMembers(items: seq<Json>, toolId: string, tc: Json)
    ensures tc in WithoutId(items, toolId) <==> tc in items && CallId(tc) != Some(toolId)
  {
    if items != [] {
      WithoutIdMembers(items[1..], toolId, tc);
      assert items == [items[0]] + items[1..];
    }
  }

  /** `handle_declined_output_internal` on the transcript: when the last
      message is the assistant's and its `tool_calls` is an array, the
      entries with the declined id are removed, and an emptied list is
      removed altogether. */
  function HandleDeclined(messages: seq<Message>, toolId: string): seq<Message> {
    if messages == [] then messages
    else
      var last := messages[|messages| - 1];
      if last.role == "assistant" && last.toolCalls.Some? && last.toolCalls.value.JArray? then
        var kept := WithoutId(last.toolCalls.value.items, toolId);
        messages[|messages| - 1 := last.(toolCalls := if kept == [] then None else Some(JArray(kept)))]
      else messages
  }

  /** Only the last message can change, and only its `tool_calls`; the
      entries that remain are exactly those without the declined id. */
  lemma HandleDeclinedMeaning(messages: seq<Message>, toolId: string, tc: Json)
    ensures var r := HandleDeclined(messages, toolId);
      |r| == |messages| && (messages != [] ==> r[..|r| - 1] == messages[..|messages| - 1])
      && (messages != [] ==> r[|r| - 1] == messages[|messages| - 1].(toolCalls := r[|r| - 1].toolCalls))
    ensures var r := HandleDeclined(messages, toolId);
      messages != [] && r[|r| - 1].toolCalls.Some? && r != messages ==>
        var items := messages[|messages| - 1].toolCalls.value.items;
        r[|r| - 1].toolCalls.value.JArray?
        && (tc in r[|r| - 1].toolCalls.value.items <==> tc in items && CallId(tc) != Some(toolId))
  {
    if messages != [] {
      var last := messages[|messages| - 1];
      if last.role == "assistant" && last.toolCalls.Some? && last.toolCalls.value.JArray? {
        WithoutIdMembers(last.toolCalls.value.items, toolId, tc);
      }
    }
  }

  /** The transcript after the declined ids are handled one after another. */
  function AfterDeclines(messages: seq<Message>, ids: seq<string>): seq<Message> {
    if ids == [] then messages
    else HandleDeclined(AfterDeclines(messages, ids[..|ids| - 1]), ids[|ids| - 1])
  }

  lemma AfterDeclinesStep(messages: seq<Message>, ids: seq<string>, id: string)
    ensures AfterDeclines(messages, ids + []) == AfterDeclines(messages, ids)
    ensures AfterDeclines(messages, ids + [id]) == HandleDeclined(AfterDeclines(messages, ids), id)
  {
    assert ids + [] == ids;
    assert (ids + [id])[..|ids|] == ids;
  }

  /** `handle_declined_output_internal` */
  method HandleDeclinedOutputInternal(session: ChatSession, toolId: string)
    modifies session`messages
    ensures session.messages == HandleDeclined(old(session.messages), toolId)
  {
    if |session.messages| > 0 {
      var last := session.messages[|session.messages| - 1];
      if last.role == "assistant" && last.toolCalls.Some? && last.toolCalls.value.JArray? {
        var kept := WithoutId(last.toolCalls.value.items, toolId);
        if kept == [] {
          last := last.(toolCalls := None);
        } else {
          last := last.(toolCalls := Some(JArray(kept)));
        }
        session.messages := session.messages[|session.messages| - 1 := last];
      }
    }
  }

  /** `execute_tools_parallel_internal`: the main session's call counter
      grows by one per call before anything runs; if cancellation wins the
      race, no result is returned; otherwise the results come back in call
      order with the completed calls' total time, and in the main session
      each declined output is removed from the assistant message. */
  method ExecuteToolsParallelInternal(session: ChatSession, ctx: ExecutionContext, calls: seq<McpToolCall>,
                                      outcomes: seq<CallOutcome>, verdicts: seq<TrackerVerdict>, cancelled: bool)
    returns (results: seq<McpToolResult>, totalToolTimeMs: nat)
    requires |outcomes| == |calls| == |verdicts|
    modifies session`toolCalls, session`messages
    ensures session.toolCalls == old(session.toolCalls) + (if ctx.MainSession? then |calls| else 0)
    ensures cancelled ==> results == [] && totalToolTimeMs == 0 && session.messages == old(session.messages)
    ensures !cancelled ==>
      results == Results(ctx, calls, outcomes, verdicts) && totalToolTimeMs == TotalTime(outcomes)
      && session.messages == if ctx.MainSession? then AfterDeclines(old(session.messages), DeclinedIds(calls, outcomes))
                             else old(session.messages)
  {
    var i := 0;
    while i < |calls|
      invariant 0 <= i <= |calls|
      invariant session.toolCalls == old(session.toolCalls) + (if ctx.MainSession? then i else 0)
      invariant session.messages == old(session.messages)
    {
      if ctx.MainSession? {
        session.toolCalls := session.toolCalls + 1;
      }
      i := i + 1;
    }
    if cancelled {
      return [], 0;
    }
    results, totalToolTimeMs := CollectResults(session, ctx, calls, outcomes, verdicts);
  }

  /** `ToolExecutionContext::handle_declined_output`: only the main
      session's transcript is edited. */
  method DeclinedStep(session: ChatSession, ctx: ExecutionContext, toolId: string)
    modifies session`messages
    ensures session.messages == if ctx.MainSession? then HandleDeclined(old(session.messages), toolId)
                                else old(session.messages)
  {
    if ctx.MainSession? {
      HandleDeclinedOutputInternal(session, toolId);
    }
  }

  /** The loop over the joined tasks of `execute_tools_parallel_internal`. */
  method CollectResults(session: ChatSession, ctx: ExecutionContext, calls: seq<McpToolCall>,
                        outcomes: seq<CallOutcome>, verdicts: seq<TrackerVerdict>)
    returns (results: seq<McpToolResult>, totalToolTimeMs: nat)
    requires |outcomes| == |calls| == |verdicts|
    modifies session`messages
    ensures results == Results(ctx, calls, outcomes, verdicts) && totalToolTimeMs == TotalTime(outcomes)
    ensures session.messages == if ctx.MainSession? then AfterDeclines(old(session.messages), DeclinedIds(calls, outcomes))
                                else old(session.messages)
  {
    // the transcript is edited in a local copy and written back once
    var msgs := session.messages;
    results := [];
    totalToolTimeMs := 0;
    var i := 0;
    while i < |calls|
      invariant 0 <= i <= |calls|
      invariant results == ResultsUpTo(ctx, calls, outcomes, verdicts, i)
      invariant totalToolTimeMs == TotalTimeUpTo(outcomes, i)
      invariant ctx.MainSession? ==> msgs == AfterDeclines(old(session.messages), DeclinedIdsUpTo(calls, outcomes, i))
      invariant !ctx.MainSession? ==> msgs == old(session.messages)
    {
      results, totalToolTimeMs, msgs := CollectOne(ctx, calls, outcomes, verdicts, i, results, totalToolTimeMs, msgs,
                                                   old(session.messages));
      i := i + 1;
    }
    session.messages := msgs;
  }

  /** One joined task of `execute_tools_parallel_internal`: its result is
      kept unless the user declined the output, whose tool call is then
      dropped from the transcript, and a completed call's time is added. */
  method CollectOne(ctx: ExecutionContext, calls: seq<McpToolCall>, outcomes: seq<CallOutcome>,
                    verdicts: seq<TrackerVerdict>, i: nat, results: seq<McpToolResult>, totalToolTimeMs: nat,
                    msgs: seq<Message>, ghost start: seq<Message>)
    returns (results': seq<McpToolResult>, totalToolTimeMs': nat, msgs': seq<Message>)
    requires |outcomes| == |calls| == |verdicts| && i < |calls|
    requires results == ResultsUpTo(ctx, calls, outcomes, verdicts, i)
    requires totalToolTimeMs == TotalTimeUpTo(outcomes, i)
    requires msgs == if ctx.MainSession? then AfterDeclines(start, DeclinedIdsUpTo(calls, outcomes, i)) else start
    ensures results' == ResultsUpTo(ctx, calls, outcomes, verdicts, i + 1)
    ensures totalToolTimeMs' == TotalTimeUpTo(outcomes, i + 1)
    ensures msgs' == if ctx.MainSession? then AfterDeclines(start, DeclinedIdsUpTo(calls, outcomes, i + 1)) else start
  {
    var outcome := outcomes[i];
    // the outcome's result, or None when the user declined the output
    var r := ResultFor(ctx, calls[i], outcome, verdicts[i]);
    UpToStep(ctx, calls, outcomes, verdicts, i);
    DeclinedIffNoResult(ctx, calls[i], outcome, verdicts[i]);
    AfterDeclinesStep(start, DeclinedIdsUpTo(calls, outcomes, i), calls[i].toolId);
    results' := if r.Some? then results + [r.value] else results;
    msgs' := if r.None? && ctx.MainSession? then HandleDeclined(msgs, calls[i].toolId) else msgs;
    totalToolTimeMs' := if outcome.Completed? then totalToolTimeMs + outcome.timeMs else totalToolTimeMs;
  }

  /** `execute_tools_parallel_unified`: only the allowed calls run, and
      `outcomes` are theirs; with none allowed nothing happens. */
  method ExecuteToolsParallelUnified(session: ChatSession, ctx: ExecutionContext, calls: seq<McpToolCall>,
                                     outcomes: seq<CallOutcome>, verdicts: seq<TrackerVerdict>, cancelled: bool)
    returns (results: seq<McpToolResult>, totalToolTimeMs: nat)
    requires |outcomes| == |verdicts| == |AllowedCalls(calls, ctx)|
    modifies session`toolCalls, session`messages
    ensures var allowed := AllowedCalls(calls, ctx);
      session.toolCalls == old(session.toolCalls) + (if ctx.MainSession? then |allowed| else 0)
    ensures var allowed := AllowedCalls(calls, ctx);
      cancelled || allowed == [] ==> results == [] && totalToolTimeMs == 0 && session.messages == old(session.messages)
    ensures var allowed := AllowedCalls(calls, ctx);
      !cancelled ==>
        results == Results(ctx, allowed, outcomes, verdicts) && totalToolTimeMs == TotalTime(outcomes)
        && session.messages == if ctx.MainSession? then AfterDeclines(old(session.messages), DeclinedIds(allowed, outcomes))
                               else old(session.messages)
  {
    var allowed := AllowedCalls(calls, ctx);
    if allowed == [] {
      return [], 0;
    }
    results, totalToolTimeMs := ExecuteToolsParallelInternal(session, ctx, allowed, outcomes, verdicts, cancelled);
  }

  /** A message that `fix_assistant_message_tool_calls` looks for. */
  predicate IsCallingAssistant(m: Message) {
    m.role == "assistant" && m.toolCalls.Some?
  }

  /** The position of the most recent assistant message with tool calls. */
  function LastCallingAssistant(messages: seq<Message>): (r: Option<nat>)
    ensures r.Some? ==> (r.value < |messages| && IsCallingAssistant(messages[r.value])
                         && forall j :: r.value < j < |messages| ==> !IsCallingAssistant(messages[j]))
    ensures r.None? ==> forall j :: 0 <= j < |messages| ==> !IsCallingAssistant(messages[j])
  {
    if messages == [] then None
    else if IsCallingAssistant(messages[|messages| - 1]) then Some(|messages| - 1)
    else LastCallingAssistant(messages[..|messages| - 1])
  }

  /** The ids of the calls that produced a result. */
  function ResultIds(results: seq<McpToolResult>): set<string> {
    set r | r in results :: r.toolId
  }

  /** The entries of a `tool_calls` array that have a completed id. */
  function CompletedEntries(items: seq<Json>, completed: set<string>): seq<Json> {
    Filter(items, (tc: Json) => CallId(tc).Some? && CallId(tc).value in completed)
  }

  /** The repaired assistant message: entries without a completed id are
      dropped; nothing left removes the field, fewer entries than calls
      replaces it, and otherwise the message stays as it was. */
  function FixedMessage(m: Message, originalCount: nat, completed: set<string>): Message {
    if m.toolCalls.Some? && m.toolCalls.value.JArray? then
      var kept := CompletedEntries(m.toolCalls.value.items, completed);
      if kept == [] then m.(toolCalls := None)
      else if |kept| < originalCount then m.(toolCalls := Some(JArray(kept)))
      else m
    else m
  }

  /** `fix_assistant_message_tool_calls` on the transcript. */
  function FixAssistant(messages: seq<Message>, originalCount: nat, completed: set<string>): seq<Message> {
    match LastCallingAssistant(messages)
    case None => messages
    case Some(k) => messages[k := FixedMessage(messages[k], originalCount, completed)]
  }

  /** Only the most recent assistant message with tool calls can change,
      and only its `tool_calls`; every entry it keeps has an id that
      produced a result. */
  lemma FixAssistantMeaning(messages: seq<Message>, originalCount: nat, completed: set<string>, j: nat, tc: Json)
    ensures var r := FixAssistant(messages, originalCount, completed);
      |r| == |messages|
      && (j < |messages| && LastCallingAssistant(messages) != Some(j) ==> r[j] == messages[j])
      && (j < |messages| ==> r[j] == messages[j].(toolCalls := r[j].toolCalls))
    ensures var r := FixAssistant(messages, originalCount, completed);
      j < |messages| && r[j] != messages[j] && r[j].toolCalls.Some? && tc in r[j].toolCalls.value.items ==>
        CallId(tc).Some? && CallId(tc).value in completed
  {
    match LastCallingAssistant(messages)
    case None =>
    case Some(k) =>
      var m := messages[k];
      if m.toolCalls.Some? && m.toolCalls.value.JArray? {
        FilterMembers(m.toolCalls.value.items, (tc: Json) => CallId(tc).Some? && CallId(tc).value in completed, tc);
      }
  }

  /** `fix_assistant_message_tool_calls`: a backward search for the message,
      then the in-place repair. */
  method FixAssistantMessageToolCalls(session: ChatSession, originalCount: nat, results: seq<McpToolResult>)
    modifies session`messages
    ensures session.messages == FixAssistant(old(session.messages), originalCount, ResultIds(results))
  {
    var completed := ResultIds(results);
    var k := |session.messages|;
    while k > 0 && !IsCallingAssistant(session.messages[k - 1])
      invariant 0 <= k <= |session.messages|
      invariant LastCallingAssistant(session.messages) == LastCallingAssistant(session.messages[..k])
    {
      assert session.messages[..k - 1] == session.messages[..k][..k - 1];
      k := k - 1;
    }
    if k > 0 {
      assert session.messages[..k][..k - 1] == session.messages[..k - 1];
      var m := session.messages[k - 1];
      session.messages := session.messages[k - 1 := FixedMessage(m, originalCount, completed)];
    } else {
      assert session.messages[..k] == [];
    }
  }

  /** `execute_tools_parallel`, the main session's entry point: the unified
      execution, then the assistant message is made to match the results,
      whatever the execution's outcome. */
  method ExecuteToolsParallel(session: ChatSession, calls: seq<McpToolCall>, outcomes: seq<CallOutcome>,
                              verdicts: seq<TrackerVerdict>, cancelled: bool)
    returns (results: seq<McpToolResult>, totalToolTimeMs: nat)
    requires |outcomes| == |calls| == |verdicts|
    modifies session`toolCalls, session`messages
    ensures session.toolCalls == old(session.toolCalls) + |calls|
    ensures cancelled ==> (results == [] && totalToolTimeMs == 0
                           && session.messages == FixAssistant(old(session.messages), |calls|, {}))
    ensures !cancelled ==>
      results == Results(MainSession, calls, outcomes, verdicts) && totalToolTimeMs == TotalTime(outcomes)
      && session.messages == FixAssistant(AfterDeclines(old(session.messages), DeclinedIds(calls, outcomes)),
                                          |calls|, ResultIds(results))
  {
    AllowedCallsMeaning(calls, MainSession, McpToolCall("", JNull, ""));
    results, totalToolTimeMs := ExecuteToolsParallelUnified(session, MainSession, calls, outcomes, verdicts, cancelled);
    FixAssistantMessageToolCalls(session, |calls|, results);
    if cancelled {
      assert ResultIds(results) == {};
    }
  }

  /** How `display_tool_output_smart` shows an output: whole, as its first
      lines and a count of the rest, or cut short. */
  datatype SmartDisplay = ShowAll(text: string) | ShowHead(lines: seq<string>, moreLines: nat) | ShowCut(prefix: string)

  /** `display_tool_output_smart` */
  function DisplayToolOutputSmart(output: string): SmartDisplay {
    var lines := Lines(output);
    if |lines| <= 20 && |output| <= 2000 then ShowAll(output)
    else if |lines| > 20 then ShowHead(lines[..15], |lines| - 15)
    else ShowCut(output[..1997])
  }

  /** Output of at most 20 lines and 2000 characters is shown as it is;
      longer output shows its first 15 lines and how many follow; output of
      few but long lines shows its first 1997 characters. */
  lemma DisplayToolOutputSmartMeaning(output: string)
    ensures DisplayToolOutputSmart(output).ShowAll? <==> |Lines(output)| <= 20 && |output| <= 2000
    ensures DisplayToolOutputSmart(output).ShowHead? <==> |Lines(output)| > 20
    ensures var d := DisplayToolOutputSmart(output);
      d.ShowHead? ==> |d.lines| == 15 && d.lines == Lines(output)[..15] && 15 + d.moreLines == |Lines(output)|
    ensures var d := DisplayToolOutputSmart(output);
      d.ShowCut? ==> |output| > 2000 && |d.prefix| == 1997 && output == d.prefix + output[1997..]
  {
  }
}
