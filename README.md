# Octomind core, modelled in Dafny

Octomind is an AI coding assistant that drives chat sessions against LLM
providers and routes the model's tool calls to MCP (Model Context Protocol)
tool servers. This project models the deterministic bookkeeping between the
provider calls and the tool servers, and proves properties of it:

- **Tool access and routing**: the allow-list matcher and catalogue
  filter, the internal-function cache, the tool→server table (first
  configured server wins), the layer gate, the large-output confirmation,
  MCP result wrappers and content extraction, the three server-config
  variants with their accessors, validation and role resolution, the
  JSON-RPC 2.0 request builders and `tools/list` parsing, the function
  cache with configured-tool fallback, and health-gated execution
  (modules `ConfigMcp`, `McpCore`, `ToolMap`, `ServerProcess`, `McpServer`).
- **Server health policy**: the single-monitor flag, Running/Dead
  classification, the restart cap of 3 and the 30 s cooldown, remote
  servers never restarted, the HTTP probe verdict (module `HealthMonitor`).
- **Transcript maintenance**: per-call results in request order, pruning
  the assistant's `tool_calls` to answered ids, appending tool messages
  with truncation triggers, the continuation rule, context reduction to
  `[system?, summary]`, rollback on a failed API call, layer messages
  (modules `Messages`, `ChatSessions`, `ToolExecution`,
  `ToolResultProcessor`, `ContextReduction`, `SessionRunner`,
  `GenericLayer`).
- **Provider adapters** (conversion only) for OpenRouter and DeepSeek
  (modules `ProviderWire`, `OpenRouter`, `DeepSeek`), and the integer
  accounting of tokens and time (module `CostTracker`).
- **Parsing and formatting**: the `config` command (module
  `ConfigCommand`) and the Brave search tools: query validation, parameter
  defaults and clamps, URL assembly and ranked result lines (modules
  `WebApiClient`, `WebFormatters`, `BraveSearch`, `BraveTools`).

Shared modules: `Wrappers` (Option and Result), `Seqs`, `Strings` (trim,
split, join, decimal printing, UTF-8 length, URL encoding) and `Json` (a
model of `serde_json::Value` with its compact and pretty serialisers).

Everything the source does through the network, child processes, the
terminal, clocks, randomness or model replies is a parameter of the model:
the outcome of a request, a process check, a user's answer, the current
time, a generated id. Source loops are methods with loop invariants, each
proved equal to a specification function (the layer's tool loop to
`GenericLayer.LayerLoop`, pass by pass), and the properties are lemmas
about those functions. Objects whose fields the source updates (the global
caches, the tool map, the chat session, the health-monitor flag, the
restart registry, the loaded configuration) are classes.

## Model

| member | source | states |
|---|---|---|
| ConfigMcp.McpServerConfig.WithTools | src/config/mcp.rs:315-348 | the rebuilt server reports the new tools list |
| ConfigMcp.AccessorsTotal | src/config/mcp.rs:73-112 | `name`, `timeout_seconds` and `tools` read every variant's own fields; `connection_type` is Builtin, Http or Stdin exactly for that variant |
| ConfigMcp.UrlCommandExclusive | src/config/mcp.rs:115-162 | `url` is Some exactly for a remote Http server, `command` exactly for Stdin and local Http, never both; `auth_token` is None off Http; `args` is empty without a command |
| ConfigMcp.ConstructorsReadBack | src/config/mcp.rs:165-228 | each constructor's name, timeout, tools, url, command, args and token read back through the accessors |
| ConfigMcp.ValidateFailsIff | src/config/mcp.rs:231-267 | validation fails exactly when the name, a remote url or a command is empty |
| ConfigMcp.FindServer | src/config/mcp.rs:308 | `find` by name: a result is the first registry entry with that name (no earlier entry has it), and None exactly when no entry has it |
| ConfigMcp.RoleMcpConfig.IsEnabled | src/config/mcp.rs:294-296 | MCP is enabled exactly when the role references a server |
| ConfigMcp.RoleMcpConfig.ExpandPatternsForServer | src/config/mcp.rs:367-394 | the loop returns the expansion: empty once `server:*` is met, else the contributions of the patterns in order |
| ConfigMcp.RoleMcpConfig.GetEnabledServers | src/config/mcp.rs:300-363 | the loop returns the known referenced servers in reference order, tools replaced by the expansion when the role has an allow-list |
| ConfigMcp.WildcardGivesAll | src/config/mcp.rs:373-376 | `server:*` anywhere in the patterns makes the expansion empty (all tools) |
| ConfigMcp.ContributionsMembers | src/config/mcp.rs:369-390 | a name is in the expansion exactly when some pattern contributes it |
| ConfigMcp.ContributionCases | src/config/mcp.rs:371-390 | a pattern contributes x exactly when it is x without a colon, or `server:x` for this server; patterns for other servers contribute nothing |
| ConfigMcp.EnabledEmpty | src/config/mcp.rs:301-303 | a role without references selects no server |
| ConfigMcp.EnabledServersShape | src/config/mcp.rs:305-363 | the selected servers carry exactly the known references, in order, unknown names skipped; each is a registry entry with only its tools changed, unchanged without an allow-list |
| McpCore.ExtractWrapperRoundTrip | src/mcp/mod.rs:60-160 | the text given to `success`, `error` and `success_with_metadata` is what `extract_mcp_content` reads back; non-null metadata is appended as `[Metadata: …]` in pretty JSON |
| McpCore.WrapperFlags | src/mcp/mod.rs:62-116 | `success` and `success_with_metadata` carry `isError: false`, `error` carries `isError: true` |
| McpCore.MetadataField | src/mcp/mod.rs:79-100 | the metadata wrapper's object has a `metadata` field, the plain wrappers have none |
| McpCore.FlagField | src/mcp/mod.rs:62-116 | the `isError` flag is found in the wrapper's second field |
| McpCore.TextItemsAppend | src/mcp/mod.rs:124-133 | the text items of two content lists are those of each, in order |
| McpCore.ExtractFallbacks | src/mcp/mod.rs:150-159 | without a content array, a string `output` field is returned, and otherwise the whole result pretty-printed |
| McpCore.FirstRule | src/mcp/mod.rs:170-197 | the chosen keyword rule is the earliest one the name matches; None exactly when none matches |
| McpCore.GuessCategoryMeaning | src/mcp/mod.rs:170-197 | the category is `external` exactly when no exact name and no keyword rule matches; otherwise it is the first matching rule's category |
| McpCore.FirstRuleIsEarliest | src/mcp/mod.rs:175-195 | a matching rule with no earlier match is the one chosen |
| McpCore.NoExternalCategory | src/mcp/mod.rs:175-195 | no keyword rule yields `external`, so only the fallback arm does |
| McpCore.IsToolAllowedByPatterns | src/mcp/mod.rs:402-423 | the loop returns the matcher's verdict: every name for an empty list, otherwise some pattern admits the name |
| McpCore.PatternMeaning | src/mcp/mod.rs:408-418 | `prefix*` admits exactly the names starting with the prefix; any other pattern only the identical name (case-sensitive) |
| McpCore.FilterToolsOrder | src/mcp/mod.rs:390-399 | filtering distributes over concatenation, so the kept tools stay in input order |
| McpCore.FilterToolsSingle | src/mcp/mod.rs:390-399 | one tool is kept exactly when the matcher admits its name |
| McpCore.FilterToolsMembers | src/mcp/mod.rs:390-399 | a tool is in the filtered list exactly when it is in the input and admitted; the output is no longer than the input |
| McpCore.CacheKeyCollision | src/mcp/mod.rs:434-438 | the as-written cache key gives an empty allow-list and `["all"]` the same key although they filter differently (see Findings) |
| McpCore.StringKeyedFunctionCache.constructor | src/mcp/mod.rs:30-42 | the as-written cache starts empty |
| McpCore.StringKeyedFunctionCache.GetCachedInternalFunctions | src/mcp/mod.rs:426-466 | the cache as written, keyed by the joined string: a hit returns whatever is stored under the string, a miss stores the filtered catalogue under it |
| McpCore.StaleCacheHit | src/mcp/mod.rs:434-445 | with the as-written key, a lookup with `["all"]` after one without an allow-list returns the unfiltered catalogue, which the allow-list does not admit (see Findings) |
| McpCore.InternalFunctionCache.constructor | src/mcp/mod.rs:30-42 | the cache starts empty |
| McpCore.InternalFunctionCache.GetCachedInternalFunctions | src/mcp/mod.rs:426-466 | returns the catalogue filtered by the patterns; a hit returns the cached list and leaves the cache as it was, a miss stores the list under its key (keyed without collision) |
| McpCore.InternalFunctionCache.Clear | src/mcp/mod.rs:470-477 | the cache is empty afterwards |
| McpCore.InternalFunctionCache.ServerFunctions | src/mcp/mod.rs:328-385 | one server's functions (over the corrected cache, see Findings): known builtins through the cache, `agent` filtered uncached, unknown builtins none, external servers their filtered fetched list or none on failure |
| McpCore.SelectedFunctionsAllowed | src/mcp/mod.rs:328-385 | every function a server contributes is admitted by its tools list, comes from a known builtin or from an external fetch that succeeded |
| McpCore.GetAvailableFunctions | src/mcp/mod.rs:313-388 | the catalogue is the servers' contributions concatenated in configuration order (over the corrected cache, see Findings) |
| McpCore.AddAbsentSnoc | src/mcp/mod.rs:576-581 | entering one more name adds it only when absent |
| McpCore.FirstWinsSnoc | src/mcp/mod.rs:533-581 | the table after one more server is the previous table with that server's new names added |
| McpCore.Provided | src/mcp/mod.rs:537-570 | one list of provided names per configured server |
| McpCore.EnterFunctions | src/mcp/mod.rs:576-581 | the `entry().or_insert_with` loop adds each absent name with this server and never overwrites |
| McpCore.BuildToolServerMap | src/mcp/mod.rs:529-587 | the table is the first-server-wins table of the servers' provided names, in configuration order (over the corrected cache, see Findings) |
| McpCore.FirstWinsMeaning | src/mcp/mod.rs:574-581 | a name is routed exactly when some server provides it, and then to the first server in configuration order that does |
| McpCore.EnsureToolCallIds | src/mcp/mod.rs:232-238 | calls with an id keep it; every empty id becomes `tool_` followed by a fresh id; nothing else changes |
| McpCore.ToolResultsToMessages | src/mcp/mod.rs:216-229 | one `tool` message per result, in order, carrying its id, name and serialised result |
| McpCore.LayerGateMeaning | src/mcp/mod.rs:876-894 | a layer call passes exactly when the layer has server refs and its allow-list is empty or names the tool exactly; a starred entry admits no other name |
| McpCore.ExecuteLayerToolCall | src/mcp/mod.rs:876-899 | a refused call fails with the gate's message; an admitted one is the ordinary execution |
| McpCore.LargeResponseGate | src/mcp/mod.rs:804-872 | within the threshold, or with an answer starting with `y`, the result passes unchanged; otherwise an error result whose text is the decline notice |
| McpCore.LargeResponseKeepsCall | src/mcp/mod.rs:855-867 | the gate keeps the tool name and id |
| McpCore.AnswerMeaning | src/mcp/mod.rs:849 | whitespace then `y` or `Y` keeps the output; a blank answer declines it |
| McpCore.ExecuteToolCallGuards | src/mcp/mod.rs:480-507 | no servers, then cancellation, fail before routing; an unrouted tool fails with the not-found message listing the available tools |
| McpCore.ExecuteToolCallAnswersCall | src/mcp/mod.rs:589-800 | a success was routed and its executor succeeded; the result carries the call's own id |
| ToolMap.ConfigFingerprint | src/mcp/tool_map.rs:237-250 | one fingerprint per server, in configuration order |
| ToolMap.FingerprintIgnoresAddress | src/mcp/tool_map.rs:244-248 | the hash reads only name, connection type and tools: two remote servers differing only in their url have the same fingerprint |
| ToolMap.ToolMapState.constructor | src/mcp/tool_map.rs:31-40 | the default state is uninitialised with an empty table, so the lookups of the unit test come back empty |
| ToolMap.ToolMapState.Initialize | src/mcp/tool_map.rs:59-93 | a no-op when already initialised with an equal hash; otherwise the table is replaced wholesale by the first-server-wins table (over the corrected cache, see Findings), `initialized` is set and the new hash stored |
| ToolMap.ToolMapState.Routing | src/mcp/tool_map.rs:107-163 | after initialisation a tool is routed exactly when some server provided it, to the first such server; the name list holds exactly the routed tools |
| ToolMap.ToolMapState.Uninitialized | src/mcp/tool_map.rs:107-163 | before initialisation every lookup is None, `is_initialized` is false and the name list is empty |
| ServerProcess.RestartRegistry.constructor | src/mcp/health_monitor.rs:174-181 | the registry starts without entries, so every server reads the default entry |
| ServerProcess.RestartRegistry.RecordHealth | src/mcp/health_monitor.rs:174-181 | the server's entry (created by default if missing) gets the new status and check time; every other entry is unchanged |
| McpServer.RequestFields | src/mcp/server.rs:35-70 | a request object carries `id` 1, `jsonrpc` "2.0", its method name and its params |
| McpServer.RequestShape | src/mcp/server.rs:35-70 | such an object is a JSON-RPC 2.0 request for its method with object params |
| McpServer.RequestsWellFormed | src/mcp/server.rs:35-70 | the `tools/list`, `initialize` and `tools/call` builders each give a well-formed request for their method |
| McpServer.ToolsCallCarriesArguments | src/mcp/server.rs:60-70 | `tools/call` params hold the tool name and its arguments unchanged |
| McpServer.KeepTools | src/mcp/server.rs:86-112 | the loop over `result.tools` returns the specified tool list |
| McpServer.ParseToolsFromJsonRpcResponse | src/mcp/server.rs:73-115 | the method returns the specified parse |
| McpServer.ToolsFromItemsMembers | src/mcp/server.rs:86-112 | a function is parsed exactly when some entry has a string name and description the allow-list admits, with its parameters or `{}` |
| McpServer.ToolsFromItemsAllowed | src/mcp/server.rs:95-100 | every parsed function's name is admitted by the server's tools list |
| McpServer.ToolsFromItemsLength | src/mcp/server.rs:86-112 | never more functions than entries |
| McpServer.ParsedToolsOutcome | src/mcp/server.rs:73-115 | the parse fails exactly when `error` is present or `result` absent; a result without a `tools` array gives no functions |
| McpServer.FallbackMeaning | src/mcp/server.rs:258-290 | one fallback function per configured tool, in order, with `{}` parameters; the suffix is `(remote server)` exactly for a remote Http server |
| McpServer.RunningForCacheCheckCases | src/mcp/server.rs:294-335 | a remote Http server is always running, a contended lock counts as running, and without a process only a remote server runs |
| McpServer.FunctionCache.constructor | src/mcp/server.rs:202-255 | the function cache starts empty |
| McpServer.FunctionCache.GetServerFunctionsCached | src/mcp/server.rs:202-255 | always Ok; a hit returns the cached list unchanged; a running server's successful fetch is returned and inserted; otherwise the fallback is returned and the cache untouched |
| McpServer.FunctionCache.ClearForServer | src/mcp/server.rs:339-347 | only that server's entry is removed |
| McpServer.FunctionCache.ClearAll | src/mcp/server.rs:350-358 | the cache is empty afterwards |
| McpServer.IsServerAlreadyRunningWithConfig | src/mcp/server.rs:361-445 | builtin and remote servers are running, a local one exactly when its child is alive; the registry records Running or Dead and the check time for that server only |
| McpServer.HealthGate | src/mcp/server.rs:512-556 | execution proceeds only when not cancelled and the health is Running; Failed, Restarting and Dead each give an error |
| McpServer.HttpReplyResult | src/mcp/server.rs:559-680 | an HTTP reply becomes a success for the call's name and id whose text is the mapped JSON-RPC output |
| McpServer.HttpReplyIsSuccess | src/mcp/server.rs:559-680 | the HTTP path returns exactly the success wrapper of the pretty-printed output |
| McpServer.JsonRpcOutputMeaning | src/mcp/server.rs:650-658 | a reply with `error` becomes `{error:true, success:false, message}` with "Server error" by default; otherwise `result` or "No result" |
| McpServer.BaseUrlMeaning | src/mcp/server.rs:683-713 | a remote url loses exactly its trailing `/`s; a local or stdin server uses its started address; a builtin has no base URL |
| HealthMonitor.ExternalServersMembers | src/mcp/health_monitor.rs:47-56 | the monitored servers are exactly the Http and Stdin servers of the configuration |
| HealthMonitor.HealthMonitorFlag.constructor | src/mcp/health_monitor.rs:31-39 | the monitor flag starts cleared |
| HealthMonitor.HealthMonitorFlag.Start | src/mcp/health_monitor.rs:31-64 | a set flag makes start a no-op; otherwise the external servers are monitored, a task is spawned exactly when there is one, and the flag is reset when there is none |
| HealthMonitor.HealthMonitorFlag.Stop | src/mcp/health_monitor.rs:118-125 | the flag is cleared |
| HealthMonitor.HealthClassification | src/mcp/health_monitor.rs:132-162 | computed health is only Running or Dead: by the process check for servers with a command, by the probe (an error counting as Dead) for remote ones |
| HealthMonitor.CanRestartIff | src/mcp/health_monitor.rs:289-301 | a server can be restarted exactly when it has a command; remote Http and builtin servers never |
| HealthMonitor.RestartDeadServerMeaning | src/mcp/health_monitor.rs:287-326 | an ineligible server returns Ok without a restart; an eligible one succeeds exactly when starting it does |
| HealthMonitor.DeadDecisionMeaning | src/mcp/health_monitor.rs:184-237 | a dead server with 3 or more restarts is marked Failed; a restart is attempted exactly below the cap and 30 s or more after the last restart |
| HealthMonitor.CheckServerHealthAndRestartIfDead | src/mcp/health_monitor.rs:128-237 | the status and check time are recorded first; a restart is attempted exactly as the dead-server policy says, with the restart's own outcome |
| HealthMonitor.ForceHealthCheck | src/mcp/health_monitor.rs:358-386 | the registry after a forced check is every external server checked in configuration order |
| HealthMonitor.CheckedAllMeaning | src/mcp/health_monitor.rs:358-386 | every checked server has an entry with the current check time and a status of Running, Dead or Failed; other entries are unchanged |
| HealthMonitor.ProbeVerdict | src/mcp/health_monitor.rs:388-448 | no url is an error, so is a bearer token that is not a valid header value; otherwise, with or without a token, a failed send is `Ok(false)` and a response is healthy exactly when its status is 2xx or 4xx |
| ChatSessions.ChatSession.constructor | src/session/chat/session/runner.rs:740 | a session over a transcript starts with every counter at zero |
| ChatSessions.ChatSession.AddUserMessage | src/session/chat/session/runner.rs:740 | the transcript gains one user message at its end |
| ChatSessions.ChatSession.AddToolMessage | src/session/chat/response/tool_result_processor.rs:107-112 | the transcript gains one tool message with the content, call id and tool name |
| ToolExecution.IsToolAllowedAgreesWithGate | src/session/chat/response/tool_execution.rs:54-65 | every tool is allowed in the main session; in a layer with servers it is allowed exactly when the layer gate admits it |
| ToolExecution.AllowedCallsMeaning | src/session/chat/response/tool_execution.rs:106-125 | the executed calls are exactly the allowed ones, in order; in the main session all of them |
| ToolExecution.FailureResultAnswersCall | src/session/chat/response/tool_execution.rs:299-360 | a failure's error result carries the call's own tool name and id, a `tool_name` field and an `error` text |
| ToolExecution.DeclinedIffNoResult | src/session/chat/response/tool_execution.rs:283-360 | a call yields no result exactly when the user declined its output |
| ToolExecution.UpToStep | src/session/chat/response/tool_execution.rs:255-401 | each joined task extends the results, the declined ids and the total time by its own share |
| ToolExecution.ResultsAccount | src/session/chat/response/tool_execution.rs:255-401 | every call gives a result or a declined id; when all complete the results are theirs in call order |
| ToolExecution.ResultsAccountUpTo | src/session/chat/response/tool_execution.rs:255-401 | the same accounting for every prefix of the calls |
| ToolExecution.TotalTimeMeaning | src/session/chat/response/tool_execution.rs:238-296 | the total time is zero when nothing completed and at least each completed call's time |
| ToolExecution.TotalTimeUpToMeaning | src/session/chat/response/tool_execution.rs:238-296 | the same for every prefix |
| ToolExecution.WithoutIdMembers | src/session/chat/response/tool_execution.rs:582-616 | the pruned `tool_calls` are exactly those whose id is not the declined one |
| ToolExecution.HandleDeclinedMeaning | src/session/chat/response/tool_execution.rs:582-616 | only the last message's `tool_calls` may change, and then it keeps exactly the calls other than the declined id |
| ToolExecution.AfterDeclinesStep | src/session/chat/response/tool_execution.rs:283-296 | each declined id is handled in turn |
| ToolExecution.HandleDeclinedOutputInternal | src/session/chat/response/tool_execution.rs:582-616 | the transcript becomes the specified pruning |
| ToolExecution.ExecuteToolsParallelInternal | src/session/chat/response/tool_execution.rs:164-433 | the main session counts every call; on cancellation no results and zero time; otherwise the results in call order, the summed time and the declines applied |
| ToolExecution.DeclinedStep | src/session/chat/response/tool_execution.rs:87-94 | a decline edits the transcript in the main session only |
| ToolExecution.CollectResults | src/session/chat/response/tool_execution.rs:238-401 | the join loop returns the specified results and total time, and applies each decline in order |
| ToolExecution.ExecuteToolsParallelUnified | src/session/chat/response/tool_execution.rs:96-128 | disallowed calls are dropped first; with none left, or on cancellation, `([], 0)`; otherwise the internal execution of the allowed calls |
| ToolExecution.LastCallingAssistant | src/session/chat/response/tool_execution.rs:643-698 | the most recent assistant message with tool calls, None when there is none |
| ToolExecution.FixAssistantMeaning | src/session/chat/response/tool_execution.rs:643-698 | only that message changes, only in its `tool_calls`, and every call it keeps has an id among the results' ids |
| ToolExecution.FixAssistantMessageToolCalls | src/session/chat/response/tool_execution.rs:643-698 | the transcript becomes the specified fix over the results' ids |
| ToolExecution.ExecuteToolsParallel | src/session/chat/response/tool_execution.rs:131-161 | the fix always runs afterwards, with no ids when cancelled |
| ToolExecution.DisplayToolOutputSmartMeaning | src/session/chat/response/tool_execution.rs:532-550 | output of at most 20 lines and 2000 chars is shown whole; over 20 lines the first 15 and a count of the rest; otherwise cut to 1997 chars |
| CostTracker.SaturatingSub | src/session/chat/cost_tracker.rs:35 | `saturating_sub`: never more than the minuend, the exact difference when it fits, zero otherwise |
| CostTracker.TokenUpdateOf | src/session/chat/cost_tracker.rs:31-37 | the regular prompt tokens are the prompt tokens minus the cached ones, saturating at zero; cached and output tokens pass through |
| CostTracker.TrackExchangeCost | src/session/chat/cost_tracker.rs:27-72 | without usage nothing changes; with usage the token update is computed and the request time, when given, added to the API time |
| CostTracker.SessionUsageMeaning | src/session/chat/cost_tracker.rs:74-133 | total prompt is non-cached plus cached, total adds the completion, and each part is recovered by subtraction |
| CostTracker.ShowsTimeMeaning | src/session/chat/cost_tracker.rs:118-122 | the time line is shown exactly when some API, tool or layer time was recorded |
| CostTracker.CostBreakdownMeaning | src/session/chat/cost_tracker.rs:135-221 | no breakdown without a positive cost or tokens; input and output lines exactly when those token counts are positive; cost only when only cached tokens remain |
| ToolResultProcessor.ExtractToolContentMeaning | src/session/chat/response/tool_result_processor.rs:306-328 | a string `output` or a string result is used as is; otherwise an `error` field gives `Error: …`, and anything else is serialised |
| ToolResultProcessor.FailureContentIsError | src/session/chat/response/tool_result_processor.rs:306-328 | the content of every failure's error result starts with `Error: ` |
| ToolResultProcessor.ToolMessagesMeaning | src/session/chat/response/tool_result_processor.rs:85-112 | one tool message per result, in order, with its content, call id and name |
| ToolResultProcessor.ContentSizes | src/session/chat/response/tool_result_processor.rs:96-101 | one byte size per result |
| ToolResultProcessor.LargeAtMeaning | src/session/chat/response/tool_result_processor.rs:100-112 | an immediate truncation check happens exactly after each output over 10000 bytes, in order |
| ToolResultProcessor.SinceLargeSum | src/session/chat/response/tool_result_processor.rs:101-125 | without a large output the accumulated size is the sum of all sizes |
| ToolResultProcessor.AppendToolResults | src/session/chat/response/tool_result_processor.rs:85-128 | the tool messages are appended in order; the immediate checks follow the large outputs; a batch check happens exactly when the size accumulated since the last large output exceeds 50000 bytes |
| ToolResultProcessor.CheckShouldContinueMeaning | src/session/chat/response/tool_result_processor.rs:351-382 | the loop stops exactly on `stop`, `length` or `end_turn`, or without a finish reason when no tools remain |
| ToolResultProcessor.RoundOutcomeMeaning | src/session/chat/response/tool_result_processor.rs:203-304 | a declined spending check or a cancellation ends the round; a failed follow-up call is the error; otherwise the follow-up's text, its tool calls only when it should continue |
| ToolResultProcessor.HandleFollowUpCostTracking | src/session/chat/response/tool_result_processor.rs:384-420 | the token update of the follow-up's usage, and its request time added to the API time |
| ToolResultProcessor.ProcessToolResults | src/session/chat/response/tool_result_processor.rs:27-304 | the tool time is always added; a cancellation at entry changes nothing else; otherwise the messages are appended and the points where the truncation checks run are returned (the checks' rewriting of the transcript is left out), the layer time added and the round's outcome returned |
| ContextReduction.HistoryEntriesEmpty | src/session/chat/context_reduction.rs:34-39 | the history has no entries exactly when every message is a system message; each entry is non-empty |
| ContextReduction.HistoryEmptyIff | src/session/chat/context_reduction.rs:34-44 | the history text is empty exactly when every message is a system message, which ends the reduction early |
| ContextReduction.SummarizationPrompt | src/session/chat/context_reduction.rs:47-50 | the request starts with the fixed summary marker |
| ContextReduction.FirstSystem | src/session/chat/context_reduction.rs:104-106 | `find`: the earliest system message, None exactly when there is none |
| ContextReduction.FirstSystemSnoc | src/session/chat/context_reduction.rs:53-106 | appending the (user) prompt does not change which system message is found |
| ContextReduction.ReducedShape | src/session/chat/context_reduction.rs:103-123 | the reduced transcript is `[system?, summary]`: at most two messages, the cached assistant summary last, the system message first exactly when there was one; reducing again keeps that shape |
| ContextReduction.ReducedHistory | src/session/chat/context_reduction.rs:34-119 | a reduced transcript's history is just `ASSISTANT: ` and the summary |
| ContextReduction.UpperAssistant | src/session/chat/context_reduction.rs:37 | `to_uppercase` of the assistant role |
| ContextReduction.PerformContextReduction | src/session/chat/context_reduction.rs:27-178 | without history nothing changes; with a summary the transcript is reduced, the current token counters reset and the save's outcome returned; on a failed call the prompt is removed again and the error returned |
| SessionRunner.ExtractQuotedAbsent | src/session/chat/session/runner.rs:67-72 | an option is None exactly when its marker is absent from the debug string |
| SessionRunner.ExtractQuotedFound | src/session/chat/session/runner.rs:67-72 | a value read is quote-free and is written after the marker up to a quote |
| SessionRunner.ExtractQuotedRoundTrip | src/session/chat/session/runner.rs:67-72 | a quote-free value written after the marker is read back |
| SessionRunner.ParseSessionArgsMeaning | src/session/chat/session/runner.rs:63-120 | model, name and resume are present exactly with their markers; the role defaults to `developer` and is otherwise the quoted value |
| SessionRunner.CleanupAfterMeaning | src/session/chat/session/runner.rs:434-497 | the Ctrl+C cleanup only truncates the transcript, and only while processing layers or calling the API |
| SessionRunner.ClassifyInputMeaning | src/session/chat/session/runner.rs:505-530 | `/exit` and `/quit` end the session; `/done` and commands start with `/`; a user message is neither blank nor a command |
| SessionRunner.NewToolIdsMeaning | src/session/chat/session/runner.rs:940-952 | the recorded ids are exactly the tool-message ids not already recorded |
| SessionRunner.RolledBackRestores | src/session/chat/session/runner.rs:971-980 | truncating at the recorded user-message index removes exactly the message added before the failed call |
| SessionRunner.Runner.constructor | src/session/chat/session/runner.rs:201-375 | the first message counts as processed exactly when the transcript is not empty; idle, no operation, no Ctrl+C |
| SessionRunner.Runner.LoopHead | src/session/chat/session/runner.rs:430-497 | a pending Ctrl+C is consumed, the operation cleared and the state reset; otherwise the state becomes ReadingInput |
| SessionRunner.Runner.HandleDone | src/session/chat/session/runner.rs:519-530 | `/done` clears the first-message flag and reduces the context as specified |
| SessionRunner.Runner.ProcessFirstMessage | src/session/chat/session/runner.rs:629-730 | a pending Ctrl+C skips the input whether layers are enabled or not, leaving transcript, state and flag; layers run only for the first message; a cancellation once they have begun leaves the transcript; otherwise the layered output replaces the input and the flag is set |
| SessionRunner.Runner.StartOperation | src/session/chat/session/runner.rs:734-760 | the user message is appended and the operation records its index |
| SessionRunner.Runner.HandleApiFailure | src/session/chat/session/runner.rs:971-980 | the transcript is rolled back to the recorded user-message index |
| SessionRunner.Runner.RecordCompletedTools | src/session/chat/session/runner.rs:940-952 | the new tool ids are appended to the operation's completed ids |
| SessionRunner.HasCachedSystem | src/session/chat/session/runner.rs:767-776 | the scan finds a cached system message exactly when the transcript has one |
| SessionRunner.Runner.Exchange | src/session/chat/session/runner.rs:734-990 | the user message is recorded at the transcript's old length; a failed context truncation (757-765) ends the loop with the user message kept; the request is sent with the truncated transcript when a system message is cached, else with the checkpointed one (767-790); Ctrl+C before the request or a declined spending check keeps that transcript; Ctrl+C during the request skips everything after it, rollback included (873-877); a failed call rolls the user message back; an answer leaves the processed transcript, the assistant index and the new tool ids recorded |
| GenericLayer.CreateMessages | src/session/layers/types/generic.rs:36-84 | a layer starts with two messages: its system prompt, cached exactly when the model supports caching, then the processed input as an uncached user message |
| GenericLayer.ResolveLayerToolCallsMeaning | src/session/layers/types/generic.rs:236-253 | calls given by the provider are used when there are some; otherwise the content is parsed; no text is ever cleaned |
| GenericLayer.LayerToolContentAgrees | src/session/layers/types/generic.rs:314-345 | a layer's tool message is the `output` field, or else the serialised result (a string result keeps its quotes, unlike the main session's) |
| GenericLayer.LayerToolMessagesMeaning | src/session/layers/types/generic.rs:314-345 | one tool message per result, in order, answering that result's call |
| GenericLayer.LayerRoundOutcomeMeaning | src/session/layers/types/generic.rs:346-396 | a cancellation, and only that, ends a layer round without a result; continued tool calls are the follow-up's own, never empty |
| GenericLayer.ProcessLayerToolResults | src/session/layers/types/generic.rs:314-396 | the tool messages are appended and the round's outcome returned |
| GenericLayer.RunLoopStopsAt | src/session/layers/types/generic.rs:112-233 | a loop whose passes go on through given states and stop at pass `k` ends in the state pass `k` leaves |
| GenericLayer.QuietStatesMeaning | src/session/layers/types/generic.rs:112-233 | uninterrupted passes go through one state per pass, each following from the one before, and the last has added up every follow-up's request time, every pass's tool time and every pass's messages |
| GenericLayer.UninterruptedPass | src/session/layers/types/generic.rs:112-233 | a pass that runs its tools and gets a follow-up without cancellation goes on exactly when the follow-up asks for more tools, and hands those on |
| GenericLayer.FirstQuietRound | src/session/layers/types/generic.rs:112-233 | when the passes up to `k` are uninterrupted and `k` is the first whose follow-up asks for no tools, the loop finishes there with that follow-up's text and usage and no tool calls, the summed request and tool times, and each pass's assistant and tool messages recorded |
| GenericLayer.RunLoopShape | src/session/layers/types/generic.rs:112-233 | whatever the rounds: the transcript only grows, the request time only adds up, cancellation at the first head aborts, no servers stops at once with the state unchanged, a stop with servers leaves no tool calls, and an abort is cancellation or a follow-up's error |
| GenericLayer.LayerLoopShape | src/session/layers/types/generic.rs:112-233 | the same for the loop's outcome: the transcript only grows; cancellation at the first head fails; a layer without servers finishes at once with its answer; a finish has at least the starting request time and, with servers, no tool calls left; a failure is cancellation or a follow-up's error |
| GenericLayer.ProcessRecursiveToolCalls | src/session/layers/types/generic.rs:86-234 | the loop's outcome and the layer's transcript are those of `LayerLoop` over the rounds, with the layer's own tool messages |
| GenericLayer.RunPass | src/session/layers/types/generic.rs:113-214 | one pass of the loop body on the session is the specification's pass: the head cancellation check, no servers, the calls to act on |
| GenericLayer.RunTools | src/session/layers/types/generic.rs:125-204 | the rest of a pass: the assistant message and the tool time, cancellation after the tools, the tool messages and the follow-up |
| GenericLayer.EndPass | src/session/layers/types/generic.rs:153-194 | how the follow-up ends a pass: an error aborts, cancellation stops, an answer's text, usage, tool calls and request time are taken on |
| GenericLayer.Process | src/session/layers/types/generic.rs:406-504 | cancellation and a failed call fail; a layer without servers, or whose answer has no tool calls (the API's own, else those in its text), returns the response with no tool time; otherwise the outcome is exactly that of `LayerLoop` over the rounds, started from the answer on a session over `CreateMessages` |
| ProviderWire.ArrayAt | src/session/providers/openrouter.rs:222-226 | `get(0)` on a value finds an element exactly when it is an array long enough |
| ProviderWire.FoundDetailsMeaning | src/session/providers/openrouter.rs:189-199 | each error field present as a string contributes its heading and text, and nothing else is added; none when the error object is absent or holds none |
| ProviderWire.ErrorDetailsMeaning | src/session/providers/openrouter.rs:186-205 | the details start with `HTTP <status>`; with no field found the raw response follows, otherwise the fields found |
| ProviderWire.BuildErrorDetails | src/providers/deepseek.rs:186-200 | the push loop builds exactly the specified details |
| OpenRouter.SupportsModelMeaning | src/session/providers/openrouter.rs:50-59 | a model is supported exactly when it contains `/` or starts with a listed vendor prefix |
| OpenRouter.CachingMeaning | src/session/providers/openrouter.rs:74-77 | `anthropic…` models are supported and cache; a caching model without `claude` names anthropic |
| OpenRouter.GetApiKey | src/session/providers/openrouter.rs:61-72 | the configured key wins, then the environment's; the error exactly when neither is set |
| OpenRouter.ToolList | src/session/providers/openrouter.rs:120-140 | one definition per function, plus the two Anthropic tools for `claude-sonnet-4` models |
| OpenRouter.BuildTools | src/session/providers/openrouter.rs:117-153 | the request's tools are the specified list |
| OpenRouter.NoCacheControlInDefinition | src/session/providers/openrouter.rs:120-130 | a function's definition carries no cache marker of its own |
| OpenRouter.NoCacheControlInAnthropicTools | src/session/providers/openrouter.rs:133-140 | neither Anthropic tool carries a cache marker |
| OpenRouter.CacheMarkerOnLastTool | src/session/providers/openrouter.rs:117-153 | tools are sent exactly with MCP on and some function; only the last tool gets the cache marker, and only for a caching model; the others are the functions' definitions in order |
| OpenRouter.ExtractedCalls | src/session/providers/openrouter.rs:248-300 | never more calls than entries |
| OpenRouter.FillIds | src/session/providers/openrouter.rs:301 | one call per call |
| OpenRouter.ExtractedCallMeaning | src/session/providers/openrouter.rs:252-297 | a `function` entry with a name and arguments gives a call: `{}` for blank arguments, the raw string when they do not parse, an empty id when missing; the flat form needs an id and a name |
| OpenRouter.FillIdsMeaning | src/mcp/mod.rs:232-238 | every call handed on has an id, its own when it had one; name and parameters unchanged |
| OpenRouter.CollectCalls | src/session/providers/openrouter.rs:250-298 | the extraction loop returns the specified calls |
| OpenRouter.FillIdsInPlace | src/session/providers/openrouter.rs:301 | the id-filling returns the specified calls |
| OpenRouter.ExtractToolCalls | src/session/providers/openrouter.rs:248-309 | the message's tool calls, extracted and given ids, None without a non-empty array |
| OpenRouter.ReplyOutcomeMeaning | src/session/providers/openrouter.rs:170-355 | a reply succeeds exactly when it parses, has a success status, no `error` and a first choice message; a body error is reported as such; usage is present exactly when the reply has it |
| OpenRouter.ConvertMessages | src/session/providers/openrouter.rs:357-529 | the conversion loop returns the specified messages and the count of cache markers |
| OpenRouter.ConvertOneMeaning | src/session/providers/openrouter.rs:357-529 | one wire message per message with its role; tool messages carry their call id and name, assistants their tool calls; a cached message is a one-part array with the cache marker, otherwise plain text |
| OpenRouter.LegacyExpansion | src/session/providers/openrouter.rs:432-470 | a legacy `<fnr>` user message whose array starts with a tool entry expands to one tool message per entry; any other array gives one tool message with the fixed legacy id and name |
| OpenRouter.ConvertedOneToOne | src/session/providers/openrouter.rs:357-529 | without legacy messages the conversion is one to one and in order |
| OpenRouter.ChatCompletion | src/session/providers/openrouter.rs:79-355 | without a key nothing is sent and the key error returned; otherwise the converted messages and tools are sent and the reply's outcome returned |
| DeepSeek.SupportsModelExamples | src/providers/deepseek.rs:297-303 | the models the provider's test names: `deepseek-chat` and `deepseek-coder` are served, `gpt-4` is not; matching is by prefix |
| DeepSeek.ServedModelCapabilities | src/providers/deepseek.rs:84-114 | every served model has the fixed context window, takes a temperature, and has no caching or vision |
| DeepSeek.FirstPricing | src/providers/deepseek.rs:36-45 | the pricing row used is the first whose name the model contains; None exactly when no row matches |
| DeepSeek.CalculateCostMeaning | src/providers/deepseek.rs:28-45 | a served model costs 0.20 per million input and 0.40 per million output tokens; a model naming neither row has no price |
| DeepSeek.CalculateCostExample | src/providers/deepseek.rs:305-310 | 1000 input and 1000 output tokens of `deepseek-chat` cost 0.0006, as the test expects |
| DeepSeek.ConvertMessages | src/providers/deepseek.rs:275-287 | one wire message per message, in order, with its role and its content as a plain string |
| DeepSeek.ReplyOutcomeMeaning | src/providers/deepseek.rs:170-273 | a reply succeeds exactly when it parses, has a success status and a first choice message; it never has tool calls; usage has no cached tokens and the measured time; a failed status gives `DeepSeek API error: HTTP …` |
| DeepSeek.ChatCompletion | src/providers/deepseek.rs:116-273 | a cancellation and then a missing key fail before sending; otherwise the converted messages are sent and the reply's outcome returned |
| ConfigCommand.ParseLogLevel | src/commands/config.rs:177-200 | `--log-level` is accepted exactly when its lower-cased value is `none`, `info` or `debug` |
| ConfigCommand.LogLevelCaseInsensitive | src/commands/config.rs:178 | the level chosen does not depend on the case of the value |
| ConfigCommand.LogLevelRoundTrip | src/commands/config.rs:965 | the name a level is shown under reads back as that level |
| ConfigCommand.ProviderServersRegistered | src/commands/config.rs:237-254 | every server `--mcp-providers` leaves is the registered server of its name |
| ConfigCommand.ProviderServersNames | src/commands/config.rs:237-254 | the servers left are exactly the names given, each once |
| ConfigCommand.ProviderServersOrder | src/commands/config.rs:237-254 | the servers are in the order their names first appear |
| ConfigCommand.KeyValue | src/commands/config.rs:282-283 | a part is read as a key and value exactly when cutting it at `=` gives two pieces |
| ConfigCommand.ArgListMembers | src/commands/config.rs:294-300 | the `args` of a server are exactly the non-empty trimmed pieces between spaces |
| ConfigCommand.ArgListShape | src/commands/config.rs:294-300 | no argument is empty, holds a space or starts or ends with whitespace |
| ConfigCommand.SetFieldKeeps | src/commands/config.rs:286-320 | an assignment changes only the field its key names; name, type, tools and builtin never change |
| ConfigCommand.SetFieldSets | src/commands/config.rs:286-320 | `url` and `command` set their field; an unknown mode or an unparsable timeout leaves the field as it was |
| ConfigCommand.Assignments | src/commands/config.rs:281-283 | one key and value reading per part after the name |
| ConfigCommand.ApplyAllKeeps | src/commands/config.rs:281-321 | applying all the parts never changes the name, type, tools or builtin flag |
| ConfigCommand.ApplyAllEndpoint | src/commands/config.rs:281-321 | after all parts a server has a url (command) exactly when it had one or some part assigns it |
| ConfigCommand.ApplyAllDefaults | src/commands/config.rs:281-321 | with no part naming them the mode and the timeout keep their values |
| ConfigCommand.ServerFromPartsMeaning | src/commands/config.rs:264-321 | a new server is external, not builtin, named by the trimmed first part, HTTP with a 30 second timeout unless a part says otherwise, and has a url or command exactly when a part assigns one |
| ConfigCommand.NoneNamedAfterRemoval | src/commands/config.rs:341 | after the `retain` no server has the new server's name |
| ConfigCommand.ReplaceServerMeaning | src/commands/config.rs:341-344 | the new server is the last and the only one of its name; the other servers are kept in order |
| ConfigCommand.BuildServer | src/commands/config.rs:264-321 | the loop over the parts builds the server the parts describe |
| ConfigCommand.AssignField | src/commands/config.rs:286-320 | the `match key` sets the field the assignment describes |
| ConfigCommand.SystemPromptMeaning | src/commands/config.rs:352-363 | `--system default`, in any case, clears the prompt; any other value becomes the prompt as given |
| ConfigCommand.StoppedStays | src/commands/config.rs:140-363 | after a flag stops the command no later flag changes anything |
| ConfigCommand.AbsentFlag | src/commands/config.rs:140-363 | a flag that is not given changes nothing |
| ConfigCommand.ModelRejected | src/commands/config.rs:140-145 | a model without `:` stops the command with nothing changed and nothing saved |
| ConfigCommand.ApiKeyNeverSaves | src/commands/config.rs:153-174 | `--api-key` always stops the command before saving, after only the model flag's change |
| ConfigCommand.SavedMeansEdited | src/commands/config.rs:132-135 | a saved configuration is either a reset of a field that has a default or one some editing flag changed and none stopped, and the save succeeded; a flag that stops the editing rejects the command |
| ConfigCommand.InspectKeeps | src/commands/config.rs:85-136 | among the inspecting flags only a reset changes the settings; a failed validation, and only that, is reported with the checker's message; an unknown field is reported exactly for a reset of a field without a default |
| ConfigCommand.Config.RunInspection | src/commands/config.rs:85-136 | the inspecting flags in the command's order, with the reset's settings put in place before the save (src/commands/config.rs:935-960) |
| ConfigCommand.AddServerMeaning | src/commands/config.rs:323-347 | an external server with neither url nor command stops the command; otherwise it becomes the last and only server of its name |
| ConfigCommand.ServerPartsMeaning | src/commands/config.rs:257-349 | fewer than two parts change nothing; otherwise the command stops exactly when no part gives a url or command, else the built server is added |
| ConfigCommand.Config.FieldValue | src/commands/config.rs:963-1019 | an unknown field gives `Unknown field`; `system` gives the prompt or `None` |
| ConfigCommand.FieldValueReadsBack | src/commands/config.rs:963-972 | the shown log level and thresholds read back as the configuration's values |
| ConfigCommand.Config.SetProviders | src/commands/config.rs:237-254 | the loop leaves the servers the providers' names describe |
| ConfigCommand.Config.ModelFlag | src/commands/config.rs:140-150 | the model flag's step of the plan, or the stop it causes |
| ConfigCommand.Config.ApiKeyFlag | src/commands/config.rs:153-174 | a given `--api-key` stops the command |
| ConfigCommand.Config.LogLevelFlag | src/commands/config.rs:177-200 | the log level flag's step of the plan, or the stop it causes |
| ConfigCommand.Config.MarkdownFlag | src/commands/config.rs:206-217 | the markdown flag's step of the plan |
| ConfigCommand.Config.ThemeFlag | src/commands/config.rs:220-234 | a known theme is set; an unknown one stops the command |
| ConfigCommand.Config.ProvidersFlag | src/commands/config.rs:237-254 | the providers flag's step of the plan |
| ConfigCommand.Config.ServerFlag | src/commands/config.rs:257-349 | the server flag's step of the plan, or the stop it causes |
| ConfigCommand.Config.AddServerFlag | src/commands/config.rs:323-347 | adds the built server, or stops when it has no endpoint, leaving the servers as they were |
| ConfigCommand.Config.SystemFlag | src/commands/config.rs:352-363 | the system prompt flag's step, the last of the plan |
| ConfigCommand.Config.Execute | src/commands/config.rs:85-390 | the outcome and the settings are the whole command's: the inspection's, or the plan's settings with the outcome saved, unchanged or rejected as the plan and the save decide |
| WebFormatters.FieldTexts | src/mcp/web/formatters.rs:46-58 | one text per field of a result line, in order, each the field's text |
| WebFormatters.Ranked | src/mcp/web/formatters.rs:45-64 | one line per result |
| WebFormatters.PushResultLines | src/mcp/web/formatters.rs:45-64 | the enumerate loop appends each result's ranked line and a newline, in order |
| WebFormatters.Format | src/mcp/web/formatters.rs:21-67 | the formatters, with their loop, give what the listing definition gives |
| WebFormatters.FormatResultsMeaning | src/mcp/web/formatters.rs:21-67 | an error exactly when the section has no `results` array; a fixed message for an empty array; otherwise, cut at newlines, the header, a blank line and one line per result ranked from 1 |
| WebFormatters.ResultLineOneLine | src/mcp/web/formatters.rs:60-63 | a result whose fields hold no newline gives a single line |
| WebFormatters.RankedOneLine | src/mcp/web/formatters.rs:45-64 | so does every result of a listing |
| WebFormatters.HeaderThenLines | src/mcp/web/formatters.rs:43-64 | a header, a blank line and newline-terminated lines split back into those lines |
| WebFormatters.HeaderOneLine | src/mcp/web/formatters.rs:43 | the header holds no newline when the query holds none |
| WebFormatters.FieldTextMeaning | src/mcp/web/formatters.rs:46-58 | a field is its prefix and the string at its path, or its prefix and its fallback text |
| WebFormatters.EmptyResultFallbacks | src/mcp/web/formatters.rs:70-165 | a result with no fields shows every field's fallback text |
| WebApiClient.ExtractAndValidateQuery | src/mcp/web/api_client.rs:22-41 | a query is accepted exactly when it is a string with something besides whitespace, and is returned untrimmed |
| WebApiClient.QueryErrors | src/mcp/web/api_client.rs:22-41 | a missing, blank or non-string query each gives its own message |
| WebApiClient.ApiErrorResult | src/mcp/web/api_client.rs:107-118 | the error result belongs to the tool and call |
| WebApiClient.ApiErrorResultMeaning | src/mcp/web/api_client.rs:107-118 | the error result is flagged as an error and reads back as `Failed to execute … search: …` |
| BraveSearch.ValidateQuery | src/mcp/web/search.rs:111-128 | a query is accepted exactly when it is a string within the byte and word limits |
| BraveSearch.QueryLimits | src/mcp/web/search.rs:117-128 | an accepted query has 1 to 400 bytes and at most 50 words; an ASCII query within those is accepted; empty and too long queries get their messages |
| BraveSearch.Clamp | src/mcp/web/search.rs:131-143 | the value is kept when in range and otherwise replaced by the nearer bound |
| BraveSearch.ReadSettings | src/mcp/web/search.rs:131-177 | count is 1 to 20, defaulting to 20; offset is 0 to 9, defaulting to 0; the strings default to `US`, `en`, `en-US`, `moderate`; freshness is optional |
| BraveSearch.PushUnlessDefault | src/mcp/web/search.rs:182-199 | a parameter is pushed only when it differs from its default |
| BraveSearch.BuildQueryParams | src/mcp/web/search.rs:179-199 | the loop builds the parameter list the settings describe |
| BraveSearch.OptionalNames | src/mcp/web/search.rs:179-199 | the optional parameters have distinct names, none of them `q` |
| BraveSearch.SentUnlessDefault | src/mcp/web/search.rs:179-199 | `q` comes first, and each optional parameter is sent exactly when it differs from its default |
| BraveSearch.FormatSearchResults | src/mcp/web/search.rs:292-362 | this formatter always succeeds |
| BraveSearch.FormatSearch | src/mcp/web/search.rs:292-362 | its loop gives what the listing definition gives |
| BraveSearch.SameLinesAsFormatter | src/mcp/web/search.rs:323-362 | its result lines are the shared formatter's, under another header; where the shared one fails on a missing array this one answers with a message |
| BraveSearch.SearchHeaderOneLine | src/mcp/web/search.rs:330-333 | the header with the total count holds no newline when the query holds none |
| BraveSearch.SearchListingLines | src/mcp/web/search.rs:323-362 | cut at newlines, the text is the header, a blank line and the ranked result lines |
| BraveSearch.Respond | src/mcp/web/search.rs:231-289 | a successful answer belongs to `web_search` and the call |
| BraveSearch.RespondSuccess | src/mcp/web/search.rs:231-289 | the answer succeeds exactly when the status is a success and the body is read and parsed; it is then a success result holding the formatted text |
| BraveSearch.StatusErrors | src/mcp/web/search.rs:231-258 | 401, 403, 422 and 429 each have their own message; any other failing status shows the status and the body |
| BraveSearch.ExecuteWebSearch | src/mcp/web/search.rs:100-290 | a successful answer belongs to `web_search` and the call |
| BraveSearch.ExecuteOutcome | src/mcp/web/search.rs:100-290 | no key fails first; then a refused query fails with its message; otherwise the request is sent with the call's settings and the reply answered |
| BraveTools.U32Param | src/mcp/web/web_search.rs:126-135 | a number parameter is below 2^32, the default when absent and the value itself when it fits |
| BraveTools.U32ParamWraps | src/mcp/web/web_search.rs:126-135 | a 64-bit value keeps its low 32 bits; a value that is not a u64 gives the default |
| BraveTools.ReadListing | src/mcp/web/web_search.rs:126-155 | count defaults to 20, offset to 0; freshness is the string given, if any |
| BraveTools.ReadImage | src/mcp/web/image_search.rs:113-137 | count defaults to 50, safesearch to `strict`, spellcheck to true |
| BraveTools.FormattedUrlPieces | src/mcp/web/web_search.rs:158-167 | cut at `&`, the URL is the endpoint with the encoded query and the six parameters in order |
| BraveTools.ListingUrlPieces | src/mcp/web/web_search.rs:158-172 | the same, with `freshness` as a seventh parameter exactly when it was given |
| BraveTools.FreshnessPiece | src/mcp/web/web_search.rs:169-172 | pushing `&freshness=` adds one parameter to the URL |
| BraveTools.ImageUrlPieces | src/mcp/web/image_search.rs:140-148 | cut at `&`, an image URL is the endpoint with the encoded query and count, country, search_lang, safesearch and spellcheck |
| BraveTools.Execute | src/mcp/web/web_search.rs:104-208 | a successful answer belongs to the kind's tool and the call |
| BraveTools.ExecuteOutcome | src/mcp/web/web_search.rs:104-208 | only an accepted query without a key fails the call; a refused query, a failed request or a response without results gives an error result; otherwise a success holding the listing |

## Left out

- ExtractQuoted: a marker with no closing quote after it gives `Err(NO_CLOSING_QUOTE)`, where the source's `unwrap` on the second `find` panics (src/session/chat/session/runner.rs:68-69, 77-78, 86-87, 95-96); a panic has no value to model.
- ParseSessionArgs: passes that error on, so a debug string with an unclosed quote is an `Err` here and a panic in the source.
- CostTracker.TrackExchangeCost: the token counters are unbounded integers; the source's `u64` additions would overflow (a panic in debug builds, wrap-around in release) beyond 2^64 - 1, which is not modelled.
- ToolResultProcessor.ProcessToolResults: the same for the `u64` tool-time total (src/session/chat/response/tool_result_processor.rs:42). Its transcript is the one before `check_and_truncate_context` (tool_result_processor.rs:119, 141, 159) and `check_and_apply_auto_cache_threshold` (178) may truncate it or mark cache points; those functions are not part of this model, and only the positions at which they are called (`immediate`, `batch`) are modelled.
- McpCore.ExecuteToolCall: returns the result without the elapsed `tool_time_ms` that `execute_tool_call` pairs with it (src/mcp/mod.rs:510-522); that is a clock reading, and the callers' tool times are parameters of the model instead.
- ChatSessions.ChatSession.AddToolMessage: cannot fail; the source propagates an error from it with `?` (src/session/chat/response/tool_result_processor.rs:108), whose cause is not part of this model.
- ChatSessions.ChatSession.AddUserMessage: cannot fail either; the source calls `add_user_message(...)?` (src/session/chat/session/runner.rs:740, src/session/chat/context_reduction.rs:53) and passes its error on.
- Json.Serialize: writes object fields in insertion order. serde_json without its `preserve_order` feature writes them sorted by key, so the request bodies OpenRouter and DeepSeek build may list fields in another order; the crate's feature set (Cargo.toml) is not part of this model.
- Json: numbers are integers; floating-point values and temperatures are left out.
- DeepSeek.CalculateCost: computes the price in exact reals; the `f64` rounding of src/providers/deepseek.rs:36-41 is left out (its test accepts any value within 1e-6 of 0.0006), and so is the `cost` field the source stores in the usage. Other dollar figures (cost ratios, `saving_pct`) are left out.
- ToolMap.ConfigFingerprint: stands for the `u64` that `DefaultHasher` computes (src/mcp/tool_map.rs:237-250) and is taken as collision-free, so two configurations with equal hashes but different fields, which the source would treat as unchanged, are not modelled.
- McpCore.InternalFunctionCache.ServerFunctions, McpCore.GetAvailableFunctions, McpCore.BuildToolServerMap, ToolMap.ToolMapState.Initialize: follow the corrected tuple-keyed cache; the source's callers use the colliding string key (src/mcp/mod.rs:434-438), so with the Findings input they return the stale unfiltered catalogue, which only `McpCore.StaleCacheHit` models.
- ConfigCommand.Config.RunInspection: `--show`, `--upgrade`, `--show-customized` and `--show-defaults` succeed here; in the source they can fail through `?` on terminal or file I/O, and `--upgrade` rewrites the configuration file. The validation result, the field's default and the reset configuration come from `Config::validate`, `get_default_value_string` and `reset_to_default`, which are not part of this model, so they are parameters; the printed current and default values are not modelled.
- SessionRunner.Runner.Exchange: the context truncation, the cache checkpoint, the spending check, the provider call and response processing are not part of this model; their results are parameters (`truncated`, `checkpointed`, `spending`, `api`, `transcriptAfter`). The animation task and the saving of the session after a checkpoint are left out.
- GenericLayer.ProcessRecursiveToolCalls: each pass's cancellation flags, tool results, tool time and follow-up are inputs (`rounds`); the loop runs over a finite list of rounds, and running out of them is the outcome `OutOfRounds`, which the source, looping until a pass breaks, does not have.
- Network, processes and concurrency: HTTP requests, child processes, `tokio` tasks, locks, polling loops and the Ctrl+C handler are left out; cancellation is a boolean input, request outcomes are inputs, and the global caches are class fields updated one call at a time.
- Terminal output, the confirmation prompt (the user's answer is an input), logging, UUID generation and the current time are left out or parameters.
- Configuration loading, migrations and file writes, `main.rs`, `commands/run.rs`, the `octocode` auto-commit, the web module's wrappers and the static tool schemas are not part of this model; tool catalogues are constants or parameters.

## Findings

| source | as written | input that shows it | evidently intended | confidence | as-written member | corrected member |
|---|---|---|---|---|---|---|
| src/mcp/mod.rs:434-438 | the cache key is `{type}_all` without an allow-list and `{type}_{patterns joined by ","}` with one, so different allow-lists can share a key (also `["a,b"]` and `["a", "b"]`) | `developer` looked up with no allow-list, then with `["all"]`: both use `developer_all`, so the second lookup returns the whole catalogue although `all` admits no tool named `shell` | a key that determines the allow-list, so every lookup returns the catalogue filtered by its own patterns | not executed; the collision follows from the key's construction | McpCore.StaleCacheHit | McpCore.InternalFunctionCache.GetCachedInternalFunctions |
