/** External MCP servers: the JSON-RPC 2.0 messages sent to them, reading a
    `tools/list` reply, the per-server function cache with its fallback to
    the configured tool names, the running checks, the health gate in front
    of a tool call, and turning a `tools/call` reply into a tool result. */
module McpServer {
  import opened Wrappers
  import opened Strings
  import opened Json
  import opened ConfigMcp
  import opened McpCore
  import opened ServerProcess

  // ---------------------------------------------------------------------
  // JSON-RPC requests
  // ---------------------------------------------------------------------

  /** `create_tools_list_request` (fields in serde_json's sorted key order). */
  function CreateToolsListRequest(): Json {
    JObject([("id", JNum(1)), ("jsonrpc", JString("2.0")), ("method", JString("tools/list")),
             ("params", JObject([]))])
  }

  /** `create_initialize_request`, announcing protocol revision 2024-11-05. */
  function CreateInitializeRequest(): Json {
    JObject([("id", JNum(1)), ("jsonrpc", JString("2.0")), ("method", JString("initialize")),
             ("params", JObject([
               ("capabilities", JObject([])),
               ("clientInfo", JObject([("name", JString("octomind-health-check")), ("version", JString("1.0.0"))])),
               ("protocolVersion", JString("2024-11-05"))]))])
  }

  /** `create_tools_call_request` */
  function CreateToolsCallRequest(toolName: string, parameters: Json): Json {
    JObject([("id", JNum(1)), ("jsonrpc", JString("2.0")), ("method", JString("tools/call")),
             ("params", JObject([("arguments", parameters), ("name", JString(toolName))]))])
  }

  /** A Request object in the sense of section 4 of JSON-RPC 2.0: version
      "2.0", a method name, a numeric id, and structured params. */
  predicate IsRequest(j: Json, methodName: string) {
    j.JObject?
    && GetStr(j, "jsonrpc") == Some("2.0")
    && GetStr(j, "method") == Some(methodName)
    && Get(j, "id").Some? && Get(j, "id").value.JNum?
    && Get(j, "params").Some? && (Get(j, "params").value.JObject? || Get(j, "params").value.JArray?)
  }

  /** The four fields every request starts with are found where they are
      written. */
  lemma RequestFields(methodName: string, params: Json)
    ensures var j := JObject([("id", JNum(1)), ("jsonrpc", JString("2.0")), ("method", JString(methodName)), ("params", params)]);
      Get(j, "id") == Some(JNum(1)) && Get(j, "jsonrpc") == Some(JString("2.0"))
      && Get(j, "method") == Some(JString(methodName)) && Get(j, "params") == Some(params)
  {
    var fs := [("id", JNum(1)), ("jsonrpc", JString("2.0")), ("method", JString(methodName)), ("params", params)];
    LookupAt(fs, "id", 0);
    LookupAt(fs, "jsonrpc", 1);
    assert "id" != "method" && "jsonrpc" != "method";
    LookupAt(fs, "method", 2);
    assert "method"[0] != "params"[0];
    LookupAt(fs, "params", 3);
  }

  /** Any request written with the four standard fields and object params
      is a well-formed request for its method. */
  lemma RequestShape(methodName: string, params: Json)
    requires params.JObject?
    ensures IsRequest(JObject([("id", JNum(1)), ("jsonrpc", JString("2.0")), ("method", JString(methodName)),
                               ("params", params)]), methodName)
  {
    RequestFields(methodName, params);
  }

  /** The three builders produce well-formed requests for the Model Context
      Protocol methods they name. */
  lemma RequestsWellFormed(toolName: string, parameters: Json)
    ensures IsRequest(CreateToolsListRequest(), "tools/list")
    ensures IsRequest(CreateInitializeRequest(), "initialize")
    ensures IsRequest(CreateToolsCallRequest(toolName, parameters), "tools/call")
  {
    RequestShape("tools/list", JObject([]));
    RequestShape("initialize", CreateInitializeRequest().fields[3].1);
    RequestShape("tools/call", CreateToolsCallRequest(toolName, parameters).fields[3].1);
  }

  /** A `tools/call` request carries the tool name and its arguments
      unchanged. */
  lemma ToolsCallCarriesArguments(toolName: string, parameters: Json)
    ensures var params := Get(CreateToolsCallRequest(toolName, parameters), "params");
      params.Some? && Get(params.value, "name") == Some(JString(toolName))
      && Get(params.value, "arguments") == Some(parameters)
  {
    var params := JObject([("arguments", parameters), ("name", JString(toolName))]);
    RequestFields("tools/call", params);
    LookupAt(params.fields, "arguments", 0);
    assert "arguments" != "name";
    LookupAt(params.fields, "name", 1);
  }

  // ---------------------------------------------------------------------
  // Reading a tools/list reply
  // ---------------------------------------------------------------------

  /** One entry of `result.tools`: kept when it has a string name and
      description that the server's allow-list admits; its schema defaults
      to the empty object. */
  function ToolFromItem(item: Json, allowed: seq<string>): Option<McpFunction> {
    var name := GetStr(item, "name");
    var description := GetStr(item, "description");
    if name.Some? && description.Some? && AllowedBy(allowed, name.value) then
      Some(McpFunction(name.value, description.value, Get(item, "inputSchema").GetOr(JObject([]))))
    else None
  }

  /** The values an item-wise partial map yields, in item order. */
  function Kept<T, U>(items: seq<T>, g: T -> Option<U>): seq<U> {
    if items == [] then []
    else
      var last := g(items[|items| - 1]);
      Kept(items[..|items| - 1], g) + (if last.Some? then [last.value] else [])
  }

  /** Some item yields `u`. */
  predicate Yields<T, U(==)>(items: seq<T>, g: T -> Option<U>, u: U) {
    exists i :: 0 <= i < |items| && g(items[i]) == Some(u)
  }

  lemma {:induction false} KeptMembers<T, U>(items: seq<T>, g: T -> Option<U>, u: U)
    ensures u in Kept(items, g) <==> Yields(items, g, u)
  {
    if items != [] {
      var n := |items| - 1;
      var init := items[..n];
      KeptMembers(init, g, u);
      if Yields(items, g, u) {
        var i :| 0 <= i < |items| && g(items[i]) == Some(u);
        if i < n {
          assert init[i] == items[i];
        }
      }
      if Yields(init, g, u) {
        var i :| 0 <= i < |init| && g(init[i]) == Some(u);
        assert items[i] == init[i];
      }
    }
  }

  lemma {:induction false} KeptLength<T, U>(items: seq<T>, g: T -> Option<U>)
    ensures |Kept(items, g)| <= |items|
  {
    if items != [] {
      KeptLength(items[..|items| - 1], g);
    }
  }

  /** The functions of a `tools/list` reply's entries, in order. */
  function ToolsFromItems(items: seq<Json>, allowed: seq<string>): seq<McpFunction> {
    Kept(items, item => ToolFromItem(item, allowed))
  }

  /** The functions listed under `result.tools`; none when that member is
      missing or not an array. */
  function ResultTools(result: Json, allowed: seq<string>): seq<McpFunction> {
    var tools := Get(result, "tools");
    if tools.Some? && tools.value.JArray? then ToolsFromItems(tools.value.items, allowed) else []
  }

  /** The error a `tools/list` reply with an `error` member turns into. */
  function RpcErrorText(error: Json): string {
    "JSON-RPC error from MCP server: " + Serialize(error)
  }

  /** The error for a reply with neither `error` nor `result`. */
  const MISSING_RESULT := "Invalid JSON-RPC response: missing 'result' field"

  /** What `parse_tools_from_jsonrpc_response` returns for a reply. */
  function ParsedTools(response: Json, server: McpServerConfig): Result<seq<McpFunction>> {
    var error := Get(response, "error");
    var result := Get(response, "result");
    if error.Some? then Err(RpcErrorText(error.value))
    else if result.None? then Err(MISSING_RESULT)
    else Ok(ResultTools(result.value, server.Tools()))
  }

  /** The loop of `parse_tools_from_jsonrpc_response` over `result.tools`. */
  method KeepTools(result: Json, allowed: seq<string>) returns (functions: seq<McpFunction>)
    ensures functions == ResultTools(result, allowed)
  {
    var tools := Get(result, "tools");
    if !(tools.Some? && tools.value.JArray?) {
      return [];
    }
    var items := tools.value.items;
    functions := [];
    var i := 0;
    while i < |items|
      invariant 0 <= i <= |items|
      invariant functions == ToolsFromItems(items[..i], allowed)
    {
      assert items[..i + 1][..i] == items[..i] && items[..i + 1][i] == items[i];
      var name := GetStr(items[i], "name");
      var description := GetStr(items[i], "description");
      if name.Some? && description.Some? {
        var admitted := IsToolAllowedByPatterns(name.value, allowed);
        if admitted {
          var parameters := Get(items[i], "inputSchema").GetOr(JObject([]));
          functions := functions + [McpFunction(name.value, description.value, parameters)];
        }
      }
      i := i + 1;
    }
    assert items[..i] == items;
  }

  /** `parse_tools_from_jsonrpc_response` */
  method ParseToolsFromJsonRpcResponse(response: Json, server: McpServerConfig) returns (r: Result<seq<McpFunction>>)
    ensures r == ParsedTools(response, server)
  {
    var error := Get(response, "error");
    var result := Get(response, "result");
    if error.Some? {
      r := Err(RpcErrorText(error.value));
    } else if result.None? {
      r := Err(MISSING_RESULT);
    } else {
      var functions := KeepTools(result.value, server.Tools());
      r := Ok(functions);
    }
  }

  /** Some entry of the reply produces `f`. */
  predicate Produces(items: seq<Json>, allowed: seq<string>, f: McpFunction) {
    exists i :: 0 <= i < |items| && ToolFromItem(items[i], allowed) == Some(f)
  }

  /** A function is in the parsed list exactly when some entry of the reply
      produces it. */
  lemma ToolsFromItemsMembers(items: seq<Json>, allowed: seq<string>, f: McpFunction)
    ensures f in ToolsFromItems(items, allowed) <==> Produces(items, allowed, f)
  {
    var g := item => ToolFromItem(item, allowed);
    KeptMembers(items, g, f);
    if Produces(items, allowed, f) {
      var i :| 0 <= i < |items| && ToolFromItem(items[i], allowed) == Some(f);
      assert g(items[i]) == Some(f);
    }
  }

  /** Every parsed function has a name the server's allow-list admits. */
  lemma ToolsFromItemsAllowed(items: seq<Json>, allowed: seq<string>, f: McpFunction)
    requires f in ToolsFromItems(items, allowed)
    ensures AllowedBy(allowed, f.name)
  {
    ToolsFromItemsMembers(items, allowed, f);
    var i :| 0 <= i < |items| && ToolFromItem(items[i], allowed) == Some(f);
  }

  /** There are never more parsed functions than entries. */
  lemma ToolsFromItemsLength(items: seq<Json>, allowed: seq<string>)
    ensures |ToolsFromItems(items, allowed)| <= |items|
  {
    KeptLength(items, item => ToolFromItem(item, allowed));
  }

  /** A reply with an `error` member, or without a `result`, is rejected
      (section 5 of JSON-RPC 2.0); otherwise the parse succeeds, with no
      functions when `result.tools` is not an array. */
  lemma ParsedToolsOutcome(response: Json, server: McpServerConfig)
    ensures ParsedTools(response, server).Err? <==> Get(response, "error").Some? || Get(response, "result").None?
    ensures (ParsedTools(response, server).Ok?
             && !(Get(Get(response, "result").value, "tools").Some?
                  && Get(Get(response, "result").value, "tools").value.JArray?))
            ==> ParsedTools(response, server) == Ok([])
  {
  }

  // ---------------------------------------------------------------------
  // Fallback functions and the function cache
  // ---------------------------------------------------------------------

  /** A remote HTTP server: an address and no command to start. */
  predicate IsRemoteHttp(server: McpServerConfig) {
    server.ConnectionType() == HttpType && server.Url().Some? && server.Command().None?
  }

  function FallbackSuffix(server: McpServerConfig): string {
    if IsRemoteHttp(server) then "(remote server)" else "(server not started)"
  }

  /** `get_fallback_functions`: one entry per configured tool, described
      from the configuration alone. */
  function GetFallbackFunctions(server: McpServerConfig): seq<McpFunction> {
    var tools := server.Tools();
    if tools == [] then []
    else
      seq(|tools|, i requires 0 <= i < |tools| =>
        McpFunction(tools[i], "External tool '" + tools[i] + "' from server '" + server.Name() + "' "
                              + FallbackSuffix(server), JObject([])))
  }

  /** The fallback lists the configured tools in order, with empty schemas;
      the remote wording is used exactly for a server built on a remote
      connection. */
  lemma FallbackMeaning(server: McpServerConfig)
    ensures |GetFallbackFunctions(server)| == |server.Tools()|
    ensures forall i :: 0 <= i < |server.Tools()| ==>
      GetFallbackFunctions(server)[i].name == server.Tools()[i]
      && GetFallbackFunctions(server)[i].parameters == JObject([])
    ensures FallbackSuffix(server) == "(remote server)" <==> server.Http? && server.connection.Remote?
  {
  }

  /** `is_server_running_for_cache_check` */
  predicate IsServerRunningForCacheCheck(server: McpServerConfig, process: ProcessView) {
    if IsRemoteHttp(server) then true
    else if process.NoProcess? then false
    else if process.LockContended? then true
    else ChildRunning(process)
  }

  /** Remote servers and busy processes count as running; a server without a
      registered process does not, unless it is remote. */
  lemma RunningForCacheCheckCases(server: McpServerConfig, process: ProcessView)
    ensures server.Http? && server.connection.Remote? ==> IsServerRunningForCacheCheck(server, process)
    ensures process.LockContended? ==> IsServerRunningForCacheCheck(server, process)
    ensures process.NoProcess? ==> (IsServerRunningForCacheCheck(server, process) <==> server.Http? && server.connection.Remote?)
  {
  }

  /** `FUNCTION_CACHE`: the function list of each external server, by name,
      kept until the server restarts. */
  class FunctionCache {
    var entries: map<string, seq<McpFunction>>

    constructor ()
      ensures entries == map[]
    {
      entries := map[];
    }

    /** `get_server_functions_cached`: `fetch` is what asking the running
        server for its tools returns. A hit is returned as stored; only a
        successful fetch from a running server is stored; otherwise the
        fallback is returned. The lookup never fails. */
    method GetServerFunctionsCached(server: McpServerConfig, process: ProcessView, fetch: Result<seq<McpFunction>>)
      returns (r: Result<seq<McpFunction>>)
      modifies this
      ensures r.Ok?
      ensures server.Name() in old(entries) ==> r == Ok(old(entries)[server.Name()]) && entries == old(entries)
      ensures server.Name() !in old(entries) && IsServerRunningForCacheCheck(server, process) && fetch.Ok? ==>
        r == fetch && entries == old(entries)[server.Name() := fetch.value]
      ensures server.Name() !in old(entries) && !(IsServerRunningForCacheCheck(server, process) && fetch.Ok?) ==>
        r == Ok(GetFallbackFunctions(server)) && entries == old(entries)
    {
      var id := server.Name();
      if id in entries {
        return Ok(entries[id]);
      }
      if IsServerRunningForCacheCheck(server, process) {
        match fetch
        case Ok(functions) =>
          entries := entries[id := functions];
          return Ok(functions);
        case Err(_) =>
          return Ok(GetFallbackFunctions(server));
      }
      return Ok(GetFallbackFunctions(server));
    }

    /** `clear_function_cache_for_server` */
    method ClearForServer(name: string)
      modifies this
      ensures entries == old(entries) - {name}
    {
      entries := entries - {name};
    }

    /** `clear_all_function_cache` */
    method ClearAll()
      modifies this
      ensures entries == map[]
    {
      entries := map[];
    }
  }

  /** `is_server_already_running_with_config`: records the observed health
      and reports whether the server is up. Builtin and remote servers are
      always up; a local server is up when its child process is. The lock
      taken here blocks, so a contended lock is not an outcome. */
  method IsServerAlreadyRunningWithConfig(registry: RestartRegistry, server: McpServerConfig,
                                          process: ProcessView, now: int) returns (running: bool)
    requires !process.LockContended?
    modifies registry
    ensures running <==> server.Builtin? || IsRemoteHttp(server) || (!process.NoProcess? && ChildRunning(process))
    ensures registry.info == old(registry.info)[server.Name() :=
      old(registry.Get(server.Name())).(healthStatus := if running then Running else Dead, lastHealthCheck := Some(now))]
  {
    if server.Builtin? {
      registry.RecordHealth(server.Name(), Running, now);
      return true;
    }
    if IsRemoteHttp(server) {
      registry.RecordHealth(server.Name(), Running, now);
      return true;
    }
    running := if process.NoProcess? then false else ChildRunning(process);
    registry.RecordHealth(server.Name(), if running then Running else Dead, now);
  }

  // ---------------------------------------------------------------------
  // Executing a call on an external server
  // ---------------------------------------------------------------------

  /** What sending an HTTP request produced. */
  datatype HttpOutcome =
    | SendError(error: string)
      /** A non-2xx status, with its status line and the body text. */
    | NonSuccess(status: string, text: string)
    | BodyError(error: string)
    | Reply(body: Json)

  /** `execute_tool_call` in the server module: cancellation, then the
      recorded health; only a Running server is called. */
  function ExecuteToolCall(call: McpToolCall, server: McpServerConfig, cancelled: bool, health: ServerHealth,
                           internal: Result<McpToolResult>): Result<McpToolResult> {
    if cancelled then Err("External tool execution cancelled")
    else match health
      case Failed => Err("Server '" + server.Name() + "' is in failed state. Cannot execute tool '" + call.toolName
                         + "'. Server will not be restarted automatically.")
      case Restarting => Err("Server '" + server.Name() + "' is currently starting. Please try again in a moment.")
      case Dead => Err("Server '" + server.Name() + "' is not running. Cannot execute tool '" + call.toolName
                       + "'. Server will not be restarted automatically.")
      case Running => internal
  }

  /** The health gate never restarts anything: a call reaches the server only
      when it is not cancelled and the server is Running. */
  lemma HealthGate(call: McpToolCall, server: McpServerConfig, cancelled: bool, health: ServerHealth,
                   internal: Result<McpToolResult>)
    ensures ExecuteToolCall(call, server, cancelled, health, internal) == internal || ExecuteToolCall(call, server, cancelled, health, internal).Err?
    ensures !cancelled && health == Running ==> ExecuteToolCall(call, server, cancelled, health, internal) == internal
    ensures cancelled || health != Running ==> ExecuteToolCall(call, server, cancelled, health, internal).Err?
  {
  }

  /** The JSON-RPC reply reduced to the tool's output: an `error` member
      becomes an error record whose message defaults to "Server error";
      otherwise the `result` member, or the string "No result". */
  function JsonRpcOutput(reply: Json): Json {
    var error := Get(reply, "error");
    if error.Some? then
      JObject([("error", JBool(true)),
               ("message", JString(GetStr(error.value, "message").GetOr("Server error"))),
               ("success", JBool(false))])
    else Get(reply, "result").GetOr(JString("No result"))
  }

  /** A header value `HeaderValue::from_str` accepts: visible characters,
      spaces and tabs, but no other control character. */
  predicate IsValidHeaderValue(s: string) {
    forall i :: 0 <= i < |s| ==> s[i] == '\t' || (' ' <= s[i] && s[i] != '\U{007F}')
  }

  /** `execute_tool_call_internal`: `baseUrl` is the base-URL lookup,
      `outcome` the HTTP exchange, `stdin` what the stdin transport returns. */
  function ExecuteToolCallInternal(call: McpToolCall, server: McpServerConfig, cancelled: bool,
                                   baseUrl: Result<string>, outcome: HttpOutcome,
                                   stdin: Result<McpToolResult>): Result<McpToolResult> {
    if cancelled then Err("External tool execution cancelled")
    else match server
      case Http(_, _, _, _) =>
        if baseUrl.Err? then Err(baseUrl.msg)
        else if server.AuthToken().Some? && !IsValidHeaderValue("Bearer " + server.AuthToken().value) then
          Err("failed to parse header value")
        else (match outcome
          case SendError(e) => Err(e)
          case NonSuccess(status, text) => Err("Failed to execute tool on MCP server: " + status + ", " + text)
          case BodyError(e) => Err(e)
          case Reply(body) => Ok(Success(call.toolName, call.toolId, Pretty(JsonRpcOutput(body)))))
      case Stdin(_, _, _, _, _) => stdin
      case Builtin(_, _, _) => Err("Built-in servers should not use execute_tool_call")
  }

  /** A reply from an HTTP server always becomes a success result for the
      call, whose text is the pretty-printed output; a JSON-RPC error is
      reported inside that text, not through the `isError` flag. */
  lemma HttpReplyResult(call: McpToolCall, server: McpServerConfig, baseUrl: string, body: Json,
                        stdin: Result<McpToolResult>)
    requires server.Http? && (server.AuthToken().None? || IsValidHeaderValue("Bearer " + server.AuthToken().value))
    ensures var r := ExecuteToolCallInternal(call, server, false, Ok(baseUrl), Reply(body), stdin);
      r.Ok? && r.value.toolName == call.toolName && r.value.toolId == call.toolId
      && IsErrorFlag(r.value) == Some(false)
      && ExtractMcpContent(r.value.result) == Pretty(JsonRpcOutput(body))
  {
    var text := Pretty(JsonRpcOutput(body));
    HttpReplyIsSuccess(call, server, baseUrl, body, stdin);
    ExtractWrapperRoundTrip(call.toolName, call.toolId, text, JNull);
    WrapperFlags(call.toolName, call.toolId, text, JNull);
  }

  lemma HttpReplyIsSuccess(call: McpToolCall, server: McpServerConfig, baseUrl: string, body: Json,
                           stdin: Result<McpToolResult>)
    requires server.Http? && (server.AuthToken().None? || IsValidHeaderValue("Bearer " + server.AuthToken().value))
    ensures ExecuteToolCallInternal(call, server, false, Ok(baseUrl), Reply(body), stdin)
         == Ok(Success(call.toolName, call.toolId, Pretty(JsonRpcOutput(body))))
  {
    assert !(server.AuthToken().Some? && !IsValidHeaderValue("Bearer " + server.AuthToken().value));
  }

  /** An error reply is reported as `error: true, success: false` with the
      server's message; any other reply yields its `result`, or "No result". */
  lemma JsonRpcOutputMeaning(body: Json)
    ensures Get(body, "error").Some? ==>
      Get(JsonRpcOutput(body), "error") == Some(JBool(true)) && Get(JsonRpcOutput(body), "success") == Some(JBool(false))
      && GetStr(JsonRpcOutput(body), "message") == Some(GetStr(Get(body, "error").value, "message").GetOr("Server error"))
    ensures Get(body, "error").None? ==>
      JsonRpcOutput(body) == if Get(body, "result").Some? then Get(body, "result").value else JString("No result")
  {
    if Get(body, "error").Some? {
      var fs := JsonRpcOutput(body).fields;
      LookupAt(fs, "error", 0);
      assert "error" != "message";
      LookupAt(fs, "message", 1);
      assert "error"[0] != "success"[0] && "message"[0] != "success"[0];
      LookupAt(fs, "success", 2);
    }
  }

  /** `get_server_base_url`: a remote address without its trailing slashes;
      a local server's address comes from starting it (`started`). */
  function GetServerBaseUrl(server: McpServerConfig, started: Result<string>): Result<string> {
    match server
    case Http(name, _, _, _) =>
      if server.Url().Some? then Ok(TrimEndMatches(server.Url().value, '/'))
      else if server.Command().Some? then started
      else Err("Invalid server configuration: neither URL nor command specified for server '" + name + "'")
    case Stdin(name, _, _, _, _) =>
      if server.Command().Some? then started
      else Err("Invalid server configuration: command not specified for stdin-based server '" + name + "'")
    case Builtin(_, _, _) => Err("Built-in servers don't have URLs")
  }

  /** A remote base URL is the configured address with only trailing slashes
      removed, and never ends in a slash; every other external server gets
      the address it was started on; a builtin server has none. Because an
      HTTP connection is either remote or local, the "neither" error cannot
      occur. */
  lemma BaseUrlMeaning(server: McpServerConfig, started: Result<string>)
    ensures server.Http? && server.connection.Remote? ==>
      var b := GetServerBaseUrl(server, started);
      var url := server.connection.url;
      b.Ok? && url[..|b.value|] == b.value && (b.value == [] || b.value[|b.value| - 1] != '/')
      && forall i :: |b.value| <= i < |url| ==> url[i] == '/'
    ensures (server.Http? && server.connection.Local?) || server.Stdin? ==> GetServerBaseUrl(server, started) == started
    ensures server.Builtin? ==> GetServerBaseUrl(server, started).Err?
  {
  }
}
