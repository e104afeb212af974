/** The MCP front end: tool calls and results, the MCP result wrappers and
    content extraction, tool categories, the allow-list matcher and catalogue
    filter, the internal-function cache, the first-server-wins tool table, and
    the guards around executing one tool call. */
module McpCore {
  import opened Wrappers
  import opened Strings
  import opened Json
  import opened ConfigMcp

  datatype McpToolCall = McpToolCall(toolName: string, parameters: Json, toolId: string)

  datatype McpToolResult = McpToolResult(toolName: string, result: Json, toolId: string)

  datatype McpFunction = McpFunction(name: string, description: string, parameters: Json)

  /** The transcript entry built for one result by `tool_results_to_messages`. */
  datatype ToolResponseMessage = ToolResponseMessage(role: string, toolCallId: string, name: string, content: string)

  // ---------------------------------------------------------------------
  // Result wrappers and content extraction
  // ---------------------------------------------------------------------

  /** `[{"type": "text", "text": t}]`; fields appear in serde_json's sorted
      key order. */
  function TextContent(text: string): Json {
    JArray([JObject([("text", JString(text)), ("type", JString("text"))])])
  }

  /** `McpToolResult::success` */
  function Success(toolName: string, toolId: string, content: string): McpToolResult {
    McpToolResult(toolName, JObject([("content", TextContent(content)), ("isError", JBool(false))]), toolId)
  }

  /** `McpToolResult::success_with_metadata` */
  function SuccessWithMetadata(toolName: string, toolId: string, content: string, metadata: Json): McpToolResult {
    McpToolResult(toolName,
      JObject([("content", TextContent(content)), ("isError", JBool(false)), ("metadata", metadata)]), toolId)
  }

  /** `McpToolResult::error` */
  function Error(toolName: string, toolId: string, message: string): McpToolResult {
    McpToolResult(toolName, JObject([("content", TextContent(message)), ("isError", JBool(true))]), toolId)
  }

  /** The `isError` flag of an MCP result. */
  function IsErrorFlag(r: McpToolResult): Option<bool> {
    match Get(r.result, "isError")
    case Some(JBool(b)) => Some(b)
    case _ => None
  }

  /** The `text` of every item whose `type` is `"text"` and whose `text` is a
      string, in order. */
  function TextItems(items: seq<Json>): seq<string> {
    if items == [] then []
    else
      var rest := TextItems(items[1..]);
      if GetStr(items[0], "type") == Some("text") && GetStr(items[0], "text").Some? then
        [GetStr(items[0], "text").value] + rest
      else rest
  }

  /** `extract_mcp_content` */
  function ExtractMcpContent(result: Json): string {
    var content := Get(result, "content");
    if content.Some? && content.value.JArray? then
      var main := Join(TextItems(content.value.items), "\n");
      var metadata := Get(result, "metadata");
      if metadata.Some? && !metadata.value.JNull? then
        main + "\n\n[Metadata: " + Pretty(metadata.value) + "]"
      else main
    else if GetStr(result, "output").Some? then GetStr(result, "output").value
    else Pretty(result)
  }

  /** Extraction gives back exactly the text a wrapper was built from; a
      non-null metadata value is appended in its pretty form, a null one is
      ignored. */
  lemma ExtractWrapperRoundTrip(name: string, id: string, text: string, metadata: Json)
    ensures ExtractMcpContent(Success(name, id, text).result) == text
    ensures ExtractMcpContent(Error(name, id, text).result) == text
    ensures ExtractMcpContent(SuccessWithMetadata(name, id, text, metadata).result)
         == if metadata.JNull? then text else text + "\n\n[Metadata: " + Pretty(metadata) + "]"
  {
    var item := JObject([("text", JString(text)), ("type", JString("text"))]);
    assert "text"[1] != "type"[1];
    LookupSecond(("text", JString(text)), ("type", JString("text")), [], "type");
    assert TextItems([item]) == [text];
    MetadataField(TextContent(text), JBool(false), metadata);
  }

  /** The three wrappers differ in their `isError` flag only as their names say. */
  lemma WrapperFlags(name: string, id: string, text: string, metadata: Json)
    ensures IsErrorFlag(Success(name, id, text)) == Some(false)
    ensures IsErrorFlag(SuccessWithMetadata(name, id, text, metadata)) == Some(false)
    ensures IsErrorFlag(Error(name, id, text)) == Some(true)
  {
    FlagField(TextContent(text), false, []);
    FlagField(TextContent(text), false, [("metadata", metadata)]);
    assert SuccessWithMetadata(name, id, text, metadata).result.fields
        == [("content", TextContent(text)), ("isError", JBool(false))] + [("metadata", metadata)];
    FlagField(TextContent(text), true, []);
  }

  lemma MetadataField(content: Json, flag: Json, metadata: Json)
    ensures Lookup([("content", content), ("isError", flag), ("metadata", metadata)], "metadata") == Some(metadata)
    ensures Lookup([("content", content), ("isError", flag)], "metadata") == None
  {
    var fs := [("content", content), ("isError", flag), ("metadata", metadata)];
    assert fs[1..] == [("isError", flag), ("metadata", metadata)] + [];
    LookupSecond(("isError", flag), ("metadata", metadata), [], "metadata");
  }

  /** The second field is found when the first has another name. */
  lemma LookupSecond(a: (string, Json), b: (string, Json), more: seq<(string, Json)>, key: string)
    requires a.0 != key && b.0 == key
    ensures Lookup([a, b] + more, key) == Some(b.1)
  {
    var fs := [a, b] + more;
    assert fs[1..] == [b] + more;
  }

  lemma FlagField(content: Json, flag: bool, more: seq<(string, Json)>)
    ensures Lookup([("content", content), ("isError", JBool(flag))] + more, "isError") == Some(JBool(flag))
  {
    LookupSecond(("content", content), ("isError", JBool(flag)), more, "isError");
  }

  /** Items that are not text items leave the extracted text unchanged, and
      text items contribute their text in order. */
  lemma {:induction false} TextItemsAppend(a: seq<Json>, b: seq<Json>)
    ensures TextItems(a + b) == TextItems(a) + TextItems(b)
  {
    if a == [] {
      assert a + b == b;
    } else {
      assert (a + b)[0] == a[0];
      assert (a + b)[1..] == a[1..] + b;
      TextItemsAppend(a[1..], b);
    }
  }

  /** Without a `content` array, a string `output` field is returned as is,
      and failing that the whole value is pretty-printed. */
  lemma ExtractFallbacks(result: Json)
    requires Get(result, "content").None? || !Get(result, "content").value.JArray?
    ensures GetStr(result, "output").Some? ==> ExtractMcpContent(result) == GetStr(result, "output").value
    ensures GetStr(result, "output").None? ==> ExtractMcpContent(result) == Pretty(result)
  {
  }

  // ---------------------------------------------------------------------
  // Tool categories
  // ---------------------------------------------------------------------

  /** One step of the keyword chain: a name containing any of `keywords`
      falls in `category`. */
  datatype CategoryRule = CategoryRule(keywords: seq<string>, category: string)

  /** The keyword chain of `guess_tool_category`, in the order it is tried. */
  const CATEGORY_RULES: seq<CategoryRule> := [
    CategoryRule(["file", "editor"], "developer"),
    CategoryRule(["search", "find"], "search"),
    CategoryRule(["image", "photo"], "media"),
    CategoryRule(["web", "http"], "web"),
    CategoryRule(["db", "database"], "database"),
    CategoryRule(["browser"], "browser"),
    CategoryRule(["terminal"], "terminal"),
    CategoryRule(["video"], "video"),
    CategoryRule(["audio"], "audio"),
    CategoryRule(["location", "map"], "location"),
    CategoryRule(["google"], "google"),
    CategoryRule(["weather"], "weather"),
    CategoryRule(["calculator", "math"], "math"),
    CategoryRule(["news"], "news"),
    CategoryRule(["email"], "email"),
    CategoryRule(["calendar"], "calendar"),
    CategoryRule(["translate"], "translation"),
    CategoryRule(["github"], "github"),
    CategoryRule(["git"], "git")]

  predicate RuleMatches(rule: CategoryRule, name: string) {
    exists k :: 0 <= k < |rule.keywords| && Contains(name, rule.keywords[k])
  }

  /** The position of the first rule that matches `name`. */
  function FirstRule(rules: seq<CategoryRule>, name: string): (r: Option<nat>)
    ensures r.Some? ==> r.value < |rules| && RuleMatches(rules[r.value], name)
    ensures r.Some? ==> forall j :: 0 <= j < r.value ==> !RuleMatches(rules[j], name)
    ensures r.None? <==> forall j :: 0 <= j < |rules| ==> !RuleMatches(rules[j], name)
  {
    if rules == [] then None
    else if RuleMatches(rules[0], name) then Some(0)
    else
      var rest := FirstRule(rules[1..], name);
      assert forall j :: 1 <= j < |rules| ==> rules[j] == rules[1..][j - 1];
      if rest.Some? then Some(rest.value + 1) else None
  }

  /** `guess_tool_category`: four names are known exactly; otherwise the first
      rule whose keyword occurs in the name decides, and a name no rule
      matches is "external". */
  function GuessToolCategory(name: string): string {
    if name == "core" then "system"
    else if name == "text_editor" then "developer"
    else if name == "list_files" then "filesystem"
    else if name == "read_html" then "web"
    else
      var i := FirstRule(CATEGORY_RULES, name);
      if i.Some? then CATEGORY_RULES[i.value].category else "external"
  }

  const EXACT_TOOL_NAMES: seq<string> := ["core", "text_editor", "list_files", "read_html"]

  /** A tool falls in the catch-all "external" category exactly when it is
      none of the four known names and no rule's keyword occurs in it; a
      name that is not one of the four gets the category of the earliest
      rule that matches it. */
  lemma GuessCategoryMeaning(name: string, i: nat)
    ensures GuessToolCategory(name) == "external" <==>
      name !in EXACT_TOOL_NAMES && forall j :: 0 <= j < |CATEGORY_RULES| ==> !RuleMatches(CATEGORY_RULES[j], name)
    ensures name !in EXACT_TOOL_NAMES && i < |CATEGORY_RULES| && RuleMatches(CATEGORY_RULES[i], name)
              && (forall j :: 0 <= j < i ==> !RuleMatches(CATEGORY_RULES[j], name))
      ==> GuessToolCategory(name) == CATEGORY_RULES[i].category
  {
    var r := FirstRule(CATEGORY_RULES, name);
    if r.Some? {
      NoExternalCategory(r.value);
    }
    if i < |CATEGORY_RULES| && RuleMatches(CATEGORY_RULES[i], name)
       && (forall j :: 0 <= j < i ==> !RuleMatches(CATEGORY_RULES[j], name)) {
      FirstRuleIsEarliest(CATEGORY_RULES, name, i);
    }
  }

  /** The rule chosen is the earliest matching one, whichever way it is found. */
  lemma FirstRuleIsEarliest(rules: seq<CategoryRule>, name: string, i: nat)
    requires i < |rules| && RuleMatches(rules[i], name)
    requires forall j :: 0 <= j < i ==> !RuleMatches(rules[j], name)
    ensures FirstRule(rules, name) == Some(i)
  {
    var r := FirstRule(rules, name);
    assert r.Some?;
    assert !(r.value < i);
  }

  lemma NoExternalCategory(j: nat)
    requires j < |CATEGORY_RULES|
    ensures CATEGORY_RULES[j].category != "external"
  {
  }

  // ---------------------------------------------------------------------
  // Allow-list matching and catalogue filtering
  // ---------------------------------------------------------------------

  /** One pattern: a trailing `*` matches by prefix, anything else by equality. */
  predicate PatternMatches(pattern: string, name: string) {
    if EndsWith(pattern, "*") then StartsWith(name, pattern[..|pattern| - 1]) else name == pattern
  }

  predicate SomePatternMatches(patterns: seq<string>, name: string) {
    exists i :: 0 <= i < |patterns| && PatternMatches(patterns[i], name)
  }

  /** The allow-list rule: an empty list admits everything. */
  predicate AllowedBy(patterns: seq<string>, name: string) {
    patterns == [] || SomePatternMatches(patterns, name)
  }

  /** `is_tool_allowed_by_patterns` */
  method IsToolAllowedByPatterns(name: string, patterns: seq<string>) returns (allowed: bool)
    ensures allowed == AllowedBy(patterns, name)
  {
    if |patterns| == 0 {
      return true;
    }
    var i := 0;
    while i < |patterns|
      invariant 0 <= i <= |patterns|
      invariant forall j :: 0 <= j < i ==> !PatternMatches(patterns[j], name)
    {
      var pattern := patterns[i];
      if EndsWith(pattern, "*") {
        var prefix := pattern[..|pattern| - 1];
        if StartsWith(name, prefix) {
          assert PatternMatches(patterns[i], name);
          return true;
        }
      } else {
        if name == pattern {
          assert PatternMatches(patterns[i], name);
          return true;
        }
      }
      i := i + 1;
    }
    return false;
  }

  /** A starred pattern admits exactly the names that start with the text
      before the star; any other pattern admits only the identical name. */
  lemma PatternMeaning(prefix: string, pattern: string, name: string)
    ensures PatternMatches(prefix + "*", name) <==> StartsWith(name, prefix)
    ensures !EndsWith(pattern, "*") ==> (PatternMatches(pattern, name) <==> name == pattern)
  {
    var p := prefix + "*";
    assert p[..|p| - 1] == prefix;
    assert EndsWith(p, "*") by {
      assert p[|p| - 1..] == "*";
    }
  }

  /** `filter_tools_by_patterns` */
  function FilterTools(tools: seq<McpFunction>, patterns: seq<string>): seq<McpFunction> {
    if patterns == [] then tools
    else if tools == [] then []
    else (if SomePatternMatches(patterns, tools[0].name) then [tools[0]] else [])
         + FilterTools(tools[1..], patterns)
  }

  /** Filtering keeps the admitted tools in their original order: it
      distributes over concatenation. */
  lemma {:induction false} FilterToolsOrder(a: seq<McpFunction>, b: seq<McpFunction>, patterns: seq<string>)
    ensures FilterTools(a + b, patterns) == FilterTools(a, patterns) + FilterTools(b, patterns)
  {
    if patterns != [] && a != [] {
      assert (a + b)[0] == a[0];
      assert (a + b)[1..] == a[1..] + b;
      FilterToolsOrder(a[1..], b, patterns);
    } else if a == [] {
      assert a + b == b;
    }
  }

  /** A single tool is kept exactly when the matcher admits its name. */
  lemma FilterToolsSingle(patterns: seq<string>, t: McpFunction)
    ensures FilterTools([t], patterns) == if AllowedBy(patterns, t.name) then [t] else []
  {
    if patterns != [] {
      assert [t][1..] == [];
    }
  }

  /** A tool is in the filtered list exactly when it is in the input and the
      matcher admits its name. */
  lemma {:induction false} FilterToolsMembers(tools: seq<McpFunction>, patterns: seq<string>, t: McpFunction)
    ensures t in FilterTools(tools, patterns) <==> t in tools && AllowedBy(patterns, t.name)
    ensures |FilterTools(tools, patterns)| <= |tools|
  {
    if patterns != [] && tools != [] {
      FilterToolsMembers(tools[1..], patterns, t);
      var head := if SomePatternMatches(patterns, tools[0].name) then [tools[0]] else [];
      assert FilterTools(tools, patterns) == head + FilterTools(tools[1..], patterns);
      assert tools == [tools[0]] + tools[1..];
      assert t in tools <==> t == tools[0] || t in tools[1..];
    }
  }

  // ---------------------------------------------------------------------
  // Internal-function cache
  // ---------------------------------------------------------------------

  /** The string key the source builds for the cache: `{type}_all` without an
      allow-list, otherwise `{type}_{patterns joined by ","}`. */
  function CacheKey(serverType: string, patterns: seq<string>): string {
    if patterns == [] then serverType + "_all" else serverType + "_" + Join(patterns, ",")
  }

  /** Two different allow-lists can share a key: the empty list and the list
      `["all"]` both give `developer_all`, although they select different
      tools from a catalogue holding `shell`. */
  lemma CacheKeyCollision(shell: McpFunction)
    requires shell.name == "shell"
    ensures CacheKey("developer", []) == CacheKey("developer", ["all"])
    ensures FilterTools([shell], []) != FilterTools([shell], ["all"])
  {
    assert !PatternMatches("all", "shell") by {
      assert !EndsWith("all", "*");
    }
    assert FilterTools([shell], ["all"]) == [];
  }

  /** One lookup in the cache as the source keys it, by `CacheKey`'s
      string: a hit returns the stored list, a miss filters the catalogue
      and stores the result under the string. */
  function StringCacheLookup(entries: map<string, seq<McpFunction>>, catalogue: string -> seq<McpFunction>,
                             serverType: string, patterns: seq<string>): (seq<McpFunction>, map<string, seq<McpFunction>>)
  {
    var key := CacheKey(serverType, patterns);
    if key in entries then (entries[key], entries)
    else
      var filtered := FilterTools(catalogue(serverType), patterns);
      (filtered, entries[key := filtered])
  }

  /** `INTERNAL_FUNCTION_CACHE` as the source keys it, by the joined string. */
  class StringKeyedFunctionCache {
    const catalogue: string -> seq<McpFunction>
    var entries: map<string, seq<McpFunction>>

    constructor (catalogue: string -> seq<McpFunction>)
      ensures this.catalogue == catalogue && entries == map[]
    {
      this.catalogue := catalogue;
      entries := map[];
    }

    /** `get_cached_internal_functions` as written. */
    method GetCachedInternalFunctions(serverType: string, patterns: seq<string>) returns (functions: seq<McpFunction>)
      modifies this
      ensures (functions, entries) == StringCacheLookup(old(entries), catalogue, serverType, patterns)
    {
      var key := CacheKey(serverType, patterns);
      if key in entries {
        return entries[key];
      }
      var all := catalogue(serverType);
      var filtered := if |patterns| == 0 then all else FilterTools(all, patterns);
      entries := entries[key := filtered];
      functions := filtered;
    }
  }

  /** The string-keyed cache answers a stale list: after the developer
      server was looked up without an allow-list, looking it up with the
      allow-list `["all"]` returns the whole catalogue, `shell` included,
      although that allow-list admits no tool named `shell`. */
  lemma StaleCacheHit(catalogue: string -> seq<McpFunction>, shell: McpFunction)
    requires shell.name == "shell" && catalogue("developer") == [shell]
    ensures var first := StringCacheLookup(map[], catalogue, "developer", []);
      var second := StringCacheLookup(first.1, catalogue, "developer", ["all"]);
      second.0 == [shell] && FilterTools(catalogue("developer"), ["all"]) == []
  {
    CacheKeyCollision(shell);
    assert FilterTools([shell], []) == [shell];
  }

  /** A cache entry is identified by the server type and the allow-list itself. */
  datatype InternalCacheKey = InternalCacheKey(serverType: string, patterns: seq<string>)

  /** `INTERNAL_FUNCTION_CACHE`, keyed so that a key determines its entry.
      `catalogue` gives the full function list of each builtin server type. */
  class InternalFunctionCache {
    const catalogue: string -> seq<McpFunction>
    var entries: map<InternalCacheKey, seq<McpFunction>>

    /** Every entry is the filtered catalogue its key names. */
    ghost predicate Valid()
      reads this
    {
      forall k :: k in entries ==> entries[k] == FilterTools(catalogue(k.serverType), k.patterns)
    }

    constructor (catalogue: string -> seq<McpFunction>)
      ensures Valid() && this.catalogue == catalogue && entries == map[]
    {
      this.catalogue := catalogue;
      entries := map[];
    }

    /** `get_cached_internal_functions`: a hit is returned without
        recomputing; a miss filters the catalogue and stores the result. */
    method GetCachedInternalFunctions(serverType: string, patterns: seq<string>) returns (functions: seq<McpFunction>)
      requires Valid()
      modifies this
      ensures Valid()
      ensures functions == FilterTools(catalogue(serverType), patterns)
      ensures var key := InternalCacheKey(serverType, patterns);
        if key in old(entries) then entries == old(entries) && functions == old(entries)[key]
        else entries == old(entries)[key := functions]
    {
      var key := InternalCacheKey(serverType, patterns);
      if key in entries {
        return entries[key];
      }
      var all := catalogue(serverType);
      var filtered := if |patterns| == 0 then all else FilterTools(all, patterns);
      entries := entries[key := filtered];
      functions := filtered;
    }

    /** `clear_internal_function_cache` */
    method Clear()
      requires Valid()
      modifies this
      ensures Valid() && entries == map[]
    {
      entries := map[];
    }

    /** The functions one configured server contributes (the per-server
        selection of `build_tool_server_map` and `get_available_functions`):
        the cached builtin catalogues, the uncached agent list, an external
        server's cached list, or nothing for an unknown builtin or an
        external lookup error. */
    method ServerFunctions(server: McpServerConfig, agentFunctions: seq<McpFunction>,
                           external: Result<seq<McpFunction>>) returns (functions: seq<McpFunction>)
      requires Valid()
      modifies this
      ensures Valid()
      ensures functions == SelectedFunctions(server, catalogue, agentFunctions, external)
    {
      if server.Builtin? {
        var name := server.Name();
        if name == "developer" || name == "filesystem" || name == "web" {
          functions := GetCachedInternalFunctions(name, server.Tools());
        } else if name == "agent" {
          functions := FilterTools(agentFunctions, server.Tools());
        } else {
          functions := [];
        }
      } else {
        match external
        case Ok(fs) => functions := FilterTools(fs, server.Tools());
        case Err(_) => functions := [];
      }
    }
  }

  /** What `ServerFunctions` yields, as a function of its inputs. */
  function SelectedFunctions(server: McpServerConfig, catalogue: string -> seq<McpFunction>,
                             agentFunctions: seq<McpFunction>, external: Result<seq<McpFunction>>): seq<McpFunction> {
    if server.Builtin? then
      var name := server.Name();
      if name == "developer" || name == "filesystem" || name == "web" then FilterTools(catalogue(name), server.Tools())
      else if name == "agent" then FilterTools(agentFunctions, server.Tools())
      else []
    else if external.Ok? then FilterTools(external.value, server.Tools())
    else []
  }

  /** Every function a server contributes is admitted by that server's own
      allow-list, and unknown builtins or failed lookups contribute nothing. */
  lemma SelectedFunctionsAllowed(server: McpServerConfig, catalogue: string -> seq<McpFunction>,
                                 agentFunctions: seq<McpFunction>, external: Result<seq<McpFunction>>, f: McpFunction)
    requires f in SelectedFunctions(server, catalogue, agentFunctions, external)
    ensures AllowedBy(server.Tools(), f.name)
    ensures server.Builtin? ==> server.Name() in ["developer", "filesystem", "web", "agent"]
    ensures !server.Builtin? ==> external.Ok?
  {
    var ts := server.Tools();
    if server.Builtin? {
      var name := server.Name();
      if name == "developer" || name == "filesystem" || name == "web" {
        FilterToolsMembers(catalogue(name), ts, f);
      } else {
        FilterToolsMembers(agentFunctions, ts, f);
      }
    } else {
      FilterToolsMembers(external.value, ts, f);
    }
  }

  /** `get_available_functions`: the servers' contributions concatenated in
      configuration order; nothing without servers. */
  method GetAvailableFunctions(cache: InternalFunctionCache, servers: seq<McpServerConfig>,
                               agentFunctions: seq<McpFunction>, external: seq<Result<seq<McpFunction>>>)
    returns (functions: seq<McpFunction>)
    requires cache.Valid() && |external| == |servers|
    modifies cache
    ensures cache.Valid()
    ensures functions == AvailableFrom(servers, cache.catalogue, agentFunctions, external)
  {
    functions := [];
    if |servers| == 0 {
      return;
    }
    var i := 0;
    while i < |servers|
      invariant 0 <= i <= |servers| && cache.Valid()
      invariant functions == AvailableFrom(servers[..i], cache.catalogue, agentFunctions, external[..i])
    {
      var fs := cache.ServerFunctions(servers[i], agentFunctions, external[i]);
      assert servers[..i + 1][..i] == servers[..i] && external[..i + 1][..i] == external[..i];
      functions := functions + fs;
      i := i + 1;
    }
    assert servers[..i] == servers && external[..i] == external;
  }

  function AvailableFrom(servers: seq<McpServerConfig>, catalogue: string -> seq<McpFunction>,
                         agentFunctions: seq<McpFunction>, external: seq<Result<seq<McpFunction>>>): seq<McpFunction>
    requires |external| == |servers|
  {
    if servers == [] then []
    else AvailableFrom(servers[..|servers| - 1], catalogue, agentFunctions, external[..|external| - 1])
         + SelectedFunctions(servers[|servers| - 1], catalogue, agentFunctions, external[|external| - 1])
  }

  // ---------------------------------------------------------------------
  // The tool-to-server table
  // ---------------------------------------------------------------------

  function FunctionNames(functions: seq<McpFunction>): seq<string> {
    seq(|functions|, i requires 0 <= i < |functions| => functions[i].name)
  }

  /** Adds `server` for every name not yet in the table. */
  function AddAbsent(table: map<string, McpServerConfig>, names: seq<string>, server: McpServerConfig): map<string, McpServerConfig> {
    table + map n | n in names && n !in table :: server
  }

  /** The table as a fold over the servers in configuration order. */
  function FirstWins(servers: seq<McpServerConfig>, provided: seq<seq<string>>): map<string, McpServerConfig>
    requires |provided| == |servers|
  {
    if servers == [] then map[]
    else AddAbsent(FirstWins(servers[..|servers| - 1], provided[..|provided| - 1]),
                   provided[|provided| - 1], servers[|servers| - 1])
  }

  lemma AddAbsentSnoc(table: map<string, McpServerConfig>, names: seq<string>, n: string, server: McpServerConfig)
    ensures var t := AddAbsent(table, names, server);
      AddAbsent(table, names + [n], server) == if n in t then t else t[n := server]
  {
    var t := AddAbsent(table, names, server);
    var l := AddAbsent(table, names + [n], server);
    var r := if n in t then t else t[n := server];
    assert forall x :: x in names + [n] <==> x in names || x == n;
    assert l.Keys == r.Keys;
    assert forall x | x in l :: l[x] == r[x];
  }

  lemma FirstWinsSnoc(servers: seq<McpServerConfig>, provided: seq<seq<string>>, i: nat)
    requires |provided| == |servers| && i < |servers|
    ensures FirstWins(servers[..i + 1], provided[..i + 1])
         == AddAbsent(FirstWins(servers[..i], provided[..i]), provided[i], servers[i])
  {
    assert servers[..i + 1][..i] == servers[..i];
    assert provided[..i + 1][..i] == provided[..i];
  }

  /** The names each server contributes, in configuration order. */
  function Provided(servers: seq<McpServerConfig>, catalogue: string -> seq<McpFunction>,
                    agentFunctions: seq<McpFunction>, external: seq<Result<seq<McpFunction>>>): (r: seq<seq<string>>)
    requires |external| == |servers|
    ensures |r| == |servers|
  {
    seq(|servers|, i requires 0 <= i < |servers| =>
      FunctionNames(SelectedFunctions(servers[i], catalogue, agentFunctions, external[i])))
  }

  /** The inner loop of `build_tool_server_map`: each function's name is
      entered for `server` unless it is already taken. */
  method EnterFunctions(table: map<string, McpServerConfig>, functions: seq<McpFunction>, server: McpServerConfig)
    returns (updated: map<string, McpServerConfig>)
    ensures updated == AddAbsent(table, FunctionNames(functions), server)
  {
    ghost var names := FunctionNames(functions);
    assert names[..0] == [];
    updated := table;
    var j := 0;
    while j < |functions|
      invariant 0 <= j <= |functions|
      invariant updated == AddAbsent(table, names[..j], server)
    {
      AddAbsentSnoc(table, names[..j], names[j], server);
      assert names[..j + 1] == names[..j] + [names[j]];
      if functions[j].name !in updated {
        updated := updated[functions[j].name := server];
      }
      j := j + 1;
    }
    assert names[..j] == names;
  }

  /** `build_tool_server_map`: every function a server contributes is entered
      under its name with `entry().or_insert_with`, so the first server in
      configuration order keeps each name. `external[i]` is what the lookup
      of server `i`'s functions returns when the server is external. */
  method BuildToolServerMap(cache: InternalFunctionCache, servers: seq<McpServerConfig>,
                            agentFunctions: seq<McpFunction>, external: seq<Result<seq<McpFunction>>>)
    returns (table: map<string, McpServerConfig>)
    requires cache.Valid() && |external| == |servers|
    modifies cache
    ensures cache.Valid()
    ensures table == FirstWins(servers, Provided(servers, cache.catalogue, agentFunctions, external))
  {
    ghost var provided := Provided(servers, cache.catalogue, agentFunctions, external);
    table := map[];
    var i := 0;
    while i < |servers|
      invariant 0 <= i <= |servers| && cache.Valid()
      invariant table == FirstWins(servers[..i], provided[..i])
    {
      var server := servers[i];
      var functions := cache.ServerFunctions(server, agentFunctions, external[i]);
      assert FunctionNames(functions) == provided[i];
      table := EnterFunctions(table, functions, server);
      FirstWinsSnoc(servers, provided, i);
      i := i + 1;
    }
    assert servers[..i] == servers && provided[..i] == provided;
  }

  /** Some server provides the name. */
  predicate ProvidedBySome(provided: seq<seq<string>>, name: string) {
    exists i :: 0 <= i < |provided| && name in provided[i]
  }

  /** Server `i` is the first in configuration order that provides `name`. */
  predicate FirstProvider(provided: seq<seq<string>>, name: string, i: int) {
    0 <= i < |provided| && name in provided[i] && forall j :: 0 <= j < i ==> name !in provided[j]
  }

  /** The table holds every provided name and nothing else, and maps each
      name to the first server in configuration order that provides it; a
      later server never overwrites. */
  lemma {:induction false} FirstWinsMeaning(servers: seq<McpServerConfig>, provided: seq<seq<string>>, name: string)
    requires |provided| == |servers|
    ensures name in FirstWins(servers, provided) <==> ProvidedBySome(provided, name)
    ensures name in FirstWins(servers, provided) ==>
      exists i :: FirstProvider(provided, name, i) && FirstWins(servers, provided)[name] == servers[i]
  {
    if servers != [] {
      var n := |servers| - 1;
      var sInit, pInit := servers[..n], provided[..n];
      FirstWinsMeaning(sInit, pInit, name);
      var prev := FirstWins(sInit, pInit);
      if ProvidedBySome(pInit, name) {
        var i :| 0 <= i < |pInit| && name in pInit[i];
        assert provided[i] == pInit[i];
      }
      if ProvidedBySome(provided, name) && !ProvidedBySome(pInit, name) {
        assert name in provided[n];
      }
      if name in prev {
        var i :| FirstProvider(pInit, name, i) && prev[name] == sInit[i];
        assert FirstProvider(provided, name, i) by {
          forall j | 0 <= j < i ensures name !in provided[j] {
            assert provided[j] == pInit[j];
          }
        }
        assert servers[i] == sInit[i];
      } else if name in FirstWins(servers, provided) {
        assert FirstProvider(provided, name, n) by {
          forall j | 0 <= j < n ensures name !in provided[j] {
            assert provided[j] == pInit[j];
          }
        }
      }
    }
  }

  // ---------------------------------------------------------------------
  // Call identifiers and tool messages
  // ---------------------------------------------------------------------

  /** `ensure_tool_call_ids`: every empty id becomes `tool_` followed by a
      fresh identifier; `freshId(i)` stands for the UUID drawn at position i. */
  method EnsureToolCallIds(calls: array<McpToolCall>, freshId: nat -> string)
    modifies calls
    ensures forall i :: 0 <= i < calls.Length ==>
      calls[i] == if old(calls[i]).toolId == "" then old(calls[i]).(toolId := "tool_" + freshId(i)) else old(calls[i])
  {
    var i := 0;
    while i < calls.Length
      invariant 0 <= i <= calls.Length
      invariant forall k :: 0 <= k < i ==>
        calls[k] == if old(calls[k]).toolId == "" then old(calls[k]).(toolId := "tool_" + freshId(k)) else old(calls[k])
      invariant forall k :: i <= k < calls.Length ==> calls[k] == old(calls[k])
    {
      if calls[i].toolId == "" {
        calls[i] := calls[i].(toolId := "tool_" + freshId(i));
      }
      i := i + 1;
    }
  }

  /** `tool_results_to_messages`: one "tool" message per result, in order,
      answering the result's call with its serialised result. */
  method ToolResultsToMessages(results: seq<McpToolResult>) returns (messages: seq<ToolResponseMessage>)
    ensures |messages| == |results|
    ensures forall i :: 0 <= i < |results| ==>
      messages[i] == ToolResponseMessage("tool", results[i].toolId, results[i].toolName, Serialize(results[i].result))
  {
    messages := [];
    var i := 0;
    while i < |results|
      invariant 0 <= i <= |results| && |messages| == i
      invariant forall k :: 0 <= k < i ==>
        messages[k] == ToolResponseMessage("tool", results[k].toolId, results[k].toolName, Serialize(results[k].result))
    {
      var r := results[i];
      messages := messages + [ToolResponseMessage("tool", r.toolId, r.toolName, Serialize(r.result))];
      i := i + 1;
    }
  }

  /** `parse_tool_calls`, kept by the source for compatibility: it never
      finds a call. */
  function ParseToolCalls(content: string): seq<McpToolCall> {
    []
  }

  // ---------------------------------------------------------------------
  // Executing one call
  // ---------------------------------------------------------------------

  /** `execute_layer_tool_call`'s gate: a layer without server references may
      not run tools, and a non-empty layer allow-list is matched by exact name. */
  function LayerGate(call: McpToolCall, layer: RoleMcpConfig): Result<Unit> {
    if layer.serverRefs == [] then Err("Tool execution is disabled for this layer")
    else if layer.allowedTools != [] && call.toolName !in layer.allowedTools then
      Err("Tool '" + call.toolName + "' is not allowed for this layer")
    else Ok(Unit)
  }

  /** The gate passes exactly when the layer has servers and its allow-list is
      empty or names the tool exactly; unlike the catalogue matcher, a
      starred entry admits no other name. */
  lemma LayerGateMeaning(call: McpToolCall, layer: RoleMcpConfig, prefix: string)
    ensures LayerGate(call, layer).Ok? <==>
      layer.serverRefs != [] && (layer.allowedTools == [] || call.toolName in layer.allowedTools)
    ensures layer.serverRefs != [] && layer.allowedTools == [prefix + "*"] && call.toolName != prefix + "*"
      ==> LayerGate(call, layer).Err?
  {
  }

  /** `execute_layer_tool_call`: the gate, then the ordinary execution whose
      outcome is `execute`. */
  function ExecuteLayerToolCall(call: McpToolCall, layer: RoleMcpConfig,
                                execute: Result<McpToolResult>): (r: Result<McpToolResult>)
    ensures LayerGate(call, layer).Err? ==> r == Err(LayerGate(call, layer).msg)
    ensures LayerGate(call, layer).Ok? ==> r == execute
  {
    match LayerGate(call, layer)
    case Err(e) => Err(e)
    case Ok(_) => execute
  }

  /** The confirmation answer keeps the output when, trimmed and lower-cased,
      it starts with `y`. */
  predicate AcceptsLargeOutput(answer: string) {
    StartsWith(ToLower(Trim(answer)), "y")
  }

  const DECLINED_EXPLANATION := " tokens). The tool executed successfully but the output was too large and the user chose not to include it in the conversation to avoid excessive token usage."

  function DeclinedMessage(toolName: string, tokens: nat): string {
    "User declined to process large output from tool '" + toolName + "' (" + NatToString(tokens) + DECLINED_EXPLANATION
  }

  /** `handle_large_response`: `estimateTokens` is the session's token
      estimator, `answer` the line the user typed at the prompt. */
  function HandleLargeResponse(result: McpToolResult, estimateTokens: string -> nat,
                               threshold: nat, answer: string): McpToolResult {
    var tokens := estimateTokens(Serialize(result.result));
    if tokens > threshold && !AcceptsLargeOutput(answer) then
      Error(result.toolName, result.toolId, DeclinedMessage(result.toolName, tokens))
    else result
  }

  /** A result within the threshold, or one the user accepts, passes
      unchanged; otherwise the caller gets an error result for the same tool
      and call whose text is the decline notice. */
  lemma LargeResponseGate(result: McpToolResult, estimateTokens: string -> nat, threshold: nat, answer: string)
    ensures var tokens := estimateTokens(Serialize(result.result));
      tokens <= threshold || AcceptsLargeOutput(answer) ==> HandleLargeResponse(result, estimateTokens, threshold, answer) == result
    ensures var tokens := estimateTokens(Serialize(result.result));
      var r := HandleLargeResponse(result, estimateTokens, threshold, answer);
      tokens > threshold && !AcceptsLargeOutput(answer) ==>
        IsErrorFlag(r) == Some(true) && ExtractMcpContent(r.result) == DeclinedMessage(result.toolName, tokens)
  {
    var tokens := estimateTokens(Serialize(result.result));
    ExtractWrapperRoundTrip(result.toolName, result.toolId, DeclinedMessage(result.toolName, tokens), JNull);
    WrapperFlags(result.toolName, result.toolId, DeclinedMessage(result.toolName, tokens), JNull);
  }

  /** The gate never changes which tool and call a result belongs to. */
  lemma LargeResponseKeepsCall(result: McpToolResult, estimateTokens: string -> nat, threshold: nat, answer: string)
    ensures HandleLargeResponse(result, estimateTokens, threshold, answer).toolName == result.toolName
    ensures HandleLargeResponse(result, estimateTokens, threshold, answer).toolId == result.toolId
  {
    var tokens := estimateTokens(Serialize(result.result));
    var notice := DeclinedMessage(result.toolName, tokens);
    assert Error(result.toolName, result.toolId, notice).toolName == result.toolName;
  }

  /** Surrounding whitespace and case do not matter: any answer whose first
      visible character is `y` or `Y` keeps the output, and a blank answer
      declines it. */
  lemma AnswerMeaning(ws: string, c: char, rest: string)
    requires AllWhitespace(ws)
    ensures (c == 'y' || c == 'Y') ==> AcceptsLargeOutput(ws + [c] + rest)
    ensures !AcceptsLargeOutput(ws)
  {
    if c == 'y' || c == 'Y' {
      TrimSkipsLeading(ws, c, rest);
      var t := Trim(ws + [c] + rest);
      assert ToLower(t)[..1] == "y";
    }
    TrimEmptyIff(ws);
  }

  /** Which builtin server runs which tools. */
  function BuiltinDispatch(serverName: string, toolName: string): Result<Unit> {
    if serverName == "developer" then
      if toolName == "shell" then Ok(Unit) else Err("Tool '" + toolName + "' not implemented in developer server")
    else if serverName == "filesystem" then
      if toolName in ["text_editor", "list_files"] then Ok(Unit)
      else Err("Tool '" + toolName + "' not implemented in filesystem server")
    else if serverName == "agent" then
      if StartsWith(toolName, "agent_") then Ok(Unit)
      else Err("Tool '" + toolName + "' not implemented in agent server")
    else if serverName == "web" then
      if toolName in ["web_search", "image_search", "video_search", "news_search", "read_html"] then Ok(Unit)
      else Err("Tool '" + toolName + "' not implemented in web server")
    else Err("Unknown builtin server: " + serverName)
  }

  function NotFoundMessage(toolName: string, availableTools: seq<string>): string {
    "Tool '" + toolName + "' not found in any configured MCP server. Available tools: "
    + (if availableTools == [] then "none (tool map not initialized)" else Join(availableTools, ", "))
  }

  /** `try_execute_tool_call`: `route` is the tool map's answer for the tool,
      `availableTools` its key list, and `backend` what the selected executor
      returns. The result always answers the call's own id. */
  function TryExecuteToolCall(call: McpToolCall, serversEmpty: bool, cancelled: bool,
                              route: Option<McpServerConfig>, availableTools: seq<string>,
                              backend: Result<McpToolResult>): Result<McpToolResult> {
    if serversEmpty then Err("MCP has no servers configured")
    else if cancelled then Err("Tool execution cancelled")
    else if route.None? then Err(NotFoundMessage(call.toolName, availableTools))
    else
      var server := route.value;
      var dispatch := if server.Builtin? then BuiltinDispatch(server.Name(), call.toolName) else Ok(Unit);
      if dispatch.Err? then Err(dispatch.msg)
      else if backend.Err? then backend
      else Ok(backend.value.(toolId := call.toolId))
  }

  /** `execute_tool_call`: the two guards, the routed execution, then the
      large-output gate. */
  function ExecuteToolCall(call: McpToolCall, serversEmpty: bool, cancelled: bool,
                           route: Option<McpServerConfig>, availableTools: seq<string>,
                           backend: Result<McpToolResult>, estimateTokens: string -> nat,
                           threshold: nat, answer: string): Result<McpToolResult> {
    if serversEmpty then Err("MCP has no servers configured")
    else if cancelled then Err("Tool execution cancelled")
    else match TryExecuteToolCall(call, serversEmpty, cancelled, route, availableTools, backend)
      case Err(e) => Err(e)
      case Ok(r) => Ok(HandleLargeResponse(r, estimateTokens, threshold, answer))
  }

  /** Execution fails before routing without servers or when cancelled, and
      an unrouted tool fails with the not-found message. */
  lemma ExecuteToolCallGuards(call: McpToolCall, serversEmpty: bool, cancelled: bool,
                              route: Option<McpServerConfig>, availableTools: seq<string>,
                              backend: Result<McpToolResult>, estimateTokens: string -> nat,
                              threshold: nat, answer: string)
    ensures serversEmpty ==> ExecuteToolCall(call, serversEmpty, cancelled, route, availableTools, backend,
                                             estimateTokens, threshold, answer) == Err("MCP has no servers configured")
    ensures !serversEmpty && cancelled ==> ExecuteToolCall(call, serversEmpty, cancelled, route, availableTools, backend,
                                             estimateTokens, threshold, answer) == Err("Tool execution cancelled")
    ensures !serversEmpty && !cancelled && route.None? ==>
      ExecuteToolCall(call, serversEmpty, cancelled, route, availableTools, backend, estimateTokens, threshold, answer)
        == Err(NotFoundMessage(call.toolName, availableTools))
  {
  }

  /** A successful execution was routed to a server whose executor succeeded,
      and its result answers the call's own id under the executor's tool name. */
  lemma ExecuteToolCallAnswersCall(call: McpToolCall, serversEmpty: bool, cancelled: bool,
                                   route: Option<McpServerConfig>, availableTools: seq<string>,
                                   backend: Result<McpToolResult>, estimateTokens: string -> nat,
                                   threshold: nat, answer: string)
    requires ExecuteToolCall(call, serversEmpty, cancelled, route, availableTools, backend,
                             estimateTokens, threshold, answer).Ok?
    ensures route.Some? && backend.Ok?
    ensures var r := ExecuteToolCall(call, serversEmpty, cancelled, route, availableTools, backend,
                                     estimateTokens, threshold, answer).value;
      r.toolId == call.toolId && r.toolName == backend.value.toolName
  {
    var t := TryExecuteToolCall(call, serversEmpty, cancelled, route, availableTools, backend);
    LargeResponseKeepsCall(t.value, estimateTokens, threshold, answer);
  }
}
