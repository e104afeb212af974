/** MCP server configuration: the three server variants, their accessors,
    constructors and validation, and the per-role selection of servers with
    `server:tool` pattern expansion. */
module ConfigMcp {
  import opened Wrappers
  import opened Strings

  datatype HttpConnection =
    | Remote(url: string, authToken: Option<string>)
    | Local(command: string, args: seq<string>, authToken: Option<string>)

  datatype McpServerConfig =
    | Builtin(name: string, timeoutSeconds: nat, tools: seq<string>)
    | Http(name: string, connection: HttpConnection, timeoutSeconds: nat, tools: seq<string>)
    | Stdin(name: string, command: string, args: seq<string>, timeoutSeconds: nat, tools: seq<string>)
  {
    function Name(): string {
      match this
      case Builtin(n, _, _) => n
      case Http(n, _, _, _) => n
      case Stdin(n, _, _, _, _) => n
    }

    function ConnectionType(): McpConnectionType {
      match this
      case Builtin(_, _, _) => BuiltinType
      case Http(_, _, _, _) => HttpType
      case Stdin(_, _, _, _, _) => StdinType
    }

    function TimeoutSeconds(): nat {
      match this
      case Builtin(_, t, _) => t
      case Http(_, _, t, _) => t
      case Stdin(_, _, _, t, _) => t
    }

    function Tools(): seq<string> {
      match this
      case Builtin(_, _, ts) => ts
      case Http(_, _, _, ts) => ts
      case Stdin(_, _, _, _, ts) => ts
    }

    function Url(): Option<string> {
      match this
      case Http(_, Remote(u, _), _, _) => Some(u)
      case _ => None
    }

    function AuthToken(): Option<string> {
      match this
      case Http(_, conn, _, _) => conn.authToken
      case _ => None
    }

    function Command(): Option<string> {
      match this
      case Stdin(_, c, _, _, _) => Some(c)
      case Http(_, Local(c, _, _), _, _) => Some(c)
      case _ => None
    }

    function Args(): seq<string> {
      match this
      case Stdin(_, _, a, _, _) => a
      case Http(_, Local(_, a, _), _, _) => a
      case _ => []
    }

    /** The same server with its `tools` list replaced. */
    function WithTools(ts: seq<string>): (r: McpServerConfig)
      ensures r.Tools() == ts
    {
      match this
      case Builtin(n, t, _) => Builtin(n, t, ts)
      case Http(n, c, t, _) => Http(n, c, t, ts)
      case Stdin(n, c, a, t, _) => Stdin(n, c, a, t, ts)
    }
  }

  datatype McpConnectionType = BuiltinType | StdinType | HttpType

  /** Everything but the tools list is equal. */
  predicate SameExceptTools(a: McpServerConfig, b: McpServerConfig) {
    a.WithTools([]) == b.WithTools([])
  }

  /** The connection type names the variant, and `name`, `timeout_seconds`
      and `tools` read the field of whichever variant is given. */
  lemma AccessorsTotal(s: McpServerConfig)
    ensures s.ConnectionType() == BuiltinType <==> s.Builtin?
    ensures s.ConnectionType() == HttpType <==> s.Http?
    ensures s.ConnectionType() == StdinType <==> s.Stdin?
    ensures s.Name() == s.name && s.TimeoutSeconds() == s.timeoutSeconds && s.Tools() == s.tools
  {
  }

  /** `url` is present exactly for a remote Http server and `command` exactly
      for a Stdin or local Http server, so never both. */
  lemma UrlCommandExclusive(s: McpServerConfig)
    ensures s.Url().Some? <==> s.Http? && s.connection.Remote?
    ensures s.Command().Some? <==> s.Stdin? || (s.Http? && s.connection.Local?)
    ensures !(s.Url().Some? && s.Command().Some?)
    ensures !s.Http? ==> s.AuthToken() == None
    ensures s.Command().None? ==> s.Args() == []
  {
  }

  function MakeBuiltin(name: string, timeoutSeconds: nat, tools: seq<string>): McpServerConfig {
    Builtin(name, timeoutSeconds, tools)
  }

  function RemoteHttp(name: string, url: string, timeoutSeconds: nat, tools: seq<string>,
                      authToken: Option<string>): McpServerConfig {
    Http(name, Remote(url, authToken), timeoutSeconds, tools)
  }

  function LocalHttp(name: string, command: string, args: seq<string>, timeoutSeconds: nat,
                     tools: seq<string>, authToken: Option<string>): McpServerConfig {
    Http(name, Local(command, args, authToken), timeoutSeconds, tools)
  }

  function MakeStdin(name: string, command: string, args: seq<string>, timeoutSeconds: nat,
                     tools: seq<string>): McpServerConfig {
    Stdin(name, command, args, timeoutSeconds, tools)
  }

  /** Each constructor's arguments read back through the accessors. */
  lemma ConstructorsReadBack(name: string, url: string, command: string, args: seq<string>,
                             t: nat, tools: seq<string>, tok: Option<string>)
    ensures var b := MakeBuiltin(name, t, tools);
      b.Name() == name && b.TimeoutSeconds() == t && b.Tools() == tools
      && b.ConnectionType() == BuiltinType && b.Url() == None && b.Command() == None
    ensures var r := RemoteHttp(name, url, t, tools, tok);
      r.Name() == name && r.TimeoutSeconds() == t && r.Tools() == tools && r.ConnectionType() == HttpType
      && r.Url() == Some(url) && r.Command() == None && r.AuthToken() == tok && r.Args() == []
    ensures var l := LocalHttp(name, command, args, t, tools, tok);
      l.Name() == name && l.TimeoutSeconds() == t && l.Tools() == tools && l.ConnectionType() == HttpType
      && l.Url() == None && l.Command() == Some(command) && l.Args() == args && l.AuthToken() == tok
    ensures var s := MakeStdin(name, command, args, t, tools);
      s.Name() == name && s.TimeoutSeconds() == t && s.Tools() == tools && s.ConnectionType() == StdinType
      && s.Url() == None && s.Command() == Some(command) && s.Args() == args && s.AuthToken() == None
  {
  }

  /** `McpServerConfig::validate`: the name first, then the url or command of
      the variant. */
  function Validate(s: McpServerConfig): Result<Unit> {
    match s
    case Builtin(name, _, _) =>
      if name == "" then Err("Builtin server name cannot be empty") else Ok(Unit)
    case Http(name, conn, _, _) =>
      if name == "" then Err("HTTP server name cannot be empty")
      else if conn.Remote? && conn.url == "" then Err("Remote HTTP server URL cannot be empty")
      else if conn.Local? && conn.command == "" then Err("Local HTTP server command cannot be empty")
      else Ok(Unit)
    case Stdin(name, command, _, _, _) =>
      if name == "" then Err("Stdin server name cannot be empty")
      else if command == "" then Err("Stdin server command cannot be empty")
      else Ok(Unit)
  }

  /** Validation fails exactly when the name, a remote url or a command is empty. */
  lemma ValidateFailsIff(s: McpServerConfig)
    ensures Validate(s).Err? <==> s.Name() == "" || s.Url() == Some("") || s.Command() == Some("")
  {
  }

  datatype McpConfig = McpConfig(servers: seq<McpServerConfig>, allowedTools: seq<string>)

  /** The first server in the registry with the given name. */
  function FindServer(servers: seq<McpServerConfig>, name: string): (r: Option<McpServerConfig>)
    ensures r.Some? ==> r.value in servers && r.value.Name() == name
    ensures r.Some? ==> exists i :: 0 <= i < |servers| && servers[i] == r.value
                                 && forall j :: 0 <= j < i ==> servers[j].Name() != name
    ensures r.None? <==> forall s :: s in servers ==> s.Name() != name
  {
    if servers == [] then None
    else if servers[0].Name() == name then Some(servers[0])
    else
      var r := FindServer(servers[1..], name);
      FirstAfterHead(servers, name, r);
      r
  }

  /** A first match in the tail, behind a head of another name, is a
      first match in the whole registry. */
  lemma FirstAfterHead(servers: seq<McpServerConfig>, name: string, r: Option<McpServerConfig>)
    requires servers != [] && servers[0].Name() != name
    requires r.Some? ==> exists i :: 0 <= i < |servers[1..]| && servers[1..][i] == r.value
                                    && forall j :: 0 <= j < i ==> servers[1..][j].Name() != name
    ensures r.Some? ==> exists i :: 0 <= i < |servers| && servers[i] == r.value
                                  && forall j :: 0 <= j < i ==> servers[j].Name() != name
  {
    if r.Some? {
      var i :| 0 <= i < |servers[1..]| && servers[1..][i] == r.value
               && forall j :: 0 <= j < i ==> servers[1..][j].Name() != name;
      forall j | 0 <= j < i + 1
        ensures servers[j].Name() != name
      {
        if j > 0 {
          assert servers[j] == servers[1..][j - 1];
        }
      }
      assert servers[i + 1] == r.value;
    }
  }

  /** `pattern` is `server:*`, the "every tool of this server" pattern. */
  predicate IsWildcardFor(pattern: string, server: string) {
    SplitOnce(pattern, ':') == Some((server, "*"))
  }

  /** What one pattern contributes to a server's tool list: a bare name
      applies to every server, `server:tool` only to its server. */
  function Contribution(pattern: string, server: string): seq<string> {
    match SplitOnce(pattern, ':')
    case None => [pattern]
    case Some((prefix, toolPattern)) => if prefix == server then [toolPattern] else []
  }

  function Contributions(patterns: seq<string>, server: string): seq<string> {
    if patterns == [] then []
    else Contributions(patterns[..|patterns| - 1], server) + Contribution(patterns[|patterns| - 1], server)
  }

  /** The expansion of the role's patterns for one server; empty means
      "all tools". */
  function ExpandPatterns(patterns: seq<string>, server: string): seq<string> {
    if HasWildcard(patterns, server) then [] else Contributions(patterns, server)
  }

  predicate HasWildcard(patterns: seq<string>, server: string) {
    exists i :: 0 <= i < |patterns| && IsWildcardFor(patterns[i], server)
  }

  datatype RoleMcpConfig = RoleMcpConfig(serverRefs: seq<string>, allowedTools: seq<string>) {
    /** MCP is on for a role exactly when it references a server. */
    function IsEnabled(): (r: bool)
      ensures r <==> serverRefs != []
    {
      |serverRefs| > 0
    }

    /** `RoleMcpConfig::expand_patterns_for_server` */
    method ExpandPatternsForServer(server: string) returns (expanded: seq<string>)
      ensures expanded == ExpandPatterns(allowedTools, server)
    {
      expanded := [];
      var i := 0;
      while i < |allowedTools|
        invariant 0 <= i <= |allowedTools|
        invariant !HasWildcard(allowedTools[..i], server)
        invariant expanded == Contributions(allowedTools[..i], server)
      {
        var pattern := allowedTools[i];
        ContributionsStep(allowedTools, server, i);
        HasWildcardStep(allowedTools, server, i);
        var split := SplitOnce(pattern, ':');
        if split.Some? {
          var (prefix, toolPattern) := split.value;
          if prefix == server {
            if toolPattern == "*" {
              WildcardGivesAll(allowedTools, server, i);
              return [];
            }
            expanded := expanded + [toolPattern];
          }
        } else {
          expanded := expanded + [pattern];
        }
        i := i + 1;
      }
      assert allowedTools[..i] == allowedTools;
    }

    /** The role's servers as the spec states them: in `serverRefs` order,
        unknown names skipped, tools replaced only under a role allow-list. */
    function EnabledFrom(refs: seq<string>, servers: seq<McpServerConfig>): seq<McpServerConfig> {
      if refs == [] then []
      else
        var prev := EnabledFrom(refs[..|refs| - 1], servers);
        var name := refs[|refs| - 1];
        match FindServer(servers, name)
        case None => prev
        case Some(s) =>
          prev + [if allowedTools == [] then s else s.WithTools(ExpandPatterns(allowedTools, name))]
    }

    /** One more reference adds its server, if configured, with its tools
        narrowed by the role's patterns. */
    lemma EnabledFromStep(servers: seq<McpServerConfig>, i: nat)
      requires i < |serverRefs|
      ensures EnabledFrom(serverRefs[..i + 1], servers)
              == EnabledFrom(serverRefs[..i], servers)
                 + match FindServer(servers, serverRefs[i])
                   case None => []
                   case Some(s) => [if allowedTools == [] then s else s.WithTools(ExpandPatterns(allowedTools, serverRefs[i]))]
    {
      assert serverRefs[..i + 1][..i] == serverRefs[..i];
    }

    /** `RoleMcpConfig::get_enabled_servers` */
    method GetEnabledServers(servers: seq<McpServerConfig>) returns (result: seq<McpServerConfig>)
      ensures result == EnabledFrom(serverRefs, servers)
    {
      if |serverRefs| == 0 {
        return [];
      }
      result := [];
      var i := 0;
      while i < |serverRefs|
        invariant 0 <= i <= |serverRefs|
        invariant result == EnabledFrom(serverRefs[..i], servers)
      {
        var name := serverRefs[i];
        EnabledFromStep(servers, i);
        var found := FindServer(servers, name);
        if found.Some? {
          var server := found.value;
          if |allowedTools| > 0 {
            var filtered := ExpandPatternsForServer(name);
            server := server.WithTools(filtered);
          }
          result := result + [server];
        }
        i := i + 1;
      }
      assert serverRefs[..i] == serverRefs;
    }
  }

  lemma ContributionsStep(patterns: seq<string>, server: string, i: nat)
    requires i < |patterns|
    ensures Contributions(patterns[..i + 1], server)
         == Contributions(patterns[..i], server) + Contribution(patterns[i], server)
  {
    assert patterns[..i + 1][..i] == patterns[..i];
  }

  lemma HasWildcardStep(patterns: seq<string>, server: string, i: nat)
    requires i < |patterns|
    ensures HasWildcard(patterns[..i + 1], server) <==> HasWildcard(patterns[..i], server) || IsWildcardFor(patterns[i], server)
  {
    var next := patterns[..i + 1];
    assert next[i] == patterns[i];
    if HasWildcard(next, server) {
      var j :| 0 <= j < |next| && IsWildcardFor(next[j], server);
      if j < i {
        assert patterns[..i][j] == next[j];
      }
    }
    if HasWildcard(patterns[..i], server) {
      var j :| 0 <= j < i && IsWildcardFor(patterns[..i][j], server);
      assert next[j] == patterns[..i][j];
    }
  }

  /** `srv:*` anywhere in the list makes the expansion empty ("all tools"). */
  lemma WildcardGivesAll(patterns: seq<string>, server: string, i: nat)
    requires i < |patterns| && IsWildcardFor(patterns[i], server)
    ensures ExpandPatterns(patterns, server) == []
  {
  }

  /** Without a wildcard for the server, a name is in the expansion exactly
      when some pattern is that bare name (with no colon) or is
      `server:name`; patterns for other servers contribute nothing. */
  lemma {:induction false} ContributionsMembers(patterns: seq<string>, server: string, x: string)
    ensures x in Contributions(patterns, server) <==>
      exists i :: 0 <= i < |patterns| && x in Contribution(patterns[i], server)
  {
    if patterns != [] {
      var init := patterns[..|patterns| - 1];
      ContributionsMembers(init, server, x);
      if x in Contributions(patterns, server) {
        if x in Contributions(init, server) {
          var i :| 0 <= i < |init| && x in Contribution(init[i], server);
          assert patterns[i] == init[i];
        }
      } else {
        forall i | 0 <= i < |patterns| ensures x !in Contribution(patterns[i], server) {
          if i < |init| {
            assert patterns[i] == init[i];
          }
        }
      }
    }
  }

  /** A server name that holds a colon is never matched by a `server:tool`
      pattern, since the pattern is split at its first colon. */
  lemma ContributionCases(pattern: string, server: string, x: string)
    requires ':' !in server
    ensures x in Contribution(pattern, server) <==>
      (':' !in pattern && x == pattern) || pattern == server + ":" + x
  {
    match SplitOnce(pattern, ':')
    case None =>
    case Some((prefix, toolPattern)) =>
      if pattern == server + ":" + x {
        assert pattern[..|server|] == server && pattern[|server|] == ':';
        assert IndexOf(pattern, ':') == Some(|server|) by {
          assert pattern[..|server|] == server;
        }
        assert prefix == server;
        assert pattern[|server| + 1..] == x;
      }
  }

  /** With an empty reference list the role has no servers. */
  lemma EnabledEmpty(role: RoleMcpConfig, servers: seq<McpServerConfig>)
    requires role.serverRefs == []
    ensures role.EnabledFrom(role.serverRefs, servers) == []
  {
  }

  function Names(servers: seq<McpServerConfig>): seq<string> {
    if servers == [] then [] else Names(servers[..|servers| - 1]) + [servers[|servers| - 1].Name()]
  }

  function KnownRefs(refs: seq<string>, servers: seq<McpServerConfig>): seq<string> {
    if refs == [] then []
    else KnownRefs(refs[..|refs| - 1], servers)
         + (if FindServer(servers, refs[|refs| - 1]).Some? then [refs[|refs| - 1]] else [])
  }

  /** The selected servers carry exactly the known referenced names, in
      reference order, and each is a registry entry with at most its tools
      list changed (unchanged when the role has no allow-list). */
  lemma {:induction false} EnabledServersShape(role: RoleMcpConfig, refs: seq<string>, servers: seq<McpServerConfig>)
    ensures Names(role.EnabledFrom(refs, servers)) == KnownRefs(refs, servers)
    ensures forall k :: 0 <= k < |role.EnabledFrom(refs, servers)| ==>
      exists g :: g in servers && SameExceptTools(role.EnabledFrom(refs, servers)[k], g)
        && (role.allowedTools == [] ==> role.EnabledFrom(refs, servers)[k] == g)
  {
    if refs != [] {
      var init := refs[..|refs| - 1];
      EnabledServersShape(role, init, servers);
      var prev := role.EnabledFrom(init, servers);
      var res := role.EnabledFrom(refs, servers);
      match FindServer(servers, refs[|refs| - 1])
      case None =>
      case Some(s) =>
        var last := if role.allowedTools == [] then s else s.WithTools(ExpandPatterns(role.allowedTools, refs[|refs| - 1]));
        assert res == prev + [last];
        assert res[..|res| - 1] == prev;
        assert SameExceptTools(last, s);
        forall k | 0 <= k < |res|
          ensures exists g :: (g in servers && SameExceptTools(res[k], g)
                               && (role.allowedTools == [] ==> res[k] == g))
        {
          if k < |prev| {
            assert res[k] == prev[k];
          } else {
            assert res[k] == last;
          }
        }
    }
  }
}
