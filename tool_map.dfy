/** The application-wide table from tool name to the server that runs it,
    built once the servers are up and rebuilt only when the server list
    changes in name, kind or allow-list. */
module ToolMap {
  import opened Wrappers
  import opened ConfigMcp
  import opened McpCore

  /** What the configuration hash covers for one server. */
  datatype ServerFingerprint = ServerFingerprint(name: string, kind: McpConnectionType, tools: seq<string>)

  /** `calculate_config_hash`, with the hash taken as collision-free: the
      sequence of what is hashed, server by server. */
  function ConfigFingerprint(servers: seq<McpServerConfig>): (r: seq<ServerFingerprint>)
    ensures |r| == |servers|
  {
    seq(|servers|, i requires 0 <= i < |servers| =>
      ServerFingerprint(servers[i].Name(), servers[i].ConnectionType(), servers[i].Tools()))
  }

  /** The hash ignores where a server lives: two configurations that differ
      only in a server's address have the same fingerprint, so the table
      keeps routing to the configuration it was built from. */
  lemma FingerprintIgnoresAddress(name: string, url: string, otherUrl: string, token: Option<string>,
                                  timeout: nat, tools: seq<string>)
    requires url != otherUrl
    ensures var a := Http(name, Remote(url, token), timeout, tools);
      var b := Http(name, Remote(otherUrl, token), timeout, tools);
      a != b && ConfigFingerprint([a]) == ConfigFingerprint([b])
  {
  }

  /** `ToolMapState` behind the global `TOOL_MAP`. The ghost fields record
      the servers and their contributed names the table was last built from. */
  class ToolMapState {
    var toolToServer: map<string, McpServerConfig>
    var initialized: bool
    var configHash: seq<ServerFingerprint>
    ghost var builtFrom: seq<McpServerConfig>
    ghost var builtNames: seq<seq<string>>

    /** An uninitialised table is empty; an initialised one is the
        first-server-wins table of the configuration its hash describes. */
    ghost predicate Valid()
      reads this
    {
      |builtNames| == |builtFrom|
      && (!initialized ==> toolToServer == map[])
      && (initialized ==> configHash == ConfigFingerprint(builtFrom)
                          && toolToServer == FirstWins(builtFrom, builtNames))
    }

    /** The state before the first initialisation (`ToolMapState::default`). */
    constructor ()
      ensures Valid() && !initialized && toolToServer == map[]
      ensures GetServerForTool("test_tool") == None && GetAllToolNames() == {}
    {
      toolToServer := map[];
      initialized := false;
      configHash := [];
      builtFrom := [];
      builtNames := [];
    }

    /** `initialize_tool_map`: a no-op when the table is already built for a
        configuration with the same hash; otherwise the table is rebuilt. */
    method Initialize(cache: InternalFunctionCache, servers: seq<McpServerConfig>,
                      agentFunctions: seq<McpFunction>, external: seq<Result<seq<McpFunction>>>)
      requires Valid() && cache.Valid() && |external| == |servers|
      modifies this, cache
      ensures Valid() && cache.Valid() && initialized
      ensures old(initialized) && old(configHash) == ConfigFingerprint(servers) ==>
        toolToServer == old(toolToServer) && configHash == old(configHash) && cache.entries == old(cache.entries)
      ensures !(old(initialized) && old(configHash) == ConfigFingerprint(servers)) ==>
        configHash == ConfigFingerprint(servers) && builtFrom == servers
        && builtNames == Provided(servers, cache.catalogue, agentFunctions, external)
        && toolToServer == FirstWins(servers, builtNames)
    {
      var hash := ConfigFingerprint(servers);
      if initialized && configHash == hash {
        return;
      }
      var table := BuildToolServerMap(cache, servers, agentFunctions, external);
      toolToServer := table;
      initialized := true;
      configHash := hash;
      builtFrom := servers;
      builtNames := Provided(servers, cache.catalogue, agentFunctions, external);
    }

    /** `get_server_for_tool` */
    function GetServerForTool(toolName: string): Option<McpServerConfig>
      reads this
    {
      if !initialized then None
      else if toolName in toolToServer then Some(toolToServer[toolName])
      else None
    }

    /** `get_tool_server_name` */
    function GetToolServerName(toolName: string): Option<string>
      reads this
    {
      var server := GetServerForTool(toolName);
      if server.Some? then Some(server.value.Name()) else None
    }

    /** `is_initialized` */
    function IsInitialized(): bool
      reads this
    {
      initialized
    }

    /** `get_all_tool_names`; the order of a hash map's keys is unspecified,
        so the names are a set. */
    function GetAllToolNames(): set<string>
      reads this
    {
      if !initialized then {} else toolToServer.Keys
    }

    /** Once built, the table routes a tool exactly when some server of the
        configuration contributed it, to the first such server in
        configuration order, and lists exactly the routable names. */
    lemma Routing(toolName: string)
      requires Valid() && initialized
      ensures GetServerForTool(toolName).Some? <==> ProvidedBySome(builtNames, toolName)
      ensures GetServerForTool(toolName).Some? ==>
        exists i :: FirstProvider(builtNames, toolName, i) && GetServerForTool(toolName).value == builtFrom[i]
                    && GetToolServerName(toolName) == Some(builtFrom[i].Name())
      ensures toolName in GetAllToolNames() <==> GetServerForTool(toolName).Some?
    {
      FirstWinsMeaning(builtFrom, builtNames, toolName);
    }

    /** Before initialisation every query comes back empty. */
    lemma Uninitialized(toolName: string)
      requires Valid() && !initialized
      ensures GetServerForTool(toolName) == None && GetToolServerName(toolName) == None
      ensures !IsInitialized() && GetAllToolNames() == {}
    {
    }
  }
}
