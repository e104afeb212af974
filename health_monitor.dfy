/** The background health monitor of external MCP servers: the flag that
    keeps a single monitor alive, the per-server health classification, the
    restart policy for dead servers and the HTTP probe of remote servers.
    Whether a process is alive, what the probe's request returned, what
    restarting a server produced and the wall clock are inputs. */
module HealthMonitor {
  import opened Wrappers
  import opened ConfigMcp
  import opened ServerProcess
  import McpServer
  import opened HttpStatus

  /** Restarts allowed before a dead server is marked failed. */
  const MAX_RESTART_ATTEMPTS: nat := 3

  /** The restart cooldown, in milliseconds (30 s). */
  const RESTART_COOLDOWN_MS: nat := 30000

  /** Monitored servers: those with an HTTP or stdin connection. */
  predicate IsExternal(server: McpServerConfig) {
    server.ConnectionType() == HttpType || server.ConnectionType() == StdinType
  }

  /** The `filter` over the configured servers in `start_health_monitor`
      and `force_health_check`. */
  function ExternalServers(servers: seq<McpServerConfig>): seq<McpServerConfig> {
    if servers == [] then []
    else ExternalServers(servers[..|servers| - 1])
         + (if IsExternal(servers[|servers| - 1]) then [servers[|servers| - 1]] else [])
  }

  /** The monitored list holds exactly the external servers of the
      configuration; builtin servers are never monitored. */
  lemma {:induction false} ExternalServersMembers(servers: seq<McpServerConfig>, s: McpServerConfig)
    ensures s in ExternalServers(servers) <==> s in servers && IsExternal(s)
    ensures |ExternalServers(servers)| <= |servers|
  {
    if servers != [] {
      var init := servers[..|servers| - 1];
      ExternalServersMembers(init, s);
      assert servers == init + [servers[|servers| - 1]];
    }
  }

  /** `HEALTH_MONITOR_RUNNING` */
  class HealthMonitorFlag {
    var running: bool

    constructor ()
      ensures !running
    {
      running := false;
    }

    /** `start_health_monitor`: only a false-to-true transition starts a
        monitor, over the external servers; with none, the flag is put back
        to false. `monitored` is what the spawned task checks, and `spawned`
        says whether a task was spawned. */
    method Start(servers: seq<McpServerConfig>) returns (monitored: seq<McpServerConfig>, spawned: bool)
      modifies this
      ensures old(running) ==> running && !spawned && monitored == []
      ensures !old(running) ==> monitored == ExternalServers(servers) && spawned == (monitored != [])
                                && running == spawned
    {
      if running {
        return [], false;
      }
      running := true;
      monitored := ExternalServers(servers);
      if monitored == [] {
        running := false;
        return monitored, false;
      }
      spawned := true;
    }

    /** `stop_health_monitor`: clears the flag. */
    method Stop()
      modifies this
      ensures !running
    {
      if running {
        running := false;
      }
    }

    /** `is_health_monitor_running` */
    function IsHealthMonitorRunning(): bool
      reads this
    {
      running
    }
  }

  /** The health `check_server_health_and_restart_if_dead` computes:
      `processRunning` is `is_server_running`, `probe` the outcome of
      `perform_http_health_check`. */
  function ComputeHealth(server: McpServerConfig, processRunning: bool, probe: Result<bool>): ServerHealth {
    match server.ConnectionType()
    case StdinType => if processRunning then Running else Dead
    case HttpType =>
      if server.Command().Some? then (if processRunning then Running else Dead)
      else if probe == Ok(true) then Running
      else Dead
    case BuiltinType => Running
  }

  /** The computed health is only ever Running or Dead: servers with a
      process follow the process, a remote server follows its probe (an
      error counts as dead), and a builtin server is always running. The
      Failed and Restarting arms of the policy therefore never run. */
  lemma HealthClassification(server: McpServerConfig, processRunning: bool, probe: Result<bool>)
    ensures ComputeHealth(server, processRunning, probe) in {Running, Dead}
    ensures server.Command().Some? ==> (ComputeHealth(server, processRunning, probe) == Running <==> processRunning)
    ensures McpServer.IsRemoteHttp(server) ==> (ComputeHealth(server, processRunning, probe) == Running <==> probe == Ok(true))
    ensures server.Builtin? ==> ComputeHealth(server, processRunning, probe) == Running
  {
  }

  /** `restart_dead_server`'s eligibility test. */
  predicate CanRestart(server: McpServerConfig) {
    match server.ConnectionType()
    case StdinType => true
    case HttpType => server.Command().Some?
    case BuiltinType => false
  }

  /** Exactly the servers with a command to run can be restarted; remote
      and builtin servers never are. */
  lemma CanRestartIff(server: McpServerConfig)
    ensures CanRestart(server) <==> server.Command().Some?
    ensures McpServer.IsRemoteHttp(server) || server.Builtin? ==> !CanRestart(server)
  {
  }

  /** `restart_dead_server`: `ensured` is what `ensure_server_running`
      returns; it is consulted only for a server that can be restarted. */
  function RestartDeadServer(server: McpServerConfig, ensured: Result<string>): Result<Unit> {
    if !CanRestart(server) then Ok(Unit)
    else if ensured.Ok? then Ok(Unit)
    else Err(ensured.msg)
  }

  /** An ineligible server succeeds without anything being started; an
      eligible one reports what starting it produced. */
  lemma RestartDeadServerMeaning(server: McpServerConfig, ensured: Result<string>)
    ensures !CanRestart(server) ==> RestartDeadServer(server, ensured) == Ok(Unit)
    ensures CanRestart(server) ==> (RestartDeadServer(server, ensured).Ok? <==> ensured.Ok?)
  {
  }

  /** `now.duration_since(last)`, or zero when the clock went backwards. */
  function Elapsed(last: int, now: int): nat {
    if now >= last then now - last else 0
  }

  /** What the policy does with a dead server. */
  datatype DeadAction = MarkFailed | InCooldown | AttemptRestart

  /** The dead-server branch: the restart cap first, then the cooldown. */
  function DeadDecision(info: RestartInfo, now: int): DeadAction {
    if info.restartCount >= MAX_RESTART_ATTEMPTS then MarkFailed
    else if info.lastRestartTime.Some? && Elapsed(info.lastRestartTime.value, now) < RESTART_COOLDOWN_MS then InCooldown
    else AttemptRestart
  }

  /** A server that has used up its restarts is marked failed; one
      restarted less than 30 s ago waits; any other dead server gets a
      restart attempt. */
  lemma DeadDecisionMeaning(info: RestartInfo, now: int)
    ensures DeadDecision(info, now) == MarkFailed <==> info.restartCount >= 3
    ensures DeadDecision(info, now) == AttemptRestart <==>
      info.restartCount < 3
      && (info.lastRestartTime.None? || Elapsed(info.lastRestartTime.value, now) >= 30000)
  {
  }

  /** The registry entry after one check: health and check time recorded,
      then Failed when a dead server has exhausted its restarts. The restart
      counter itself is kept by the process module, which is not part of
      this model. */
  function AfterCheck(entry: RestartInfo, health: ServerHealth, now: int): RestartInfo {
    var recorded := entry.(healthStatus := health, lastHealthCheck := Some(now));
    if health == Dead && DeadDecision(entry, now) == MarkFailed then recorded.(healthStatus := Failed) else recorded
  }

  /** Whether the check calls `restart_dead_server`. */
  predicate CallsRestart(health: ServerHealth, entry: RestartInfo, now: int) {
    health == Dead && DeadDecision(entry, now) == AttemptRestart
  }

  /** `check_server_health_and_restart_if_dead` for one server. It always
      returns `Ok`; `restart` is the result of `restart_dead_server` when it
      was called, which the source only logs. */
  method CheckServerHealthAndRestartIfDead(registry: RestartRegistry, server: McpServerConfig, processRunning: bool,
                                           probeStatus: Option<nat>, now: int, ensured: Result<string>)
    returns (restart: Option<Result<Unit>>)
    modifies registry
    ensures var health := ComputeHealth(server, processRunning, PerformHttpHealthCheck(server, probeStatus));
      registry.info == old(registry.info)[server.Name() := AfterCheck(old(registry.Get(server.Name())), health, now)]
      && (restart.Some? <==> CallsRestart(health, old(registry.Get(server.Name())), now))
      && (restart.Some? ==> restart.value == RestartDeadServer(server, ensured))
  {
    var probe := PerformHttpHealthCheck(server, probeStatus);
    var health := ComputeHealth(server, processRunning, probe);
    var entry := registry.Get(server.Name());
    registry.RecordHealth(server.Name(), health, now);
    restart := None;
    match health
    case Dead =>
      if entry.restartCount >= MAX_RESTART_ATTEMPTS {
        registry.RecordHealth(server.Name(), Failed, now);
      } else if entry.lastRestartTime.Some? && Elapsed(entry.lastRestartTime.value, now) < RESTART_COOLDOWN_MS {
      } else {
        restart := Some(RestartDeadServer(server, ensured));
      }
    case Failed =>
    case Running =>
    case Restarting =>
  }

  /** `force_health_check`, and one round of the monitor task: every
      external server is checked in configuration order. The inputs give,
      per server name, the process view, the probe's status and what
      restarting produced. */
  method ForceHealthCheck(registry: RestartRegistry, servers: seq<McpServerConfig>,
                          processRunning: string -> bool, probeStatus: string -> Option<nat>, now: int,
                          ensured: string -> Result<string>)
    modifies registry
    ensures registry.info == CheckedAll(old(registry.info), ExternalServers(servers), processRunning, probeStatus, now)
  {
    var monitored := ExternalServers(servers);
    var i := 0;
    while i < |monitored|
      invariant 0 <= i <= |monitored|
      invariant registry.info == CheckedAll(old(registry.info), monitored[..i], processRunning, probeStatus, now)
    {
      var server := monitored[i];
      var _ := CheckServerHealthAndRestartIfDead(registry, server, processRunning(server.Name()),
                                                 probeStatus(server.Name()), now, ensured(server.Name()));
      assert monitored[..i + 1][..i] == monitored[..i];
      i := i + 1;
    }
    assert monitored[..i] == monitored;
  }

  /** The registry after checking `servers` one after the other. */
  function CheckedAll(info: map<string, RestartInfo>, servers: seq<McpServerConfig>,
                      processRunning: string -> bool, probeStatus: string -> Option<nat>, now: int)
    : map<string, RestartInfo>
  {
    if servers == [] then info
    else
      var prev := CheckedAll(info, servers[..|servers| - 1], processRunning, probeStatus, now);
      var s := servers[|servers| - 1];
      var health := ComputeHealth(s, processRunning(s.Name()), PerformHttpHealthCheck(s, probeStatus(s.Name())));
      prev[s.Name() := AfterCheck(EntryOf(prev, s.Name()), health, now)]
  }

  /** After a round every checked server has an entry whose last check is
      `now` and whose status is Running, Dead or Failed; entries of servers
      that were not checked are untouched. */
  lemma {:induction false} CheckedAllMeaning(info: map<string, RestartInfo>, servers: seq<McpServerConfig>,
                                             processRunning: string -> bool, probeStatus: string -> Option<nat>,
                                             now: int, name: string)
    ensures var r := CheckedAll(info, servers, processRunning, probeStatus, now);
      (exists i :: 0 <= i < |servers| && servers[i].Name() == name) ==>
        name in r && r[name].lastHealthCheck == Some(now) && r[name].healthStatus in {Running, Dead, Failed}
    ensures var r := CheckedAll(info, servers, processRunning, probeStatus, now);
      (forall i :: 0 <= i < |servers| ==> servers[i].Name() != name) ==>
        (name in r <==> name in info) && (name in info ==> r[name] == info[name])
  {
    if servers != [] {
      var n := |servers| - 1;
      CheckedAllMeaning(info, servers[..n], processRunning, probeStatus, now, name);
      var s := servers[n];
      HealthClassification(s, processRunning(s.Name()), PerformHttpHealthCheck(s, probeStatus(s.Name())));
      if exists i :: 0 <= i < |servers| && servers[i].Name() == name {
        if s.Name() != name {
          var i :| 0 <= i < |servers| && servers[i].Name() == name;
          assert servers[..n][i].Name() == name;
        }
      }
      if forall i :: 0 <= i < |servers| ==> servers[i].Name() != name {
        assert forall i :: 0 <= i < n ==> servers[..n][i].Name() != name;
        assert servers[n].Name() != name;
      }
    }
  }

  /** `perform_http_health_check`: `status` is the status of the reply to
      the `tools/list` request, or None when sending failed. */
  function PerformHttpHealthCheck(server: McpServerConfig, status: Option<nat>): Result<bool> {
    if server.Url().None? then Err(NO_URL)
    else if server.AuthToken().Some? && !McpServer.IsValidHeaderValue("Bearer " + server.AuthToken().value) then
      Err("failed to parse header value")
    else if status.None? then Ok(false)
    else Ok(IsSuccess(status.value) || IsClientError(status.value))
  }

  const NO_URL := "No URL configured for HTTP server"

  /** A server without an address is an error, and so is a bearer token
      that is not a valid header value; otherwise a server that answers is
      healthy exactly when the status is 2xx or 4xx, and one that does not
      answer is unhealthy but not an error. */
  lemma ProbeVerdict(server: McpServerConfig, status: Option<nat>)
    ensures server.Url().None? ==> PerformHttpHealthCheck(server, status) == Err("No URL configured for HTTP server")
    ensures server.Url().Some? && server.AuthToken().Some?
            && !McpServer.IsValidHeaderValue("Bearer " + server.AuthToken().value) ==>
      PerformHttpHealthCheck(server, status).Err?
    ensures server.Url().Some? && status.None?
            && (server.AuthToken().None? || McpServer.IsValidHeaderValue("Bearer " + server.AuthToken().value)) ==>
      PerformHttpHealthCheck(server, status) == Ok(false)
    ensures server.Url().Some? && status.Some?
            && (server.AuthToken().None? || McpServer.IsValidHeaderValue("Bearer " + server.AuthToken().value)) ==>
      (PerformHttpHealthCheck(server, status) == Ok(true) <==> 200 <= status.value < 300 || 400 <= status.value < 500)
  {
  }
}
