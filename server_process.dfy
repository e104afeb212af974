/** The view of the server-process registry that the modelled code reads and
    writes. The registry's own code is not part of this model: whether a
    child process is alive, and what starting a server does, are inputs. */
module ServerProcess {
  import opened Wrappers

  /** `process::ServerHealth` */
  datatype ServerHealth = Running | Dead | Restarting | Failed

  /** One entry of `SERVER_RESTART_INFO`; times are milliseconds on the wall
      clock. */
  datatype RestartInfo = RestartInfo(
    restartCount: nat,
    lastRestartTime: Option<int>,
    healthStatus: ServerHealth,
    lastHealthCheck: Option<int>)

  /** The entry `or_default()` creates: no restarts, never checked. */
  const DEFAULT_RESTART_INFO := RestartInfo(0, None, Running, None)

  /** What a look into `SERVER_PROCESSES` finds for one server name. */
  datatype ProcessView =
    | NoProcess
      /** Another task holds the process lock. */
    | LockContended
      /** A local HTTP server; `alive` is `try_wait` reporting no exit. */
    | HttpChild(alive: bool)
    | StdinChild(alive: bool, shutdown: bool)

  /** The liveness test shared by the running checks: an HTTP child must
      not have exited; a stdin child must not have exited nor been marked
      shut down. */
  predicate ChildRunning(p: ProcessView)
    requires p.HttpChild? || p.StdinChild?
  {
    if p.HttpChild? then p.alive else p.alive && !p.shutdown
  }

  /** The entry for `name`, or the one `or_default()` would create. */
  function EntryOf(info: map<string, RestartInfo>, name: string): RestartInfo {
    if name in info then info[name] else DEFAULT_RESTART_INFO
  }

  /** `SERVER_RESTART_INFO`: restart bookkeeping per server name. */
  class RestartRegistry {
    var info: map<string, RestartInfo>

    constructor ()
      ensures info == map[]
    {
      info := map[];
    }

    /** `get_server_restart_info`: the entry, or the default one. */
    function Get(name: string): RestartInfo
      reads this
    {
      EntryOf(info, name)
    }

    /** `entry(name).or_default()` followed by writing the health status and
        the time of the check; nothing else in the entry changes. */
    method RecordHealth(name: string, health: ServerHealth, now: int)
      modifies this
      ensures info == old(info)[name := old(Get(name)).(healthStatus := health, lastHealthCheck := Some(now))]
    {
      var entry := Get(name);
      info := info[name := entry.(healthStatus := health, lastHealthCheck := Some(now))];
    }
  }
}
