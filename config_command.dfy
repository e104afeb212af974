/** The `config` command's editing path: the flags that set the root model,
    refuse an API key, set the log level, switch markdown rendering and its
    theme, rebuild or extend the MCP server registry and set the custom
    system prompt, applied in the command's order to a configuration
    object; and the display of one field's current value. The server
    record is the one this command builds (name, type, url, command, args,
    token, mode, tools, timeout, builtin). Printing, the inspection flags'
    output and the configuration file itself are outside the model: the
    result of saving is an input. */
module ConfigCommand {
  import opened Wrappers
  import opened Strings
  import opened Seqs

  /** `LogLevel`; `NoLogging` is the source's `None`. */
  datatype LogLevel = NoLogging | Info | Debug

  /** `{:?}` of a log level. */
  function LogLevelName(level: LogLevel): string {
    match level
    case NoLogging => "None"
    case Info => "Info"
    case Debug => "Debug"
  }

  /** `--log-level`: the value, lower-cased, must be `none`, `info` or `debug`. */
  function ParseLogLevel(value: string): (r: Option<LogLevel>)
    ensures r.Some? <==> ToLower(value) in {"none", "info", "debug"}
  {
    var v := ToLower(value);
    if v == "none" then Some(NoLogging)
    else if v == "info" then Some(Info)
    else if v == "debug" then Some(Debug)
    else None
  }

  /** Lower-casing twice is lower-casing once. */
  lemma LowerIdempotent(s: string)
    ensures ToLower(ToLower(s)) == ToLower(s)
  {
    var t := ToLower(s);
    assert forall i :: 0 <= i < |t| ==> LowerChar(t[i]) == t[i];
  }

  /** The level does not depend on the case of the value. */
  lemma LogLevelCaseInsensitive(value: string)
    ensures ParseLogLevel(ToLower(value)) == ParseLogLevel(value)
  {
    LowerIdempotent(value);
  }

  /** The name a level is displayed under reads back as that level. */
  lemma LogLevelRoundTrip(level: LogLevel)
    ensures ParseLogLevel(LogLevelName(level)) == Some(level)
  {
    match level
    case NoLogging =>
      assert ToLower("None") == "none" by {
        assert forall i :: 0 <= i < 4 ==> ToLower("None")[i] == "none"[i];
      }
    case Info =>
      assert ToLower("Info") == "info" by {
        assert forall i :: 0 <= i < 4 ==> ToLower("Info")[i] == "info"[i];
      }
    case Debug =>
      assert ToLower("Debug") == "debug" by {
        assert forall i :: 0 <= i < 5 ==> ToLower("Debug")[i] == "debug"[i];
      }
  }

  /** The server type the command gives every server it adds. */
  datatype ServerType = External | Internal

  /** Whether a server is reached over HTTP or through a child's stdin. */
  datatype ServerMode = Http | Stdin

  /** A server of the registry, as the command builds it. */
  datatype ServerEntry = ServerEntry(name: string, serverType: ServerType, url: Option<string>,
                                     command: Option<string>, args: seq<string>, authToken: Option<string>,
                                     mode: ServerMode, tools: seq<string>, timeoutSeconds: nat, builtin: bool)

  const DEFAULT_TIMEOUT: nat := 30

  /** The server `--mcp-server` starts from: external, HTTP, no endpoint,
      no arguments, token or tools, a 30-second timeout, not builtin. */
  function NewServer(name: string): ServerEntry {
    ServerEntry(name, External, None, None, [], None, Http, [], DEFAULT_TIMEOUT, false)
  }

  function OtherThan(name: string): ServerEntry -> bool {
    (s: ServerEntry) => s.name != name
  }

  function Named(name: string): ServerEntry -> bool {
    (s: ServerEntry) => s.name == name
  }

  /** How many servers of the registry carry the name. */
  function CountNamed(servers: seq<ServerEntry>, name: string): nat {
    |Filter(servers, Named(name))|
  }

  predicate HasServer(servers: seq<ServerEntry>, name: string) {
    exists k :: 0 <= k < |servers| && servers[k].name == name
  }

  // ----- --mcp-providers -----

  /** The comma-separated names, each trimmed. */
  function ProviderNames(providers: string): seq<string> {
    var parts := Split(providers, ',');
    seq(|parts|, i requires 0 <= i < |parts| => Trim(parts[i]))
  }

  /** The server a provider name registers: the name's own configuration,
      under that name. */
  function Registered(fromName: string -> ServerEntry, name: string): ServerEntry {
    fromName(name).(name := name)
  }

  /** The registry `--mcp-providers` leaves: the names in turn, each one
      registered unless a server of that name is already there. */
  function ProviderServers(names: seq<string>, fromName: string -> ServerEntry): seq<ServerEntry> {
    if names == [] then []
    else
      var prev := ProviderServers(names[..|names| - 1], fromName);
      var last := names[|names| - 1];
      if HasServer(prev, last) then prev else prev + [Registered(fromName, last)]
  }

  /** Registering one more name extends the registry of the names before it. */
  lemma ProviderServersStep(names: seq<string>, i: nat, fromName: string -> ServerEntry)
    requires i < |names|
    ensures var prev := ProviderServers(names[..i], fromName);
      ProviderServers(names[..i + 1], fromName)
      == if HasServer(prev, names[i]) then prev else prev + [Registered(fromName, names[i])]
  {
    assert names[..i + 1][..i] == names[..i];
  }

  /** Position of the first occurrence of a name. */
  function FirstIndex(xs: seq<string>, x: string): (i: nat)
    requires x in xs
    ensures i < |xs| && xs[i] == x && x !in xs[..i]
  {
    var n := |xs| - 1;
    if x in xs[..n] then
      var i := FirstIndex(xs[..n], x);
      assert xs[..n][..i] == xs[..i];
      i
    else n
  }

  /** Every server of the rebuilt registry is registered from its own
      name. */
  lemma {:induction false} ProviderServersRegistered(names: seq<string>, fromName: string -> ServerEntry)
    ensures forall e :: e in ProviderServers(names, fromName) ==> e == Registered(fromName, e.name)
  {
    if names != [] {
      ProviderServersRegistered(names[..|names| - 1], fromName);
    }
  }

  /** The rebuilt registry has a server of a name exactly when the name was
      given. */
  lemma {:induction false} ProviderServersNames(names: seq<string>, fromName: string -> ServerEntry)
    ensures var r := ProviderServers(names, fromName);
      forall x :: HasServer(r, x) <==> x in names
  {
    if names != [] {
      var n := |names| - 1;
      var init := names[..n];
      var last := names[n];
      ProviderServersNames(init, fromName);
      var prev := ProviderServers(init, fromName);
      var r := ProviderServers(names, fromName);
      assert names == init + [last];
      if !HasServer(prev, last) {
        assert r == prev + [Registered(fromName, last)];
        forall x
          ensures HasServer(r, x) <==> x in names
        {
          if x == last {
            assert r[|r| - 1].name == x;
          }
          if x in init {
            var k :| 0 <= k < |prev| && prev[k].name == x;
            assert r[k].name == x;
          }
          if x != last && HasServer(r, x) {
            var k :| 0 <= k < |r| && r[k].name == x;
            assert prev[k].name == x;
          }
        }
      }
    }
  }

  /** The servers of the rebuilt registry follow the first occurrences of
      their names, so no name has two. */
  lemma {:induction false} ProviderServersOrder(names: seq<string>, fromName: string -> ServerEntry)
    ensures var r := ProviderServers(names, fromName);
      forall j, k :: 0 <= j < k < |r| ==>
        r[j].name in names && r[k].name in names && FirstIndex(names, r[j].name) < FirstIndex(names, r[k].name)
  {
    if names != [] {
      var n := |names| - 1;
      var init := names[..n];
      var last := names[n];
      ProviderServersOrder(init, fromName);
      ProviderServersNames(init, fromName);
      var prev := ProviderServers(init, fromName);
      assert forall k :: 0 <= k < |prev| ==> HasServer(prev, prev[k].name);
      assert forall x :: x in init ==> x in names && FirstIndex(names, x) == FirstIndex(init, x);
      if !HasServer(prev, last) {
        assert last !in init;
        assert FirstIndex(names, last) == n;
      }
    }
  }

  // ----- --mcp-server -----

  /** A `key=value` part, when it splits into exactly two pieces at `=`;
      key and value are trimmed. */
  function KeyValue(part: string): (r: Option<(string, string)>)
    ensures r.Some? <==> |Split(part, '=')| == 2
  {
    var kv := Split(part, '=');
    if |kv| == 2 then Some((Trim(kv[0]), Trim(kv[1]))) else None
  }

  /** The trimmed pieces of `args`, split at single spaces. */
  function ArgPieces(value: string): seq<string> {
    var pieces := Split(value, ' ');
    seq(|pieces|, i requires 0 <= i < |pieces| => Trim(pieces[i]))
  }

  predicate NonEmpty(a: string) {
    a != []
  }

  /** `args=`: the pieces between spaces, trimmed, empty ones dropped. */
  function ArgList(value: string): seq<string> {
    Filter(ArgPieces(value), NonEmpty)
  }

  /** An argument is exactly a trimmed piece that is not empty. */
  lemma ArgListMembers(value: string, a: string)
    ensures a in ArgList(value) <==> a != [] && a in ArgPieces(value)
  {
    FilterMembers(ArgPieces(value), NonEmpty, a);
  }

  /** No argument is empty, holds a space, or starts or ends with
      whitespace. */
  lemma ArgListShape(value: string, a: string)
    requires a in ArgList(value)
    ensures a != [] && ' ' !in a && !IsWhitespace(a[0]) && !IsWhitespace(a[|a| - 1])
  {
    ArgListMembers(value, a);
    var pieces := Split(value, ' ');
    var r := ArgPieces(value);
    var i :| 0 <= i < |r| && r[i] == a;
    SplitPiecesFree(value, ' ');
    assert ' ' !in pieces[i];
    TrimmedShape(pieces[i], ' ');
  }

  /** One key of `--mcp-server` set on the server: unknown keys are
      ignored, an unknown mode and an unparsable timeout keep what the
      server had. */
  function SetField(server: ServerEntry, key: string, value: string): ServerEntry {
    if key == "url" then server.(url := Some(value))
    else if key == "command" then server.(command := Some(value))
    else if key == "args" then server.(args := ArgList(value))
    else if key == "token" || key == "auth_token" then server.(authToken := Some(value))
    else if key == "mode" then
      (var m := ToLower(value);
       if m == "http" then server.(mode := Http) else if m == "stdin" then server.(mode := Stdin) else server)
    else if key == "timeout" || key == "timeout_seconds" then
      (var t := ParseU64(value); if t.Some? then server.(timeoutSeconds := t.value) else server)
    else server
  }

  /** A key changes only the field it names: never the name, the type, the
      tools or the builtin flag. */
  lemma SetFieldKeeps(server: ServerEntry, key: string, value: string)
    ensures var s := SetField(server, key, value);
      s.name == server.name && s.serverType == server.serverType && s.tools == server.tools && s.builtin == server.builtin
    ensures key != "url" ==> SetField(server, key, value).url == server.url
    ensures key != "command" ==> SetField(server, key, value).command == server.command
    ensures key != "mode" ==> SetField(server, key, value).mode == server.mode
    ensures key != "timeout" && key != "timeout_seconds" ==>
      SetField(server, key, value).timeoutSeconds == server.timeoutSeconds
  {
  }

  /** `url` and `command` take the value; an unknown mode leaves the mode
      and an unparsable timeout leaves the timeout. */
  lemma SetFieldSets(server: ServerEntry, key: string, value: string)
    ensures key == "url" ==> SetField(server, key, value).url == Some(value)
    ensures key == "command" ==> SetField(server, key, value).command == Some(value)
    ensures key == "mode" && ToLower(value) != "http" && ToLower(value) != "stdin" ==>
      SetField(server, key, value).mode == server.mode
    ensures (key == "timeout" || key == "timeout_seconds") && ParseU64(value).None? ==>
      SetField(server, key, value).timeoutSeconds == server.timeoutSeconds
  {
  }

  /** Whether an assignment sets the key. */
  predicate Assigns(a: Option<(string, string)>, key: string) {
    a.Some? && a.value.0 == key
  }

  /** The `key=value` reading of every part after the first. */
  function Assignments(parts: seq<string>): (r: seq<Option<(string, string)>>)
    requires |parts| >= 1
    ensures |r| == |parts| - 1
  {
    seq(|parts| - 1, i requires 0 <= i < |parts| - 1 => KeyValue(parts[i + 1]))
  }

  /** The assignments applied to the server in turn; a part that is not a
      `key=value` pair does nothing. */
  function ApplyAll(server: ServerEntry, assignments: seq<Option<(string, string)>>): ServerEntry {
    if assignments == [] then server
    else
      var prev := ApplyAll(server, assignments[..|assignments| - 1]);
      var a := assignments[|assignments| - 1];
      if a.None? then prev else SetField(prev, a.value.0, a.value.1)
  }

  /** `--mcp-server`'s server: a new server named by the first part,
      trimmed, with every later part applied in turn. */
  function ServerFromParts(parts: seq<string>): ServerEntry
    requires |parts| >= 1
  {
    ApplyAll(NewServer(Trim(parts[0])), Assignments(parts))
  }

  /** No assignment changes the name, the type, the tools or the builtin
      flag. */
  lemma {:induction false} ApplyAllKeeps(server: ServerEntry, assignments: seq<Option<(string, string)>>)
    ensures var s := ApplyAll(server, assignments);
      s.name == server.name && s.serverType == server.serverType && s.tools == server.tools && s.builtin == server.builtin
  {
    if assignments != [] {
      var init := assignments[..|assignments| - 1];
      ApplyAllKeeps(server, init);
      var a := assignments[|assignments| - 1];
      if a.Some? {
        SetFieldKeeps(ApplyAll(server, init), a.value.0, a.value.1);
      }
    }
  }

  /** The endpoint a server was given by `key`: its url or its command. */
  function Endpoint(server: ServerEntry, key: string): Option<string> {
    if key == "url" then server.url else server.command
  }

  /** A server ends with a url (a command) exactly when it had one or some
      assignment sets one. */
  lemma {:induction false} ApplyAllEndpoint(server: ServerEntry, assignments: seq<Option<(string, string)>>, key: string)
    requires key == "url" || key == "command"
    ensures Endpoint(ApplyAll(server, assignments), key).Some? <==>
      Endpoint(server, key).Some? || exists i :: 0 <= i < |assignments| && Assigns(assignments[i], key)
  {
    if assignments != [] {
      var init := assignments[..|assignments| - 1];
      ApplyAllEndpoint(server, init, key);
      var a := assignments[|assignments| - 1];
      if a.Some? {
        SetFieldKeeps(ApplyAll(server, init), a.value.0, a.value.1);
        SetFieldSets(ApplyAll(server, init), a.value.0, a.value.1);
      }
      assert forall i :: 0 <= i < |init| ==> init[i] == assignments[i];
    }
  }

  /** The mode and the timeout stay as they were unless some assignment
      sets them. */
  lemma {:induction false} ApplyAllDefaults(server: ServerEntry, assignments: seq<Option<(string, string)>>)
    ensures (forall i :: 0 <= i < |assignments| ==> !Assigns(assignments[i], "mode")) ==>
      ApplyAll(server, assignments).mode == server.mode
    ensures (forall i :: 0 <= i < |assignments| ==>
               !Assigns(assignments[i], "timeout") && !Assigns(assignments[i], "timeout_seconds")) ==>
      ApplyAll(server, assignments).timeoutSeconds == server.timeoutSeconds
  {
    if assignments != [] {
      var init := assignments[..|assignments| - 1];
      ApplyAllDefaults(server, init);
      var a := assignments[|assignments| - 1];
      if a.Some? {
        SetFieldKeeps(ApplyAll(server, init), a.value.0, a.value.1);
      }
      assert forall i :: 0 <= i < |init| ==> init[i] == assignments[i];
    }
  }

  /** The parsed server is external, named by the trimmed first part, with
      no tools and not builtin; it has a url (a command) exactly when some
      later part assigns one; its mode stays HTTP and its timeout 30 unless
      some part assigns them. */
  lemma ServerFromPartsMeaning(parts: seq<string>)
    requires |parts| >= 1
    ensures var s := ServerFromParts(parts);
      s.name == Trim(parts[0]) && s.serverType == External && s.tools == [] && !s.builtin
    ensures var a := Assignments(parts);
      ServerFromParts(parts).url.Some? <==> exists i :: 0 <= i < |a| && Assigns(a[i], "url")
    ensures var a := Assignments(parts);
      ServerFromParts(parts).command.Some? <==> exists i :: 0 <= i < |a| && Assigns(a[i], "command")
    ensures var a := Assignments(parts);
      (forall i :: 0 <= i < |a| ==> !Assigns(a[i], "mode")) ==> ServerFromParts(parts).mode == Http
    ensures var a := Assignments(parts);
      (forall i :: 0 <= i < |a| ==> !Assigns(a[i], "timeout") && !Assigns(a[i], "timeout_seconds")) ==>
        ServerFromParts(parts).timeoutSeconds == DEFAULT_TIMEOUT
  {
    var start := NewServer(Trim(parts[0]));
    var a := Assignments(parts);
    ApplyAllKeeps(start, a);
    ApplyAllEndpoint(start, a, "url");
    ApplyAllEndpoint(start, a, "command");
    ApplyAllDefaults(start, a);
  }

  /** The registry after `--mcp-server`: every server of that name removed,
      the new one appended. */
  function ReplaceServer(servers: seq<ServerEntry>, server: ServerEntry): seq<ServerEntry> {
    Filter(servers, OtherThan(server.name)) + [server]
  }

  /** Keeping the servers of other names leaves none of the name. */
  lemma {:induction false} NoneNamedAfterRemoval(servers: seq<ServerEntry>, name: string)
    ensures Filter(Filter(servers, OtherThan(name)), Named(name)) == []
  {
    if servers != [] {
      NoneNamedAfterRemoval(servers[1..], name);
      var rest := Filter(servers[1..], OtherThan(name));
      if servers[0].name != name {
        var kept := [servers[0]] + rest;
        assert OtherThan(name)(servers[0]) && !Named(name)(servers[0]);
        assert Filter(servers, OtherThan(name)) == kept;
        assert kept[0] == servers[0] && kept[1..] == rest;
        assert Filter(kept, Named(name)) == Filter(rest, Named(name));
      } else {
        assert !OtherThan(name)(servers[0]);
        assert Filter(servers, OtherThan(name)) == rest;
      }
    }
  }

  /** After the update exactly one server carries the name, it is the last
      one, and the servers of other names are kept in their order. */
  lemma ReplaceServerMeaning(servers: seq<ServerEntry>, server: ServerEntry)
    ensures var r := ReplaceServer(servers, server);
      CountNamed(r, server.name) == 1 && r[|r| - 1] == server
    ensures Filter(ReplaceServer(servers, server), OtherThan(server.name)) == Filter(servers, OtherThan(server.name))
  {
    var kept := Filter(servers, OtherThan(server.name));
    FilterAppend(kept, [server], Named(server.name));
    NoneNamedAfterRemoval(servers, server.name);
    assert Filter([server], Named(server.name)) == [server];
    FilterAppend(kept, [server], OtherThan(server.name));
    assert Filter([server], OtherThan(server.name)) == [];
    forall i | 0 <= i < |kept|
      ensures OtherThan(server.name)(kept[i])
    {
      FilterMembers(servers, OtherThan(server.name), kept[i]);
    }
    FilterAll(kept, OtherThan(server.name));
  }

  /** Builds the server one part at a time. */
  method BuildServer(parts: seq<string>) returns (server: ServerEntry)
    requires |parts| >= 1
    ensures server == ServerFromParts(parts)
  {
    server := NewServer(Trim(parts[0]));
    ghost var start := server;
    ghost var a := Assignments(parts);
    for i := 1 to |parts|
      invariant server == ApplyAll(start, a[..i - 1])
    {
      assert a[..i][..i - 1] == a[..i - 1];
      var kv := KeyValue(parts[i]);
      assert kv == a[i - 1];
      if kv.Some? {
        server := AssignField(server, kv.value.0, kv.value.1);
      }
    }
    assert a[..|parts| - 1] == a;
  }

  /** Sets the one field the key names. */
  method AssignField(current: ServerEntry, key: string, value: string) returns (server: ServerEntry)
    ensures server == SetField(current, key, value)
  {
    server := current;
    if key == "url" {
      server := server.(url := Some(value));
    } else if key == "command" {
      server := server.(command := Some(value));
    } else if key == "args" {
      server := server.(args := ArgList(value));
    } else if key == "token" || key == "auth_token" {
      server := server.(authToken := Some(value));
    } else if key == "mode" {
      var m := ToLower(value);
      if m == "http" {
        server := server.(mode := Http);
      } else if m == "stdin" {
        server := server.(mode := Stdin);
      }
    } else if key == "timeout" || key == "timeout_seconds" {
      var t := ParseU64(value);
      if t.Some? {
        server := server.(timeoutSeconds := t.value);
      }
    }
  }

  // ----- --system -----

  /** `--system`: `default`, in any case, clears the custom prompt; any
      other value becomes it. */
  function SystemPrompt(value: string): Option<string> {
    if ToLower(value) == "default" then None else Some(value)
  }

  lemma SystemPromptMeaning(value: string)
    ensures SystemPrompt(value).None? <==> ToLower(value) == "default"
    ensures SystemPrompt(value).Some? ==> SystemPrompt(value).value == value
    ensures SystemPrompt("DEFAULT").None? && SystemPrompt("Default").None?
  {
    assert ToLower("DEFAULT") == "default";
    assert ToLower("Default") == "default";
  }

  // ----- the command -----

  /** The command-line flags. */
  datatype ConfigArgs = ConfigArgs(model: Option<string>, apiKey: Option<string>, logLevel: Option<string>,
                                   mcpProviders: Option<string>, mcpServer: Option<string>, system: Option<string>,
                                   markdownEnable: Option<bool>, markdownTheme: Option<string>,
                                   listThemes: bool, show: bool, validate: bool, resetDefault: Option<string>,
                                   showCustomized: bool, showDefaults: bool, upgrade: bool)

  /** The flags that show, check, upgrade or reset the configuration and
      then stop before any edit. */
  predicate Inspecting(args: ConfigArgs) {
    args.listThemes || args.show || args.validate || args.upgrade || args.showCustomized || args.showDefaults
    || args.resetDefault.Some?
  }

  /** Why the command stopped without saving. */
  datatype Rejection =
    | BadModel
    | ApiKeyFormat
    | ApiKeyFromEnvironment(provider: string)
    | BadLogLevel(value: string)
    | BadTheme(theme: string)
    | NoEndpoint

  /** The part of the configuration the editing flags change. */
  datatype Settings = Settings(model: string, logLevel: LogLevel, enableMarkdownRendering: bool,
                               markdownTheme: string, servers: seq<ServerEntry>, system: Option<string>)

  /** Where the command has got to: the settings so far, whether a flag
      changed them, and the rejection that stopped it, if one did. */
  datatype Progress = Progress(settings: Settings, modified: bool, stop: Option<Rejection>)

  /** `--model`: a value without `:` is not `provider:model`. */
  function ModelStep(arg: Option<string>, p: Progress): Progress {
    if p.stop.Some? || arg.None? then p
    else if !ContainsChar(arg.value, ':') then p.(stop := Some(BadModel))
    else Progress(p.settings.(model := arg.value), true, None)
  }

  /** `--api-key`: keys live in the environment, so the flag always stops
      the command, naming the provider's variable when the value has the
      `provider:key` form. */
  function ApiKeyStep(arg: Option<string>, p: Progress): Progress {
    if p.stop.Some? || arg.None? then p
    else
      match SplitOnce(arg.value, ':')
      case None => p.(stop := Some(ApiKeyFormat))
      case Some((provider, _)) => p.(stop := Some(ApiKeyFromEnvironment(ToUpper(provider))))
  }

  function LogLevelStep(arg: Option<string>, p: Progress): Progress {
    if p.stop.Some? || arg.None? then p
    else
      match ParseLogLevel(arg.value)
      case None => p.(stop := Some(BadLogLevel(arg.value)))
      case Some(level) => Progress(p.settings.(logLevel := level), true, None)
  }

  function MarkdownStep(arg: Option<bool>, p: Progress): Progress {
    if p.stop.Some? || arg.None? then p
    else Progress(p.settings.(enableMarkdownRendering := arg.value), true, None)
  }

  /** `--markdown-theme`: only a known theme is taken. */
  function ThemeStep(arg: Option<string>, themes: seq<string>, p: Progress): Progress {
    if p.stop.Some? || arg.None? then p
    else if arg.value in themes then Progress(p.settings.(markdownTheme := arg.value), true, None)
    else p.(stop := Some(BadTheme(arg.value)))
  }

  function ProvidersStep(arg: Option<string>, fromName: string -> ServerEntry, p: Progress): Progress {
    if p.stop.Some? || arg.None? then p
    else Progress(p.settings.(servers := ProviderServers(ProviderNames(arg.value), fromName)), true, None)
  }

  /** `--mcp-server`: fewer than two comma parts is reported and ignored;
      otherwise the parts describe a server that is added. */
  function ServerStep(arg: Option<string>, p: Progress): Progress {
    if p.stop.Some? || arg.None? then p else ServerValue(arg.value, p)
  }

  /** The value of `--mcp-server`, cut at commas and applied. */
  function ServerValue(value: string, p: Progress): Progress {
    ServerParts(Split(value, ','), p)
  }

  /** The comma parts of `--mcp-server`, applied. */
  function ServerParts(parts: seq<string>, p: Progress): Progress {
    if |parts| < 2 then p else AddServer(p, ServerFromParts(parts))
  }

  /** An external server with neither url nor command stops the command;
      any other replaces the servers of its name. */
  function AddServer(p: Progress, server: ServerEntry): Progress {
    if server.serverType == External && server.url.None? && server.command.None? then p.(stop := Some(NoEndpoint))
    else Progress(p.settings.(servers := ReplaceServer(p.settings.servers, server)), true, None)
  }

  function SystemStep(arg: Option<string>, p: Progress): Progress {
    if p.stop.Some? || arg.None? then p
    else Progress(p.settings.(system := SystemPrompt(arg.value)), true, None)
  }

  const STEPS: nat := 8

  /** The `k`-th editing flag, in the order the command handles them. */
  function Step(k: nat, args: ConfigArgs, themes: seq<string>, fromName: string -> ServerEntry, p: Progress): Progress
    requires k < STEPS
  {
    if k == 0 then ModelStep(args.model, p)
    else if k == 1 then ApiKeyStep(args.apiKey, p)
    else if k == 2 then LogLevelStep(args.logLevel, p)
    else if k == 3 then MarkdownStep(args.markdownEnable, p)
    else if k == 4 then ThemeStep(args.markdownTheme, themes, p)
    else if k == 5 then ProvidersStep(args.mcpProviders, fromName, p)
    else if k == 6 then ServerStep(args.mcpServer, p)
    else SystemStep(args.system, p)
  }

  /** The flags from the `k`-th on. */
  function StepsFrom(k: nat, args: ConfigArgs, themes: seq<string>, fromName: string -> ServerEntry, p: Progress): Progress
    requires k <= STEPS
    decreases STEPS - k
  {
    if k == STEPS then p else StepsFrom(k + 1, args, themes, fromName, Step(k, args, themes, fromName, p))
  }

  /** Every editing flag applied to the settings in turn. */
  function Plan(args: ConfigArgs, settings: Settings, themes: seq<string>, fromName: string -> ServerEntry): Progress {
    StepsFrom(0, args, themes, fromName, Progress(settings, false, None))
  }

  /** What the command ends with: an inspection that succeeded, a failed
      validation, a reset of a field without a default or a reset that
      failed, or what the editing flags and the save leave. */
  datatype Outcome =
    | Inspected
    | Invalid(msg: string)
    | UnknownField(field: string)
    | ResetFailed(msg: string)
    | Rejected(reason: Rejection)
    | NoChanges
    | Saved
    | SaveFailed(msg: string)

  function OutcomeOf(p: Progress, save: Result<Unit>): Outcome {
    if p.stop.Some? then Rejected(p.stop.value)
    else if !p.modified then NoChanges
    else if save.Err? then SaveFailed(save.msg)
    else Saved
  }

  /** Once stopped, no later flag does anything. */
  lemma {:induction false} StoppedStays(k: nat, args: ConfigArgs, themes: seq<string>, fromName: string -> ServerEntry, p: Progress)
    requires k <= STEPS && p.stop.Some?
    ensures StepsFrom(k, args, themes, fromName, p) == p
    decreases STEPS - k
  {
    if k < STEPS {
      StoppedStays(k + 1, args, themes, fromName, p);
    }
  }

  /** Running the flags from the `k`-th on is running the `k`-th, then the
      rest. */
  lemma Advance(k: nat, args: ConfigArgs, themes: seq<string>, fromName: string -> ServerEntry, p: Progress)
    requires k < STEPS
    ensures StepsFrom(k, args, themes, fromName, p) == StepsFrom(k + 1, args, themes, fromName, Step(k, args, themes, fromName, p))
  {
  }

  /** A flag that is absent does nothing. */
  lemma AbsentFlag(args: ConfigArgs, themes: seq<string>, fromName: string -> ServerEntry, p: Progress)
    ensures args.model.None? ==> ModelStep(args.model, p) == p
    ensures args.apiKey.None? ==> ApiKeyStep(args.apiKey, p) == p
    ensures args.logLevel.None? ==> LogLevelStep(args.logLevel, p) == p
    ensures args.markdownEnable.None? ==> MarkdownStep(args.markdownEnable, p) == p
    ensures args.markdownTheme.None? ==> ThemeStep(args.markdownTheme, themes, p) == p
    ensures args.mcpProviders.None? ==> ProvidersStep(args.mcpProviders, fromName, p) == p
    ensures args.mcpServer.None? ==> ServerStep(args.mcpServer, p) == p
    ensures args.system.None? ==> SystemStep(args.system, p) == p
  {
  }

  /** A `--model` value without `:` stops the command before anything is
      changed, and nothing is saved. */
  lemma ModelRejected(args: ConfigArgs, settings: Settings, themes: seq<string>, fromName: string -> ServerEntry, save: Result<Unit>)
    requires args.model.Some? && ':' !in args.model.value
    ensures Plan(args, settings, themes, fromName) == Progress(settings, false, Some(BadModel))
    ensures OutcomeOf(Plan(args, settings, themes, fromName), save) == Rejected(BadModel)
  {
    var p := Progress(settings, false, None);
    assert Step(0, args, themes, fromName, p) == Progress(settings, false, Some(BadModel));
    StoppedStays(1, args, themes, fromName, Progress(settings, false, Some(BadModel)));
  }

  /** `--api-key` never changes the settings the earlier flags left and
      never lets the command save. */
  lemma ApiKeyNeverSaves(args: ConfigArgs, settings: Settings, themes: seq<string>, fromName: string -> ServerEntry, save: Result<Unit>)
    requires args.apiKey.Some?
    ensures var after := ModelStep(args.model, Progress(settings, false, None));
      Plan(args, settings, themes, fromName).settings == after.settings
    ensures OutcomeOf(Plan(args, settings, themes, fromName), save).Rejected?
  {
    var p0 := Progress(settings, false, None);
    var p1 := Step(0, args, themes, fromName, p0);
    var p2 := Step(1, args, themes, fromName, p1);
    assert p2.stop.Some? && p2.settings == p1.settings;
    StoppedStays(2, args, themes, fromName, p2);
  }

  /** What an inspecting flag ends with, checked in the command's order:
      listing themes and showing succeed; validation fails with the
      checker's error; upgrading and the other displays succeed; a reset
      fails for a field without a default (`defaultValue`, the default's
      display) or when resetting fails, and otherwise puts the reset
      settings in place and saves them. */
  function Inspect(args: ConfigArgs, settings: Settings, validation: Result<Unit>, defaultValue: Option<string>,
                   reset: Result<Settings>, save: Result<Unit>): (Outcome, Settings)
  {
    if args.listThemes || args.show then (Inspected, settings)
    else if args.validate then (if validation.Err? then Invalid(validation.msg) else Inspected, settings)
    else if args.upgrade || args.showCustomized || args.showDefaults || args.resetDefault.None? then
      (Inspected, settings)
    else if defaultValue.None? then (UnknownField(args.resetDefault.value), settings)
    else if reset.Err? then (ResetFailed(reset.msg), settings)
    else (if save.Err? then SaveFailed(save.msg) else Saved, reset.value)
  }

  /** The whole command on `settings`: its outcome and the settings it
      leaves in memory. */
  function Run(args: ConfigArgs, settings: Settings, themes: seq<string>, fromName: string -> ServerEntry,
               validation: Result<Unit>, defaultValue: Option<string>, reset: Result<Settings>, save: Result<Unit>)
    : (Outcome, Settings)
  {
    if Inspecting(args) then Inspect(args, settings, validation, defaultValue, reset, save)
    else
      var p := Plan(args, settings, themes, fromName);
      (OutcomeOf(p, save), p.settings)
  }

  /** Whatever is saved is either a reset of a field that has a default or
      a configuration some editing flag changed and none stopped, and the
      save succeeded; a flag that stops the editing rejects the command. */
  lemma SavedMeansEdited(args: ConfigArgs, settings: Settings, themes: seq<string>, fromName: string -> ServerEntry,
                         validation: Result<Unit>, defaultValue: Option<string>, reset: Result<Settings>,
                         save: Result<Unit>)
    ensures var (outcome, after) := Run(args, settings, themes, fromName, validation, defaultValue, reset, save);
      var p := Plan(args, settings, themes, fromName);
      (outcome == Saved ==> save.Ok?)
      && (outcome == Saved || outcome.SaveFailed? ==>
            if Inspecting(args) then args.resetDefault.Some? && defaultValue.Some? && reset == Ok(after)
            else p.stop.None? && p.modified && after == p.settings)
      && (!Inspecting(args) && p.stop.Some? ==> outcome == Rejected(p.stop.value))
  {
  }

  /** Only a reset changes the settings among the inspecting flags, and a
      failed validation is reported with the checker's message. */
  lemma InspectKeeps(args: ConfigArgs, settings: Settings, validation: Result<Unit>, defaultValue: Option<string>,
                     reset: Result<Settings>, save: Result<Unit>)
    ensures var (outcome, after) := Inspect(args, settings, validation, defaultValue, reset, save);
      (after != settings ==> args.resetDefault.Some? && reset == Ok(after))
      && (outcome.Invalid? <==> !args.listThemes && !args.show && args.validate && validation.Err?)
      && (outcome.Invalid? ==> outcome.msg == validation.msg)
      && (outcome.UnknownField? <==>
            !args.listThemes && !args.show && !args.validate && !args.upgrade && !args.showCustomized
            && !args.showDefaults && args.resetDefault.Some? && defaultValue.None?)
  {
  }

  /** Adding a server either stops the command, exactly when the server
      is external with neither url nor command, or leaves exactly one
      server of its name, the new one, last. */
  lemma AddServerMeaning(p: Progress, server: ServerEntry)
    requires p.stop.None?
    ensures var q := AddServer(p, server);
      q.stop == Some(NoEndpoint) <==> server.serverType == External && server.url.None? && server.command.None?
    ensures var q := AddServer(p, server);
      q.stop.None? ==>
        q.modified && CountNamed(q.settings.servers, server.name) == 1
        && q.settings.servers[|q.settings.servers| - 1] == server
  {
    ReplaceServerMeaning(p.settings.servers, server);
  }

  /** The `--mcp-server` parts: fewer than two change nothing; otherwise
      the command stops exactly when no part assigns a url or a command,
      and else leaves exactly one server named by the trimmed first part,
      the parsed one, last. */
  lemma ServerPartsMeaning(parts: seq<string>, p: Progress)
    requires p.stop.None?
    ensures |parts| < 2 ==> ServerParts(parts, p) == p
    ensures |parts| >= 2 ==>
      (ServerParts(parts, p).stop == Some(NoEndpoint) <==>
        (var a := Assignments(parts);
         forall i :: 0 <= i < |a| ==> !Assigns(a[i], "url") && !Assigns(a[i], "command")))
    ensures var q := ServerParts(parts, p);
      |parts| >= 2 && q.stop.None? ==>
        q.modified && CountNamed(q.settings.servers, Trim(parts[0])) == 1
        && q.settings.servers[|q.settings.servers| - 1] == ServerFromParts(parts)
  {
    if |parts| >= 2 {
      var server := ServerFromParts(parts);
      ServerFromPartsMeaning(parts);
      AddServerMeaning(p, server);
    }
  }

  /** The configuration object: the fields the command edits or displays.
      The spending threshold is a float and is kept as its display text. */
  class Config {
    var model: string
    var logLevel: LogLevel
    var mcpResponseWarningThreshold: nat
    var maxRequestTokensThreshold: nat
    var enableAutoTruncation: bool
    var cacheTokensThreshold: nat
    var cacheTimeoutSeconds: nat
    var enableMarkdownRendering: bool
    var markdownTheme: string
    var spendingThresholdText: string
    var developerEnableLayers: bool
    var assistantEnableLayers: bool
    var developerServerRefs: seq<string>
    var assistantServerRefs: seq<string>
    var developerSystem: Option<string>
    var assistantSystem: Option<string>
    var layerCount: Option<nat>
    var commandCount: Option<nat>
    var system: Option<string>
    var servers: seq<ServerEntry>

    function Editable(): Settings
      reads this
    {
      Settings(model, logLevel, enableMarkdownRendering, markdownTheme, servers, system)
    }

    /** `get_current_field_value`: the display of the named field, and
        "Unknown field" for a name it does not know. */
    function FieldValue(field: string): (r: string)
      reads this
      ensures field !in FIELD_NAMES ==> r == UNKNOWN_FIELD
      ensures field == "system" ==> r == system.GetOr("None")
    {
      if field == "log_level" then LogLevelName(logLevel)
      else if field == "model" then model
      else if field == "mcp_response_warning_threshold" then NatToString(mcpResponseWarningThreshold)
      else if field == "max_request_tokens_threshold" then NatToString(maxRequestTokensThreshold)
      else if field == "enable_auto_truncation" then BoolText(enableAutoTruncation)
      else if field == "cache_tokens_threshold" then NatToString(cacheTokensThreshold)
      else if field == "cache_timeout_seconds" then NatToString(cacheTimeoutSeconds)
      else if field == "enable_markdown_rendering" then BoolText(enableMarkdownRendering)
      else if field == "markdown_theme" then markdownTheme
      else if field == "max_session_spending_threshold" then spendingThresholdText
      else if field == "developer.enable_layers" then BoolText(developerEnableLayers)
      else if field == "assistant.enable_layers" then BoolText(assistantEnableLayers)
      else if field == "developer.mcp.server_refs" then "[" + Join(developerServerRefs, ", ") + "]"
      else if field == "assistant.mcp.server_refs" then "[" + Join(assistantServerRefs, ", ") + "]"
      else if field == "developer.system" then developerSystem.GetOr("None")
      else if field == "assistant.system" then assistantSystem.GetOr("None")
      else if field == "layers" then CountText(layerCount, " layers configured")
      else if field == "commands" then CountText(commandCount, " commands configured")
      else if field == "system" then system.GetOr("None")
      else UNKNOWN_FIELD
    }

    /** `--mcp-providers`: the registry is cleared, then each name is
        registered unless a server of that name is already there. */
    method SetProviders(providers: string, fromName: string -> ServerEntry)
      modifies this`servers
      ensures servers == ProviderServers(ProviderNames(providers), fromName)
    {
      var names := ProviderNames(providers);
      servers := [];
      for i := 0 to |names|
        invariant servers == ProviderServers(names[..i], fromName)
      {
        ProviderServersStep(names, i, fromName);
        if !HasServer(servers, names[i]) {
          servers := servers + [Registered(fromName, names[i])];
        }
      }
      assert names[..|names|] == names;
    }

    /** `execute`: the inspection flags stop at once; otherwise the editing
        flags run in order, each either changing the configuration or
        stopping the command, and a changed configuration is saved. */
    method Execute(args: ConfigArgs, themes: seq<string>, fromName: string -> ServerEntry, validation: Result<Unit>,
                   defaultValue: Option<string>, reset: Result<Settings>, save: Result<Unit>)
      returns (outcome: Outcome)
      modifies this`model, this`logLevel, this`enableMarkdownRendering, this`markdownTheme, this`servers, this`system
      ensures (outcome, Editable()) == Run(args, old(Editable()), themes, fromName, validation, defaultValue, reset, save)
    {
      if Inspecting(args) {
        outcome := RunInspection(args, validation, defaultValue, reset, save);
        return;
      }
      ghost var plan := Plan(args, Editable(), themes, fromName);
      ghost var p := Progress(Editable(), false, None);
      var modified := false;
      var reason: Option<Rejection>;
      p, modified, reason := ModelFlag(args, themes, fromName, plan, p, modified);
      if reason.Some? {
        return Rejected(reason.value);
      }
      reason := ApiKeyFlag(args, themes, fromName, plan, p, modified);
      if reason.Some? {
        return Rejected(reason.value);
      }
      p, modified, reason := LogLevelFlag(args, themes, fromName, plan, p, modified);
      if reason.Some? {
        return Rejected(reason.value);
      }
      p, modified := MarkdownFlag(args, themes, fromName, plan, p, modified);
      p, modified, reason := ThemeFlag(args, themes, fromName, plan, p, modified);
      if reason.Some? {
        return Rejected(reason.value);
      }
      p, modified := ProvidersFlag(args, themes, fromName, plan, p, modified);
      p, modified, reason := ServerFlag(args, themes, fromName, plan, p, modified);
      if reason.Some? {
        return Rejected(reason.value);
      }
      p, modified := SystemFlag(args, themes, fromName, plan, p, modified);
      if !modified {
        return NoChanges;
      }
      if save.Err? {
        return SaveFailed(save.msg);
      }
      return Saved;
    }

    /** The inspecting flags, in the command's order; a reset that goes
        through puts the reset settings in place before saving. */
    method RunInspection(args: ConfigArgs, validation: Result<Unit>, defaultValue: Option<string>,
                         reset: Result<Settings>, save: Result<Unit>)
      returns (outcome: Outcome)
      modifies this`model, this`logLevel, this`enableMarkdownRendering, this`markdownTheme, this`servers, this`system
      ensures (outcome, Editable()) == Inspect(args, old(Editable()), validation, defaultValue, reset, save)
    {
      if args.listThemes || args.show {
        return Inspected;
      }
      if args.validate {
        if validation.Err? {
          return Invalid(validation.msg);
        }
        return Inspected;
      }
      if args.upgrade || args.showCustomized || args.showDefaults || args.resetDefault.None? {
        return Inspected;
      }
      if defaultValue.None? {
        return UnknownField(args.resetDefault.value);
      }
      if reset.Err? {
        return ResetFailed(reset.msg);
      }
      var r := reset.value;
      model, logLevel, enableMarkdownRendering, markdownTheme, servers, system :=
        r.model, r.logLevel, r.enableMarkdownRendering, r.markdownTheme, r.servers, r.system;
      if save.Err? {
        return SaveFailed(save.msg);
      }
      return Saved;
    }

    /** The command has run the flags before the `k`-th without stopping:
        the configuration holds the settings so far, and running the rest
        ends where the whole plan does. */
    ghost predicate At(k: nat, args: ConfigArgs, themes: seq<string>, fromName: string -> ServerEntry,
                       plan: Progress, p: Progress, modified: bool)
      reads this
    {
      k <= STEPS && plan == StepsFrom(k, args, themes, fromName, p)
      && p.stop.None? && Editable() == p.settings && modified == p.modified
    }

    /** `--model` (the first editing flag). */
    method ModelFlag(args: ConfigArgs, themes: seq<string>, fromName: string -> ServerEntry,
                     ghost plan: Progress, ghost p: Progress, modified: bool)
      returns (ghost q: Progress, modified': bool, reason: Option<Rejection>)
      requires At(0, args, themes, fromName, plan, p, modified)
      modifies this`model
      ensures reason.Some? ==> plan.stop == reason && plan.settings == Editable()
      ensures reason.None? ==> At(1, args, themes, fromName, plan, q, modified')
    {
      q := ModelStep(args.model, p);
      Advance(0, args, themes, fromName, p);
      modified', reason := modified, None;
      if args.model.Some? {
        if !ContainsChar(args.model.value, ':') {
          StoppedStays(1, args, themes, fromName, q);
          return q, modified, Some(BadModel);
        }
        model := args.model.value;
        modified' := true;
      }
    }

    /** `--api-key`: always stops the command. */
    method ApiKeyFlag(args: ConfigArgs, themes: seq<string>, fromName: string -> ServerEntry,
                      ghost plan: Progress, ghost p: Progress, modified: bool)
      returns (reason: Option<Rejection>)
      requires At(1, args, themes, fromName, plan, p, modified)
      ensures reason.Some? ==> plan.stop == reason && plan.settings == Editable()
      ensures reason.None? ==> args.apiKey.None? && At(2, args, themes, fromName, plan, p, modified)
    {
      ghost var q := ApiKeyStep(args.apiKey, p);
      Advance(1, args, themes, fromName, p);
      if args.apiKey.None? {
        return None;
      }
      StoppedStays(2, args, themes, fromName, q);
      var split := SplitOnce(args.apiKey.value, ':');
      if split.None? {
        return Some(ApiKeyFormat);
      }
      return Some(ApiKeyFromEnvironment(ToUpper(split.value.0)));
    }

    /** `--log-level` */
    method LogLevelFlag(args: ConfigArgs, themes: seq<string>, fromName: string -> ServerEntry,
                        ghost plan: Progress, ghost p: Progress, modified: bool)
      returns (ghost q: Progress, modified': bool, reason: Option<Rejection>)
      requires At(2, args, themes, fromName, plan, p, modified)
      modifies this`logLevel
      ensures reason.Some? ==> plan.stop == reason && plan.settings == Editable()
      ensures reason.None? ==> At(3, args, themes, fromName, plan, q, modified')
    {
      q := LogLevelStep(args.logLevel, p);
      Advance(2, args, themes, fromName, p);
      modified', reason := modified, None;
      if args.logLevel.Some? {
        var level := ParseLogLevel(args.logLevel.value);
        if level.None? {
          StoppedStays(3, args, themes, fromName, q);
          return q, modified, Some(BadLogLevel(args.logLevel.value));
        }
        logLevel := level.value;
        modified' := true;
      }
    }

    /** `--markdown-enable` */
    method MarkdownFlag(args: ConfigArgs, themes: seq<string>, fromName: string -> ServerEntry,
                        ghost plan: Progress, ghost p: Progress, modified: bool)
      returns (ghost q: Progress, modified': bool)
      requires At(3, args, themes, fromName, plan, p, modified)
      modifies this`enableMarkdownRendering
      ensures At(4, args, themes, fromName, plan, q, modified')
    {
      q := MarkdownStep(args.markdownEnable, p);
      Advance(3, args, themes, fromName, p);
      modified' := modified;
      if args.markdownEnable.Some? {
        enableMarkdownRendering := args.markdownEnable.value;
        modified' := true;
      }
    }

    /** `--markdown-theme` */
    method ThemeFlag(args: ConfigArgs, themes: seq<string>, fromName: string -> ServerEntry,
                     ghost plan: Progress, ghost p: Progress, modified: bool)
      returns (ghost q: Progress, modified': bool, reason: Option<Rejection>)
      requires At(4, args, themes, fromName, plan, p, modified)
      modifies this`markdownTheme
      ensures reason.Some? ==> plan.stop == reason && plan.settings == Editable()
      ensures reason.None? ==> At(5, args, themes, fromName, plan, q, modified')
    {
      q := ThemeStep(args.markdownTheme, themes, p);
      Advance(4, args, themes, fromName, p);
      modified', reason := modified, None;
      if args.markdownTheme.Some? {
        if args.markdownTheme.value !in themes {
          StoppedStays(5, args, themes, fromName, q);
          return q, modified, Some(BadTheme(args.markdownTheme.value));
        }
        markdownTheme := args.markdownTheme.value;
        modified' := true;
      }
    }

    /** `--mcp-providers` */
    method ProvidersFlag(args: ConfigArgs, themes: seq<string>, fromName: string -> ServerEntry,
                         ghost plan: Progress, ghost p: Progress, modified: bool)
      returns (ghost q: Progress, modified': bool)
      requires At(5, args, themes, fromName, plan, p, modified)
      modifies this`servers
      ensures At(6, args, themes, fromName, plan, q, modified')
    {
      q := ProvidersStep(args.mcpProviders, fromName, p);
      Advance(5, args, themes, fromName, p);
      modified' := modified;
      if args.mcpProviders.Some? {
        SetProviders(args.mcpProviders.value, fromName);
        modified' := true;
      }
    }

    /** `--mcp-server` */
    method ServerFlag(args: ConfigArgs, themes: seq<string>, fromName: string -> ServerEntry,
                      ghost plan: Progress, ghost p: Progress, modified: bool)
      returns (ghost q: Progress, modified': bool, reason: Option<Rejection>)
      requires At(6, args, themes, fromName, plan, p, modified)
      modifies this`servers
      ensures reason.Some? ==> plan.stop == reason && plan.settings == Editable()
      ensures reason.None? ==> At(7, args, themes, fromName, plan, q, modified')
    {
      q := ServerStep(args.mcpServer, p);
      Advance(6, args, themes, fromName, p);
      modified', reason := modified, None;
      if args.mcpServer.Some? {
        var parts := Split(args.mcpServer.value, ',');
        assert q == ServerValue(args.mcpServer.value, p) == ServerParts(parts, p);
        var stop := AddServerFlag(parts, p);
        if stop {
          assert q == p.(stop := Some(NoEndpoint));
          StoppedStays(7, args, themes, fromName, q);
          assert plan == q;
          return q, modified, Some(NoEndpoint);
        }
        modified' := modified || |parts| >= 2;
      }
    }

    /** `--system`, the last editing flag. */
    method SystemFlag(args: ConfigArgs, themes: seq<string>, fromName: string -> ServerEntry,
                      ghost plan: Progress, ghost p: Progress, modified: bool)
      returns (ghost q: Progress, modified': bool)
      requires At(7, args, themes, fromName, plan, p, modified)
      modifies this`system
      ensures plan == q && q.stop.None? && Editable() == q.settings && modified' == q.modified
    {
      q := SystemStep(args.system, p);
      Advance(7, args, themes, fromName, p);
      modified' := modified;
      if args.system.Some? {
        system := SystemPrompt(args.system.value);
        modified' := true;
      }
    }

    /** `--mcp-server`, on its comma parts: too few is reported and
        ignored; a server with neither url nor command stops the command;
        any other replaces the servers of its name. */
    method AddServerFlag(parts: seq<string>, ghost p: Progress) returns (stop: bool)
      requires p.stop.None? && Editable() == p.settings
      modifies this`servers
      ensures var q := ServerParts(parts, p);
        stop == q.stop.Some? && (!stop ==> Editable() == q.settings && q.modified == (p.modified || |parts| >= 2))
      ensures stop ==> ServerParts(parts, p) == p.(stop := Some(NoEndpoint)) && Editable() == p.settings
    {
      if |parts| < 2 {
        return false;
      }
      var server := BuildServer(parts);
      if server.serverType == External && server.url.None? && server.command.None? {
        return true;
      }
      servers := Filter(servers, OtherThan(server.name));
      servers := servers + [server];
      return false;
    }
  }

  const UNKNOWN_FIELD := "Unknown field"

  const FIELD_NAMES: set<string> := {
    "log_level", "model", "mcp_response_warning_threshold", "max_request_tokens_threshold",
    "enable_auto_truncation", "cache_tokens_threshold", "cache_timeout_seconds", "enable_markdown_rendering",
    "markdown_theme", "max_session_spending_threshold", "developer.enable_layers", "assistant.enable_layers",
    "developer.mcp.server_refs", "assistant.mcp.server_refs", "developer.system", "assistant.system",
    "layers", "commands", "system"
  }

  /** A count of configured items, or "None" when there is no list. */
  function CountText(count: Option<nat>, noun: string): string {
    if count.Some? then NatToString(count.value) + noun else "None"
  }

  /** The displayed log level and counters read back as the values they
      show. */
  lemma FieldValueReadsBack(config: Config)
    requires config.cacheTokensThreshold < U64_LIMIT && config.cacheTimeoutSeconds < U64_LIMIT
    requires config.mcpResponseWarningThreshold < U64_LIMIT && config.maxRequestTokensThreshold < U64_LIMIT
    ensures ParseLogLevel(config.FieldValue("log_level")) == Some(config.logLevel)
    ensures ParseU64(config.FieldValue("cache_tokens_threshold")) == Some(config.cacheTokensThreshold)
    ensures ParseU64(config.FieldValue("cache_timeout_seconds")) == Some(config.cacheTimeoutSeconds)
    ensures ParseU64(config.FieldValue("mcp_response_warning_threshold")) == Some(config.mcpResponseWarningThreshold)
    ensures ParseU64(config.FieldValue("max_request_tokens_threshold")) == Some(config.maxRequestTokensThreshold)
  {
    LogLevelRoundTrip(config.logLevel);
    ParseU64RoundTrip(config.cacheTokensThreshold);
    ParseU64RoundTrip(config.cacheTimeoutSeconds);
    ParseU64RoundTrip(config.mcpResponseWarningThreshold);
    ParseU64RoundTrip(config.maxRequestTokensThreshold);
  }
}
