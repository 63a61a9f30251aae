// The Warp installer for the enhanced server: where the configuration file
// is looked for, how a missing or broken one is replaced, the server entry
// and its environment, the report printed after saving (with the API key
// masked), and the settings `main` passes on.
//
// The file system (which paths exist, what reading and saving the file
// give), the interpreter path and the default script path are parameters;
// printed lines are returned.
module InstallEnhanced {
  import opened Wrappers
  import Text
  import Json
  import McpConfig

  // ---- find_warp_config ----

  /** The places looked at, in order, under the home directory. */
  function Candidates(home: string): seq<string>
  {
    [home + "/.warp/mcp_config.json", home + "/.config/warp/mcp.json", home + "/.warp/config/mcp.json"]
  }

  /** `find_warp_config`: the first candidate that exists, else the first candidate. */
  method FindWarpConfig(home: string, isPresent: string -> bool) returns (path: string)
    ensures var c := Candidates(home);
      || (exists i :: 0 <= i < |c| && isPresent(c[i]) && path == c[i] && forall j :: 0 <= j < i ==> !isPresent(c[j]))
      || ((forall j :: 0 <= j < |c| ==> !isPresent(c[j])) && path == c[0])
  {
    var candidates := Candidates(home);
    var i := 0;
    while i < |candidates|
      invariant 0 <= i <= |candidates|
      invariant forall j :: 0 <= j < i ==> !isPresent(candidates[j])
    {
      if isPresent(candidates[i]) {
        return candidates[i];
      }
      i := i + 1;
    }
    return home + "/.warp/mcp_config.json";
  }

  // ---- load_config ----

  /** What opening and parsing an existing file gives. */
  datatype ReadOutcome = Parsed(value: Json.Value) | InvalidJson | ReadFailed(message: string)

  /** `load_config`: the parsed file, or `{"mcpServers": {}}`; only a read error other than bad JSON escapes. */
  function LoadConfig(present: bool, read: ReadOutcome): (r: Result<Json.Value, string>)
    ensures r.Failure? <==> present && read.ReadFailed?
    ensures !present || read.InvalidJson? ==> r == Success(McpConfig.EmptyConfig)
    ensures present && read.Parsed? ==> r == Success(read.value)
  {
    if !present then Success(McpConfig.EmptyConfig)
    else
      match read
      case Parsed(v) => Success(v)
      case InvalidJson => Success(McpConfig.EmptyConfig)
      case ReadFailed(message) => Failure(message)
  }

  /** What `load_config` prints: a warning exactly when an existing file is not valid JSON. */
  function LoadLines(configPath: string, present: bool, read: ReadOutcome): seq<string>
  {
    if present && read.InvalidJson? then ["Warning: Invalid JSON in " + configPath + ", creating new config"] else []
  }

  // ---- save_config ----

  /**
   * What `save_config` prints and what `setup_enhanced_poe_server` adds
   * when the save fails: the exception's text, then the failure line.
   */
  function SaveFailedLines(saveError: string): seq<string>
  {
    ["Error saving config: " + saveError, "\U{2717} Failed to save configuration"]
  }

  // ---- the entry ----

  /** Python truthiness of an optional string. */
  predicate Given(s: Option<string>)
  {
    s.Some? && s.value != ""
  }

  /** The `env_vars` dict, filled in the order key, Claude flag, debug flag. */
  function EnvVars(apiKey: Option<string>, claudeCompat: bool, debug: bool): Json.Fields
  {
    (if Given(apiKey) then [("POE_API_KEY", Json.Str(apiKey.value))] else [])
    + (if claudeCompat then [("CLAUDE_COMPATIBLE", Json.Str("true"))] else [])
    + (if debug then [("DEBUG_MODE", Json.Str("true"))] else [])
  }

  /**
   * Each variable is present exactly when its setting asks for it: the key
   * when one is given, the two flags as "true" when enabled.
   */
  lemma EnvVarsRules(apiKey: Option<string>, claudeCompat: bool, debug: bool)
    ensures var env := EnvVars(apiKey, claudeCompat, debug);
      && Json.Get(env, "POE_API_KEY") == (if Given(apiKey) then Some(Json.Str(apiKey.value)) else None)
      && Json.Get(env, "CLAUDE_COMPATIBLE") == (if claudeCompat then Some(Json.Str("true")) else None)
      && Json.Get(env, "DEBUG_MODE") == (if debug then Some(Json.Str("true")) else None)
  {
    var env := EnvVars(apiKey, claudeCompat, debug);
    if Given(apiKey) {
      Json.GetAt(env, 0);
    }
    if claudeCompat {
      Json.GetAt(env, if Given(apiKey) then 1 else 0);
    }
    if debug {
      Json.GetAt(env, |env| - 1);
    }
  }

  /** There are no other variables, and no name twice. */
  lemma EnvVarsKeys(apiKey: Option<string>, claudeCompat: bool, debug: bool)
    ensures var env := EnvVars(apiKey, claudeCompat, debug);
      && (forall k :: k in Json.Keys(env) ==> k in ["POE_API_KEY", "CLAUDE_COMPATIBLE", "DEBUG_MODE"])
      && Json.UniqueKeys(env)
  {
    var env := EnvVars(apiKey, claudeCompat, debug);
    assert forall i :: 0 <= i < |env| ==> env[i].0 in ["POE_API_KEY", "CLAUDE_COMPATIBLE", "DEBUG_MODE"];
  }

  const AutoApprove: seq<string> := [
    "ask_poe_with_actions", "ask_with_attachment_and_actions", "execute_command_tool",
    "create_file_tool", "ask_poe", "ask_with_attachment", "clear_session",
    "list_available_models", "get_enhanced_server_info"]

  function StrItems(names: seq<string>): (r: seq<Json.Value>)
    ensures |r| == |names| && forall i :: 0 <= i < |names| ==> r[i] == Json.Str(names[i])
  {
    seq(|names|, i requires 0 <= i < |names| => Json.Str(names[i]))
  }

  /** `server_config` */
  function ServerEntry(command: string, script: string, env: Json.Fields): Json.Value
  {
    Json.Obj([
      ("command", Json.Str(command)),
      ("args", Json.Arr([Json.Str(script)])),
      ("env", Json.Obj(env)),
      ("autoApprove", Json.Arr(StrItems(AutoApprove)))])
  }

  // ---- the report ----

  /** One environment line; the key's value is never shown. */
  function EnvLine(key: string, value: Json.Value): string
  {
    "    " + key + "=" + (if key == "POE_API_KEY" then "***" else if value.Str? then value.s else Json.Dumps(value))
  }

  function EnvLines(env: Json.Fields): seq<string>
  {
    seq(|env|, i requires 0 <= i < |env| => EnvLine(env[i].0, env[i].1))
  }

  /** What is printed after a successful save. */
  function Report(serverName: string, configPath: string, script: string, python: string, env: Json.Fields): seq<string>
  {
    ["\U{2713} Enhanced POE MCP server configured as '" + serverName + "'",
     "  Config file: " + configPath,
     "  Server script: " + script,
     "  Python: " + python]
    + (if env == [] then [] else ["  Environment variables:"] + EnvLines(env))
  }

  lemma EnvLinesCons(key: string, value: Json.Value, rest: Json.Fields)
    ensures EnvLines([(key, value)] + rest) == [EnvLine(key, value)] + EnvLines(rest)
  {
    var e := [(key, value)] + rest;
    assert forall i :: 1 <= i < |e| ==> e[i] == rest[i - 1];
  }

  /** The report does not depend on the key's value: installs that differ only in the (non-empty) key print the same lines. */
  lemma KeyNeverPrinted(serverName: string, configPath: string, script: string, python: string,
                        key1: string, key2: string, claudeCompat: bool, debug: bool)
    requires key1 != "" && key2 != ""
    ensures Report(serverName, configPath, script, python, EnvVars(Some(key1), claudeCompat, debug))
         == Report(serverName, configPath, script, python, EnvVars(Some(key2), claudeCompat, debug))
  {
    var rest := EnvVars(None, claudeCompat, debug);
    assert EnvVars(Some(key1), claudeCompat, debug) == [("POE_API_KEY", Json.Str(key1))] + rest;
    assert EnvVars(Some(key2), claudeCompat, debug) == [("POE_API_KEY", Json.Str(key2))] + rest;
    EnvLinesCons("POE_API_KEY", Json.Str(key1), rest);
    EnvLinesCons("POE_API_KEY", Json.Str(key2), rest);
  }

  /** In its place the report shows the key masked. */
  lemma KeyLineMasked(serverName: string, configPath: string, script: string, python: string,
                      key: string, claudeCompat: bool, debug: bool)
    requires key != ""
    ensures Report(serverName, configPath, script, python, EnvVars(Some(key), claudeCompat, debug))[5] == "    POE_API_KEY=***"
  {
    var rest := EnvVars(None, claudeCompat, debug);
    assert EnvVars(Some(key), claudeCompat, debug) == [("POE_API_KEY", Json.Str(key))] + rest;
    EnvLinesCons("POE_API_KEY", Json.Str(key), rest);
  }

  // ---- setup_enhanced_poe_server ----

  /** The arguments of `setup_enhanced_poe_server`. */
  datatype Settings = Settings(
    serverName: string,
    apiKey: Option<string>,
    claudeCompat: bool,
    debug: bool,
    pythonPath: Option<string>,
    serverScript: Option<string>)

  /** The interpreter and script paths, with `sys.executable` and the default script for None. */
  function Paths(s: Settings, executable: string, defaultScript: string): (string, string)
  {
    (s.pythonPath.UnwrapOr(executable), s.serverScript.UnwrapOr(defaultScript))
  }

  function EntryFor(s: Settings, executable: string, defaultScript: string): Json.Value
  {
    var (python, script) := Paths(s, executable, defaultScript);
    ServerEntry(python, script, EnvVars(s.apiKey, s.claudeCompat, s.debug))
  }

  /**
   * `setup_enhanced_poe_server`: `written` is what goes to `save_config`,
   * whose success is `saved` (and whose exception text, when it fails, is
   * `saveError`). A read error or a configuration that is not a dict with a
   * dict (or no) "mcpServers" raises before anything is saved; otherwise the
   * saved configuration is the loaded one with only this server's entry
   * written. The lines are `load_config`'s warning, if any, then the report
   * when the save succeeds, or the save's error and the failure line.
   */
  method SetupEnhancedPoeServer(configPath: string, s: Settings, present: bool, read: ReadOutcome,
                                executable: string, defaultScript: string, saved: bool, saveError: string)
    returns (r: Result<bool, string>, written: Option<Json.Value>, lines: seq<string>)
    ensures var loaded := LoadConfig(present, read);
      && (loaded.Failure? ==> r == Failure(loaded.error) && written == None && lines == [])
      && (loaded.Success? && !McpConfig.Mergeable(loaded.value) ==>
            r.Failure? && written == None && lines == LoadLines(configPath, present, read))
      && (loaded.Success? && McpConfig.Mergeable(loaded.value) ==>
            && written == Some(Json.Obj(McpConfig.Merged(loaded.value.fields, s.serverName, EntryFor(s, executable, defaultScript))))
            && r == Success(saved))
    ensures saved && r.Success? ==>
      lines == LoadLines(configPath, present, read)
               + Report(s.serverName, configPath, Paths(s, executable, defaultScript).1,
                        Paths(s, executable, defaultScript).0, EnvVars(s.apiKey, s.claudeCompat, s.debug))
    ensures !saved && r.Success? ==> lines == LoadLines(configPath, present, read) + SaveFailedLines(saveError)
  {
    written := None;
    lines := [];
    var loaded := LoadConfig(present, read);
    if loaded.Failure? {
      return Failure(loaded.error), written, lines;
    }
    lines := LoadLines(configPath, present, read);
    var python := s.pythonPath.UnwrapOr(executable);
    var script := s.serverScript.UnwrapOr(defaultScript);
    var env := EnvVars(s.apiKey, s.claudeCompat, s.debug);
    var entry := ServerEntry(python, script, env);
    var merged := McpConfig.AddServer(loaded.value, s.serverName, entry);
    if merged.Failure? {
      return Failure(merged.error), written, lines;
    }
    written := Some(merged.value);
    if saved {
      lines := lines + Report(s.serverName, configPath, script, python, env);
    } else {
      lines := lines + SaveFailedLines(saveError);
    }
    r := Success(saved);
  }

  /** With no file, or one that is not valid JSON, the saved configuration holds this server alone. */
  lemma FreshConfigHoldsOnlyServer(s: Settings, executable: string, defaultScript: string)
    ensures var entry := EntryFor(s, executable, defaultScript);
      McpConfig.Merged(McpConfig.EmptyConfig.fields, s.serverName, entry)
        == [(McpConfig.ServersKey, Json.Obj([(s.serverName, entry)]))]
  {
  }

  // ---- main ----

  /** The parsed command line. */
  datatype Args = Args(
    config: Option<string>,
    name: string,
    apiKey: Option<string>,
    claudeCompatGiven: bool,
    debug: bool,
    python: Option<string>,
    server: Option<string>)

  /** `--claude-compat` is `store_true` with default True: it is True whether or not it is given. */
  function ClaudeCompatOption(given: bool): bool
  {
    true
  }

  /** The key from `--api-key`, else the environment, else what is typed (stripped); None when all are empty. */
  function ResolveApiKey(fromArgs: Option<string>, fromEnv: Option<string>, typed: string): (r: Option<string>)
    ensures r.Some? ==> r.value != ""
    ensures Given(fromArgs) ==> r == fromArgs
    ensures !Given(fromArgs) && Given(fromEnv) ==> r == fromEnv
    ensures r.None? <==> !Given(fromArgs) && !Given(fromEnv) && Text.Strip(typed) == ""
  {
    if Given(fromArgs) then fromArgs
    else if Given(fromEnv) then fromEnv
    else if Text.Strip(typed) != "" then Some(Text.Strip(typed))
    else None
  }

  /** The configuration path and the settings `main` installs with, or None when it exits for want of a key. */
  function MainSettings(args: Args, found: string, fromEnv: Option<string>, typed: string): Option<(string, Settings)>
  {
    var configPath := if Given(args.config) then args.config.value else found;
    match ResolveApiKey(args.apiKey, fromEnv, typed)
    case None => None
    case Some(key) =>
      Some((configPath, Settings(args.name, Some(key), ClaudeCompatOption(args.claudeCompatGiven), args.debug, args.python, args.server)))
  }

  /**
   * Whenever `main` gets as far as installing, Claude compatibility is on
   * and the key is set, so the entry's environment always carries both.
   */
  lemma MainAlwaysClaudeCompatible(args: Args, found: string, fromEnv: Option<string>, typed: string)
    ensures var m := MainSettings(args, found, fromEnv, typed);
      && (m.None? <==> !Given(args.apiKey) && !Given(fromEnv) && Text.Strip(typed) == "")
      && (m.Some? ==>
            && m.value.1.claudeCompat
            && Json.Get(EnvVars(m.value.1.apiKey, m.value.1.claudeCompat, m.value.1.debug), "CLAUDE_COMPATIBLE") == Some(Json.Str("true"))
            && Json.Get(EnvVars(m.value.1.apiKey, m.value.1.claudeCompat, m.value.1.debug), "POE_API_KEY").Some?)
      && (m.Some? && Given(args.config) ==> m.value.0 == args.config.value)
      && (m.Some? && !Given(args.config) ==> m.value.0 == found)
  {
    var m := MainSettings(args, found, fromEnv, typed);
    if m.Some? {
      EnvVarsRules(m.value.1.apiKey, m.value.1.claudeCompat, m.value.1.debug);
    }
  }
}
