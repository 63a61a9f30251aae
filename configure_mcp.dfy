// The MCP settings script for the SDK-compatible server: where the
// configuration is looked for, how `KEY=VALUE` strings become the entry's
// environment, the entry itself, the merge that leaves every other server
// alone, and the variables `main` adds before calling it.
//
// The file system (which paths exist, what loading the file gives, whether
// saving succeeds), the home directory, the interpreter path and the
// script's directory are parameters; printed lines are returned.
module ConfigureMcp {
  import opened Wrappers
  import Text
  import Json
  import McpConfig

  // ---- find_mcp_config ----

  /** `DEFAULT_MCP_CONFIG_PATHS`, expanded under the home directory. */
  function DefaultPaths(home: string): seq<string>
  {
    [home + "/.codeium/windsurf/mcp_config.json", home + "/.config/mcp/config.json", home + "/.mcp/config.json"]
  }

  /** `find_mcp_config`: the first default path that exists, or None. */
  method FindMcpConfig(home: string, isPresent: string -> bool) returns (path: Option<string>)
    ensures var c := DefaultPaths(home);
      && (path.Some? <==> exists i :: 0 <= i < |c| && isPresent(c[i]))
      && (path.Some? ==> exists i :: 0 <= i < |c| && isPresent(c[i]) && path.value == c[i]
                                       && forall j :: 0 <= j < i ==> !isPresent(c[j]))
  {
    var candidates := DefaultPaths(home);
    var i := 0;
    while i < |candidates|
      invariant 0 <= i <= |candidates|
      invariant forall j :: 0 <= j < i ==> !isPresent(candidates[j])
    {
      if isPresent(candidates[i]) {
        return Some(candidates[i]);
      }
      i := i + 1;
    }
    return None;
  }

  // ---- the environment dict ----

  /** `s.split("=", 1)` for a string holding "=": the part before the first "=" and the rest. */
  function SplitAtEquals(s: string): (r: (string, string))
    requires '=' in s
    ensures '=' !in r.0 && s == r.0 + "=" + r.1
  {
    if s[0] == '=' then ("", s[1..])
    else
      var rest := SplitAtEquals(s[1..]);
      ([s[0]] + rest.0, rest.1)
  }

  /** A key with no "=" in it comes back out of `KEY=VALUE`, whatever the value holds. */
  lemma {:induction false} SplitAtKey(key: string, value: string)
    requires '=' !in key
    ensures SplitAtEquals(key + "=" + value) == (key, value)
  {
    var s := key + "=" + value;
    if key == [] {
      assert s[0] == '=' && s[1..] == value;
    } else {
      assert s[0] == key[0] && s[1..] == key[1..] + "=" + value;
      SplitAtKey(key[1..], value);
      assert [key[0]] + key[1..] == key;
    }
  }

  /** The dict the loop builds from the strings seen so far; those without "=" are skipped. */
  function EnvOf(vars: seq<string>): Json.Fields
  {
    if vars == [] then []
    else
      var last := vars[|vars| - 1];
      var before := EnvOf(vars[..|vars| - 1]);
      if '=' in last then Json.Put(before, SplitAtEquals(last).0, Json.Str(SplitAtEquals(last).1)) else before
  }

  /** The value of the last string that sets `key`, if any. */
  function LastValue(vars: seq<string>, key: string): Option<string>
  {
    if vars == [] then None
    else
      var last := vars[|vars| - 1];
      if '=' in last && SplitAtEquals(last).0 == key then Some(SplitAtEquals(last).1)
      else LastValue(vars[..|vars| - 1], key)
  }

  /** Later strings win: each key holds the value its last string gives it. */
  lemma {:induction false} LastSettingWins(vars: seq<string>, key: string)
    ensures Json.Get(EnvOf(vars), key) == if LastValue(vars, key).Some? then Some(Json.Str(LastValue(vars, key).value)) else None
  {
    if vars != [] {
      var last := vars[|vars| - 1];
      var init := vars[..|vars| - 1];
      LastSettingWins(init, key);
      if '=' in last {
        var (k, v) := SplitAtEquals(last);
        if k == key {
          Json.GetPutSame(EnvOf(init), k, Json.Str(v));
        } else {
          Json.GetPutOther(EnvOf(init), k, Json.Str(v), key);
        }
      }
    }
  }

  /** The loop of `configure_poe_mcp` that fills `env_dict`. */
  method EnvDict(vars: seq<string>) returns (env: Json.Fields)
    ensures env == EnvOf(vars)
  {
    env := [];
    var i := 0;
    while i < |vars|
      invariant 0 <= i <= |vars|
      invariant env == EnvOf(vars[..i])
    {
      assert vars[..i + 1][..i] == vars[..i];
      var v := vars[i];
      if '=' in v {
        var (key, value) := SplitAtEquals(v);
        env := Json.Put(env, key, Json.Str(value));
      }
      i := i + 1;
    }
    assert vars[..i] == vars;
  }

  // ---- the entry and the merge ----

  const AutoApprove: seq<string> := ["ask_poe", "ask_with_attachment", "clear_session", "list_available_models", "get_server_info"]

  /** `server_config` */
  function ServerEntry(python: string, script: string, port: int, env: Json.Fields): Json.Value
  {
    Json.Obj([
      ("command", Json.Str(python)),
      ("args", Json.Arr([Json.Str(script), Json.Str(Text.IntToString(port))])),
      ("env", Json.Obj(env)),
      ("disabled", Json.Bool(false)),
      ("autoApprove", Json.Arr([Json.Str(AutoApprove[0]), Json.Str(AutoApprove[1]), Json.Str(AutoApprove[2]),
                                Json.Str(AutoApprove[3]), Json.Str(AutoApprove[4])]))])
  }

  /** `os.path.join(directory, name)` for a relative `name`. */
  function PathJoin(directory: string, name: string): string
  {
    if directory == "" || directory[|directory| - 1] == '/' then directory + name else directory + "/" + name
  }

  /**
   * The configuration worked on and the lines loading it prints: the loaded
   * one, or `{"mcpServers": {}}` when the file is missing, does not load, or
   * loads as `null`.
   */
  function StartingConfig(path: string, present: bool, loaded: Result<Json.Value, string>): (r: (Json.Value, seq<string>))
    ensures !present || loaded.Failure? || loaded == Success(Json.Null) <==> r.0 == McpConfig.EmptyConfig && |r.1| > 0
    ensures present && loaded.Success? && loaded.value != Json.Null ==> r == (loaded.value, [])
    ensures !present || loaded.Failure? || loaded == Success(Json.Null) ==> McpConfig.Mergeable(r.0)
  {
    if !present then (McpConfig.EmptyConfig, ["Config file " + path + " does not exist. Creating new config."])
    else
      match loaded
      case Failure(e) =>
        (McpConfig.EmptyConfig, ["Error loading MCP config: " + e, "Could not load config from " + path + ". Creating new config."])
      case Success(v) =>
        if v == Json.Null then (McpConfig.EmptyConfig, ["Could not load config from " + path + ". Creating new config."])
        else (v, [])
  }

  /**
   * The lines printed once `save_mcp_config` has answered; a failed save
   * first prints its exception's text, `saveError`.
   */
  function SavedLines(name: string, path: string, port: int, env: Json.Fields, saved: bool, saveError: string): seq<string>
  {
    if saved then
      ["Successfully configured " + name + " in " + path, "Server will run on port " + Text.IntToString(port), "Environment variables:"]
      + seq(|env|, i requires 0 <= i < |env| => "  " + env[i].0 + "=" + (if env[i].1.Str? then env[i].1.s else Json.Dumps(env[i].1)))
    else ["Error saving MCP config: " + saveError, "Failed to configure " + name + " in " + path]
  }

  /**
   * When the write into "mcpServers" raises only after the test whether the
   * server is already there has been answered (the server value is a
   * string or a list, which `in` accepts but item assignment does not):
   * that answer. None when the merge goes through or raises earlier.
   */
  function LateFailure(config: Json.Value, name: string): Option<bool>
  {
    if config.Obj? && Json.Get(config.fields, McpConfig.ServersKey).Some?
       && (Json.Get(config.fields, McpConfig.ServersKey).value.Str? || Json.Get(config.fields, McpConfig.ServersKey).value.Arr?)
    then Some(Json.In(name, Json.Get(config.fields, McpConfig.ServersKey).value).value)
    else None
  }

  /**
   * Lines 71-73 and 107-112 of `configure_poe_mcp`: ensure the server dict,
   * ask whether the server is already in it, then write the entry. It goes
   * through exactly for a mergeable configuration, gives `Merged`, and
   * says whether the server was there before. `asked` is the answer to that
   * question whenever it was asked, which is also when a failing merge
   * raises only at the write.
   */
  method AddOrUpdate(config: Json.Value, name: string, entry: Json.Value)
    returns (r: Result<(Json.Value, bool), string>, asked: Option<bool>)
    ensures r.Success? <==> McpConfig.Mergeable(config)
    ensures r.Success? ==> r.value == (Json.Obj(McpConfig.Merged(config.fields, name, entry)),
                                       name in Json.Keys(McpConfig.ServersOf(config.fields)))
                           && asked == Some(r.value.1)
    ensures r.Failure? ==> asked == LateFailure(config, name)
  {
    asked := None;
    var root := McpConfig.EnsureServers(config);
    if root.Failure? {
      return Failure(root.error), asked;
    }
    if config.Obj? {
      if McpConfig.ServersKey !in Json.Keys(config.fields) {
        Json.KeysPut(config.fields, McpConfig.ServersKey, Json.Obj([]));
      }
      McpConfig.EnsuredServers(config.fields);
    }
    var servers := Json.Index(root.value, McpConfig.ServersKey);
    if servers.Failure? {
      return Failure(servers.error), asked;
    }
    var existed := Json.In(name, servers.value);
    if existed.Failure? {
      return Failure(existed.error), asked;
    }
    asked := Some(existed.value);
    var merged := McpConfig.SetServer(root.value, name, entry);
    if merged.Failure? {
      return Failure(merged.error), asked;
    }
    r := Success((merged.value, existed.value));
  }

  /** The line printed before the entry is written. */
  function AnnounceLine(name: string, existed: bool): string
  {
    if existed then "Updating existing server configuration for " + name else "Adding new server configuration for " + name
  }

  /**
   * The lines `configure_poe_mcp` prints, by the path it takes: the lines
   * of loading; then, for a mergeable configuration, whether the server is
   * added or updated and what the save gave; otherwise the added-or-updated
   * line only when the merge raised at the write itself.
   */
  function ConfigureLines(path: string, name: string, port: int, env: Json.Fields, present: bool,
                          loaded: Result<Json.Value, string>, saved: bool, saveError: string): seq<string>
  {
    var (config, loadLines) := StartingConfig(path, present, loaded);
    if McpConfig.Mergeable(config) then
      loadLines + [AnnounceLine(name, name in Json.Keys(McpConfig.ServersOf(config.fields)))]
      + SavedLines(name, path, port, env, saved, saveError)
    else
      var late := LateFailure(config, name);
      loadLines + (if late.Some? then [AnnounceLine(name, late.value)] else [])
  }

  /**
   * `configure_poe_mcp`: `written` is what goes to `save_config`. The entry
   * is added or replaced exactly when the starting configuration is
   * mergeable, and then the written configuration is that configuration
   * with only this server's entry written; the line printed before the
   * write says whether the server was already there. The interpreter
   * defaults to `executable` and the script to the v2 runner in `scriptsDir`.
   */
  method ConfigurePoeMcp(path: string, name: string, port: int, envVars: seq<string>, python: Option<string>,
                         script: Option<string>, executable: string, scriptsDir: string,
                         present: bool, loaded: Result<Json.Value, string>, saved: bool, saveError: string)
    returns (r: Result<bool, string>, written: Option<Json.Value>, lines: seq<string>)
    ensures r.Success? <==> McpConfig.Mergeable(StartingConfig(path, present, loaded).0)
    ensures r.Success? ==> r.value == saved
    ensures r.Success? ==>
      var config := StartingConfig(path, present, loaded).0;
      var entry := ServerEntry(python.UnwrapOr(executable), script.UnwrapOr(PathJoin(scriptsDir, "run_sse_server_v2.py")),
                               port, EnvOf(envVars));
      written == Some(Json.Obj(McpConfig.Merged(config.fields, name, entry)))
    ensures r.Failure? ==> written == None
    ensures lines == ConfigureLines(path, name, port, EnvOf(envVars), present, loaded, saved, saveError)
  {
    var (config, loadLines) := StartingConfig(path, present, loaded);
    var env := EnvDict(envVars);
    var entry := ServerEntry(python.UnwrapOr(executable), script.UnwrapOr(PathJoin(scriptsDir, "run_sse_server_v2.py")), port, env);
    var added, asked := AddOrUpdate(config, name, entry);
    if added.Failure? {
      lines := loadLines + (if asked.Some? then [AnnounceLine(name, asked.value)] else []);
      return Failure(added.error), None, lines;
    }
    written := Some(added.value.0);
    lines := loadLines + [AnnounceLine(name, added.value.1)] + SavedLines(name, path, port, env, saved, saveError);
    r := Success(saved);
  }

  // ---- main ----

  /** `any(var.startswith(prefix) for var in vars)` */
  predicate AnySets(vars: seq<string>, prefix: string)
  {
    exists i :: 0 <= i < |vars| && prefix <= vars[i]
  }

  /** Strings that do not start with `prefix` leave the answer as it was. */
  lemma AnySetsAppend(vars: seq<string>, extra: seq<string>, prefix: string)
    requires forall i :: 0 <= i < |extra| ==> !(prefix <= extra[i])
    ensures AnySets(vars + extra, prefix) <==> AnySets(vars, prefix)
  {
    if AnySets(vars + extra, prefix) {
      var i :| 0 <= i < |vars + extra| && prefix <= (vars + extra)[i];
      assert i < |vars|;
      assert (vars + extra)[i] == vars[i];
    }
    if AnySets(vars, prefix) {
      var i :| 0 <= i < |vars| && prefix <= vars[i];
      assert (vars + extra)[i] == vars[i];
    }
  }

  /** Strings whose first characters differ do not start one another. */
  lemma NotPrefix(prefix: string, x: string)
    requires |prefix| > 0 && |x| > 0 && prefix[0] != x[0]
    ensures !(prefix <= x)
  {
  }

  /** A string that starts with `prefix` makes the answer yes. */
  lemma AnySetsWith(vars: seq<string>, x: string, prefix: string)
    requires prefix <= x
    ensures AnySets(vars + [x], prefix)
  {
    assert (vars + [x])[|vars|] == x;
  }

  /** `main`'s list once the key is appended. */
  function WithKey(userEnv: seq<string>, apiKey: Option<string>): seq<string>
  {
    userEnv + (if apiKey.Some? && apiKey.value != "" then ["POE_API_KEY=" + apiKey.value] else [])
  }

  /** `main`'s list once CLAUDE_COMPATIBLE has been defaulted. */
  function WithClaude(userEnv: seq<string>, apiKey: Option<string>): seq<string>
  {
    var withKey := WithKey(userEnv, apiKey);
    withKey + (if !AnySets(withKey, "CLAUDE_COMPATIBLE=") then ["CLAUDE_COMPATIBLE=true"] else [])
  }

  /** `main`'s `env_vars`: the `--env` strings, then the key, then the two defaults when not already set. */
  function MainEnv(userEnv: seq<string>, apiKey: Option<string>, sdkCompatible: bool): seq<string>
  {
    var withClaude := WithClaude(userEnv, apiKey);
    withClaude + (if sdkCompatible && !AnySets(withClaude, "SDK_COMPATIBLE=") then ["SDK_COMPATIBLE=true"] else [])
  }

  /** The key's string sets neither default. */
  lemma KeySetsNoDefault(userEnv: seq<string>, apiKey: Option<string>)
    ensures AnySets(WithKey(userEnv, apiKey), "CLAUDE_COMPATIBLE=") <==> AnySets(userEnv, "CLAUDE_COMPATIBLE=")
    ensures AnySets(WithKey(userEnv, apiKey), "SDK_COMPATIBLE=") <==> AnySets(userEnv, "SDK_COMPATIBLE=")
  {
    if apiKey.Some? && apiKey.value != "" {
      var extra := ["POE_API_KEY=" + apiKey.value];
      NotPrefix("CLAUDE_COMPATIBLE=", extra[0]);
      NotPrefix("SDK_COMPATIBLE=", extra[0]);
      AnySetsAppend(userEnv, extra, "CLAUDE_COMPATIBLE=");
      AnySetsAppend(userEnv, extra, "SDK_COMPATIBLE=");
    } else {
      assert WithKey(userEnv, apiKey) == userEnv;
    }
  }

  /**
   * The user's strings come first and unchanged, then the key when one is
   * given; "CLAUDE_COMPATIBLE=true" is added exactly when no string sets
   * CLAUDE_COMPATIBLE, so the list always sets it.
   */
  lemma ClaudeDefault(userEnv: seq<string>, apiKey: Option<string>, sdkCompatible: bool)
    ensures var env := MainEnv(userEnv, apiKey, sdkCompatible);
      && env[..|userEnv|] == userEnv
      && (apiKey.Some? && apiKey.value != "" ==> env[|userEnv|] == "POE_API_KEY=" + apiKey.value)
      && (("CLAUDE_COMPATIBLE=true" in WithClaude(userEnv, apiKey)[|WithKey(userEnv, apiKey)|..])
            <==> !AnySets(userEnv, "CLAUDE_COMPATIBLE="))
      && AnySets(env, "CLAUDE_COMPATIBLE=")
  {
    var withKey := WithKey(userEnv, apiKey);
    var withClaude := WithClaude(userEnv, apiKey);
    var env := MainEnv(userEnv, apiKey, sdkCompatible);
    KeySetsNoDefault(userEnv, apiKey);
    assert env[..|userEnv|] == userEnv by {
      assert forall i :: 0 <= i < |userEnv| ==> env[i] == userEnv[i];
    }
    if AnySets(withKey, "CLAUDE_COMPATIBLE=") {
      assert withClaude == withKey + [];
      var i :| 0 <= i < |withKey| && "CLAUDE_COMPATIBLE=" <= withKey[i];
      assert env[i] == withKey[i];
    } else {
      AnySetsWith(withKey, "CLAUDE_COMPATIBLE=true", "CLAUDE_COMPATIBLE=");
      assert env[|withKey|] == "CLAUDE_COMPATIBLE=true";
    }
  }

  /**
   * "SDK_COMPATIBLE=true" is added exactly when the flag is on and no
   * string sets SDK_COMPATIBLE; with the flag the list always sets it, and
   * without it the list is the one before this step.
   */
  lemma SdkDefault(userEnv: seq<string>, apiKey: Option<string>, sdkCompatible: bool)
    ensures var env := MainEnv(userEnv, apiKey, sdkCompatible);
      var withClaude := WithClaude(userEnv, apiKey);
      && (|env| > |withClaude| <==> sdkCompatible && !AnySets(userEnv, "SDK_COMPATIBLE="))
      && (|env| > |withClaude| ==> env == withClaude + ["SDK_COMPATIBLE=true"])
      && (sdkCompatible ==> AnySets(env, "SDK_COMPATIBLE="))
      && (!sdkCompatible ==> env == withClaude)
  {
    var withKey := WithKey(userEnv, apiKey);
    var withClaude := WithClaude(userEnv, apiKey);
    KeySetsNoDefault(userEnv, apiKey);
    var extra := if !AnySets(withKey, "CLAUDE_COMPATIBLE=") then ["CLAUDE_COMPATIBLE=true"] else [];
    assert withClaude == withKey + extra;
    if extra != [] {
      NotPrefix("SDK_COMPATIBLE=", extra[0]);
    }
    AnySetsAppend(withKey, extra, "SDK_COMPATIBLE=");
    if sdkCompatible {
      if AnySets(withClaude, "SDK_COMPATIBLE=") {
        assert MainEnv(userEnv, apiKey, sdkCompatible) == withClaude;
      } else {
        AnySetsWith(withClaude, "SDK_COMPATIBLE=true", "SDK_COMPATIBLE=");
      }
    } else {
      assert MainEnv(userEnv, apiKey, sdkCompatible) == withClaude;
    }
  }

  /** A string added after the last one to set `key` does not change its value. */
  lemma LastValueSkip(vars: seq<string>, more: string, key: string)
    requires '=' in more && SplitAtEquals(more).0 != key
    ensures LastValue(vars + [more], key) == LastValue(vars, key)
  {
    assert (vars + [more])[..|vars|] == vars;
  }

  /** A string whose first "=" is at `i` splits there. */
  lemma {:induction false} SplitAtFirst(s: string, i: nat)
    requires i < |s| && s[i] == '=' && '=' !in s[..i]
    ensures SplitAtEquals(s) == (s[..i], s[i + 1..])
  {
    if i > 0 {
      assert s[0] == s[..i][0];
      assert s[1..][..i - 1] == s[..i][1..];
      SplitAtFirst(s[1..], i - 1);
      assert [s[0]] + s[..i][1..] == s[..i];
      assert s[1..][i..] == s[i + 1..];
    }
  }

  /** A string setting a name of another length does not change the key's value. */
  lemma LastValueSkipSetting(vars: seq<string>, line: string, i: nat, key: string)
    requires i < |line| && line[i] == '=' && '=' !in line[..i] && i != |key|
    ensures LastValue(vars + [line], key) == LastValue(vars, key)
  {
    SplitAtFirst(line, i);
    LastValueSkip(vars, line, key);
  }

  /** "CLAUDE_COMPATIBLE=true" does not set POE_API_KEY. */
  lemma ClaudeLineKeepsKey(vars: seq<string>)
    ensures LastValue(vars + ["CLAUDE_COMPATIBLE=true"], "POE_API_KEY") == LastValue(vars, "POE_API_KEY")
  {
    var line := "CLAUDE_COMPATIBLE=true";
    assert line[..17] == "CLAUDE_COMPATIBLE";
    LastValueSkipSetting(vars, line, 17, "POE_API_KEY");
  }

  /** "SDK_COMPATIBLE=true" does not set POE_API_KEY. */
  lemma SdkLineKeepsKey(vars: seq<string>)
    ensures LastValue(vars + ["SDK_COMPATIBLE=true"], "POE_API_KEY") == LastValue(vars, "POE_API_KEY")
  {
    var line := "SDK_COMPATIBLE=true";
    assert line[..14] == "SDK_COMPATIBLE";
    LastValueSkipSetting(vars, line, 14, "POE_API_KEY");
  }

  /** The defaults `main` appends after the key never set POE_API_KEY. */
  lemma DefaultsKeepKey(userEnv: seq<string>, apiKey: Option<string>, sdkCompatible: bool)
    ensures LastValue(MainEnv(userEnv, apiKey, sdkCompatible), "POE_API_KEY") == LastValue(WithKey(userEnv, apiKey), "POE_API_KEY")
  {
    var withKey := WithKey(userEnv, apiKey);
    var withClaude := WithClaude(userEnv, apiKey);
    if !AnySets(withKey, "CLAUDE_COMPATIBLE=") {
      ClaudeLineKeepsKey(withKey);
    } else {
      assert withClaude == withKey;
    }
    var env := MainEnv(userEnv, apiKey, sdkCompatible);
    if sdkCompatible && !AnySets(withClaude, "SDK_COMPATIBLE=") {
      SdkLineKeepsKey(withClaude);
    } else {
      assert env == withClaude;
    }
  }

  /**
   * The key given with `--api-key` is the one the entry's environment
   * holds, even when an `--env` string also sets POE_API_KEY.
   */
  lemma ApiKeyWins(userEnv: seq<string>, key: string, sdkCompatible: bool)
    requires key != ""
    ensures Json.Get(EnvOf(MainEnv(userEnv, Some(key), sdkCompatible)), "POE_API_KEY") == Some(Json.Str(key))
  {
    var withKey := WithKey(userEnv, Some(key));
    var keyLine := "POE_API_KEY=" + key;
    assert keyLine == "POE_API_KEY" + "=" + key;
    SplitAtKey("POE_API_KEY", key);
    assert withKey[|withKey| - 1] == keyLine;
    assert LastValue(withKey, "POE_API_KEY") == Some(key);
    DefaultsKeepKey(userEnv, Some(key), sdkCompatible);
    LastSettingWins(MainEnv(userEnv, Some(key), sdkCompatible), "POE_API_KEY");
  }

  /** The parsed command line. */
  datatype Args = Args(
    config: Option<string>,
    name: string,
    port: int,
    env: seq<string>,
    apiKey: Option<string>,
    pythonPath: Option<string>,
    scriptPath: Option<string>,
    sdkCompatible: bool)

  /** `--script-path`, else the v2 runner with `--sdk-compatible` and the first runner without. */
  function MainScript(scriptPath: Option<string>, sdkCompatible: bool, scriptsDir: string): string
  {
    if scriptPath.Some? then scriptPath.value
    else PathJoin(scriptsDir, if sdkCompatible then "run_sse_server_v2.py" else "run_sse_server.py")
  }

  /** The usage text `main` prints after configuring, whatever `configure_poe_mcp` answered (unless it raised). */
  function ClosingLines(port: int): seq<string>
  {
    var url := "http://localhost:" + Text.IntToString(port);
    ["\nConfiguration complete!",
     "To use this server with Claude, make sure your MCP client is configured to use it.",
     "The server will be available at: " + url,
     "\nExample usage with FastMCP client:",
     "```python",
     "from mcp.client import MCPClient",
     "client = MCPClient('" + url + "')",
     "response = await client.call('ask_poe', {",
     "    'bot': 'claude',",
     "    'prompt': 'Hello, Claude!'",
     "})",
     "```"]
  }

  /**
   * The path `main` settles on: `--config` when given (even empty); otherwise a default path
   * that exists with none existing before it, or else the first default when
   * none of them exists.
   */
  predicate ChosenPath(config: Option<string>, home: string, isPresent: string -> bool, path: string)
  {
    && (config.Some? ==> path == config.value)
    && (config.None? && isPresent(path) ==>
          exists i :: (0 <= i < 3 && DefaultPaths(home)[i] == path
                       && forall j :: 0 <= j < i ==> !isPresent(DefaultPaths(home)[j])))
    && (config.None? && !isPresent(path) ==>
          path == DefaultPaths(home)[0] && forall i :: 0 <= i < 3 ==> !isPresent(DefaultPaths(home)[i]))
  }

  method ChooseConfigPath(config: Option<string>, home: string, isPresent: string -> bool)
    returns (path: string, lines: seq<string>)
    ensures config.None? ==> path in DefaultPaths(home)
    ensures ChosenPath(config, home, isPresent, path)
    ensures lines == FallbackLines(config, path, isPresent(path))
  {
    lines := [];
    if config.Some? {
      path := config.value;
    } else {
      var found := FindMcpConfig(home, isPresent);
      if found.Some? {
        path := found.value;
      } else {
        path := DefaultPaths(home)[0];
        lines := ["No existing MCP config found. Using default path: " + path];
      }
    }
  }

  /** The entry `main` asks for. */
  function MainEntry(args: Args, scriptsDir: string, executable: string): Json.Value
  {
    ServerEntry(args.pythonPath.UnwrapOr(executable), MainScript(args.scriptPath, args.sdkCompatible, scriptsDir), args.port,
                EnvOf(MainEnv(args.env, args.apiKey, args.sdkCompatible)))
  }

  /** The line `main` prints when it falls back to the first default path. */
  function FallbackLines(config: Option<string>, path: string, present: bool): seq<string>
  {
    if config.None? && !present then ["No existing MCP config found. Using default path: " + path] else []
  }

  /** `main`'s call of `configure_poe_mcp`, on the path it chose, with its environment and script. */
  method ConfigureMain(args: Args, path: string, present: bool, scriptsDir: string, executable: string,
                       loaded: Result<Json.Value, string>, saved: bool, saveError: string)
    returns (configured: Result<bool, string>, written: Option<Json.Value>, lines: seq<string>)
    ensures configured.Success? <==> McpConfig.Mergeable(StartingConfig(path, present, loaded).0)
    ensures configured.Success? ==>
      written == Some(Json.Obj(McpConfig.Merged(StartingConfig(path, present, loaded).0.fields, args.name,
                                                MainEntry(args, scriptsDir, executable))))
    ensures configured.Failure? ==> written == None
    ensures lines == ConfigureLines(path, args.name, args.port, EnvOf(MainEnv(args.env, args.apiKey, args.sdkCompatible)),
                                    present, loaded, saved, saveError)
  {
    var envVars := MainEnv(args.env, args.apiKey, args.sdkCompatible);
    var script := MainScript(args.scriptPath, args.sdkCompatible, scriptsDir);
    configured, written, lines := ConfigurePoeMcp(path, args.name, args.port, envVars, args.pythonPath, Some(script),
                                                  executable, scriptsDir, present, loaded, saved, saveError);
    assert ServerEntry(args.pythonPath.UnwrapOr(executable), Some(script).UnwrapOr(PathJoin(scriptsDir, "run_sse_server_v2.py")),
                       args.port, EnvOf(envVars)) == MainEntry(args, scriptsDir, executable);
  }

  /**
   * What `main` does once its path is chosen: whether `configure_poe_mcp`
   * went through (only a configuration that cannot be merged makes it
   * raise), the configuration written, and every line printed, from the
   * fallback notice to the usage text that follows a run that did not raise.
   */
  function MainOutcome(args: Args, path: string, present: bool, scriptsDir: string, executable: string,
                       loaded: Result<Json.Value, string>, saved: bool, saveError: string)
    : (bool, Option<Json.Value>, seq<string>)
  {
    var config := StartingConfig(path, present, loaded).0;
    var ok := McpConfig.Mergeable(config);
    (ok,
     if ok then Some(Json.Obj(McpConfig.Merged(config.fields, args.name, MainEntry(args, scriptsDir, executable)))) else None,
     FallbackLines(args.config, path, present)
     + ConfigureLines(path, args.name, args.port, EnvOf(MainEnv(args.env, args.apiKey, args.sdkCompatible)),
                      present, loaded, saved, saveError)
     + (if ok then ClosingLines(args.port) else []))
  }

  /**
   * `main`: the configuration path is `--config` when given, else the first
   * default that exists, else the first default. On it, `configure_poe_mcp`
   * runs with the defaulted environment and script, and writes exactly when
   * the starting configuration is mergeable. Its answer is ignored: `r`
   * fails only where it raised, and otherwise the usage text follows its
   * lines.
   */
  method ConfigureFromArgs(args: Args, home: string, isPresent: string -> bool, scriptsDir: string, executable: string,
                           loaded: Result<Json.Value, string>, saved: bool, saveError: string)
    returns (r: Result<(), string>, path: string, written: Option<Json.Value>, lines: seq<string>)
    ensures ChosenPath(args.config, home, isPresent, path)
    ensures (r.Success?, written, lines) == MainOutcome(args, path, isPresent(path), scriptsDir, executable, loaded, saved, saveError)
  {
    var pathLines;
    path, pathLines := ChooseConfigPath(args.config, home, isPresent);
    var configured, configLines;
    configured, written, configLines := ConfigureMain(args, path, isPresent(path), scriptsDir, executable, loaded, saved, saveError);
    r := if configured.Failure? then Failure(configured.error) else Success(());
    lines := pathLines + configLines + (if r.Success? then ClosingLines(args.port) else []);
  }
}
