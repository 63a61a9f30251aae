// The step both MCP installers share: make sure the configuration holds an
// "mcpServers" dict, then assign one server's entry inside it. Python
// mutates the loaded dict in place; here the configuration is a value the
// method rebuilds step by step, raising (as a `Failure` with CPython's
// message) wherever a non-dict gets in the way.
module McpConfig {
  import opened Wrappers
  import Json

  const ServersKey := "mcpServers"

  /** `{"mcpServers": {}}`: what an installer starts from when it has no configuration. */
  const EmptyConfig := Json.Obj([(ServersKey, Json.Obj([]))])

  /** The server dict a configuration holds, or the empty one the merge would create. */
  function ServersOf(fields: Json.Fields): Json.Fields
  {
    match Json.Get(fields, ServersKey)
    case Some(Obj(servers)) => servers
    case _ => []
  }

  /** The merge goes through exactly for a dict whose "mcpServers", if present, is a dict. */
  predicate Mergeable(config: Json.Value)
  {
    config.Obj? && (Json.Get(config.fields, ServersKey).None? || Json.Get(config.fields, ServersKey).value.Obj?)
  }

  /**
   * `after` is `before` with only `mcpServers[name]` written: every other
   * top-level key keeps its value and its place ("mcpServers" is added at
   * the end when missing), and inside the server dict the entry is `entry`
   * while every other server is as it was.
   */
  ghost predicate OnlyServerWritten(before: Json.Fields, after: Json.Value, name: string, entry: Json.Value)
  {
    && after.Obj?
    && Json.Keys(after.fields) == (if ServersKey in Json.Keys(before) then Json.Keys(before) else Json.Keys(before) + [ServersKey])
    && (forall k :: k != ServersKey ==> Json.Get(after.fields, k) == Json.Get(before, k))
    && Json.Get(after.fields, ServersKey).Some? && Json.Get(after.fields, ServersKey).value.Obj?
    && var servers := Json.Get(after.fields, ServersKey).value.fields;
       var previous := ServersOf(before);
       && Json.Get(servers, name) == Some(entry)
       && (forall other :: other != name ==> Json.Get(servers, other) == Json.Get(previous, other))
       && Json.Keys(servers) == (if name in Json.Keys(previous) then Json.Keys(previous) else Json.Keys(previous) + [name])
  }

  /** What `d[k] = v` does to a dict, in one place. */
  lemma PutFacts(fields: Json.Fields, k: string, v: Json.Value)
    ensures Json.Get(Json.Put(fields, k, v), k) == Some(v)
    ensures forall other :: other != k ==> Json.Get(Json.Put(fields, k, v), other) == Json.Get(fields, other)
    ensures Json.Keys(Json.Put(fields, k, v)) == if k in Json.Keys(fields) then Json.Keys(fields) else Json.Keys(fields) + [k]
  {
    Json.GetPutSame(fields, k, v);
    Json.KeysPut(fields, k, v);
    forall other | other != k
      ensures Json.Get(Json.Put(fields, k, v), other) == Json.Get(fields, other)
    {
      Json.GetPutOther(fields, k, v, other);
    }
  }

  /** The top-level fields once "mcpServers" is sure to be present. */
  function Ensured(fields: Json.Fields): Json.Fields
  {
    if ServersKey in Json.Keys(fields) then fields else Json.Put(fields, ServersKey, Json.Obj([]))
  }

  /** The configuration's fields after a merge that goes through. */
  function Merged(fields: Json.Fields, name: string, entry: Json.Value): Json.Fields
  {
    Json.Put(Ensured(fields), ServersKey, Json.Obj(Json.Put(ServersOf(fields), name, entry)))
  }

  /** A merge writes `mcpServers[name]` and nothing else. */
  lemma MergedWritesOnlyServer(fields: Json.Fields, name: string, entry: Json.Value)
    requires Mergeable(Json.Obj(fields))
    ensures OnlyServerWritten(fields, Json.Obj(Merged(fields, name, entry)), name, entry)
  {
    var root := Ensured(fields);
    if ServersKey !in Json.Keys(fields) {
      PutFacts(fields, ServersKey, Json.Obj([]));
    }
    assert Json.Keys(root) == (if ServersKey in Json.Keys(fields) then Json.Keys(fields) else Json.Keys(fields) + [ServersKey]);
    assert forall k :: k != ServersKey ==> Json.Get(root, k) == Json.Get(fields, k);
    PutFacts(ServersOf(fields), name, entry);
    PutFacts(root, ServersKey, Json.Obj(Json.Put(ServersOf(fields), name, entry)));
  }

  /**
   * `if "mcpServers" not in config: config["mcpServers"] = {}`: a dict gains
   * an empty server dict when it has none; a string or list that mentions
   * "mcpServers" passes through unchanged, and any other value raises.
   */
  method EnsureServers(config: Json.Value) returns (r: Result<Json.Value, string>)
    ensures config.Obj? ==> r == Success(Json.Obj(Ensured(config.fields)))
    ensures r.Success? && !config.Obj? ==> r.value == config
  {
    var present := Json.In(ServersKey, config);
    if present.Failure? {
      return Failure(present.error);
    }
    r := Success(config);
    if !present.value {
      r := Json.SetItem(config, ServersKey, Json.Obj([]));
    }
  }

  /** `config["mcpServers"][name] = entry`, once "mcpServers" has been ensured. */
  method SetServer(root: Json.Value, name: string, entry: Json.Value) returns (r: Result<Json.Value, string>)
    ensures r.Success? <==> root.Obj? && Json.Get(root.fields, ServersKey).Some? && Json.Get(root.fields, ServersKey).value.Obj?
    ensures r.Success? ==> r.value == Json.Obj(Json.Put(root.fields, ServersKey,
                                         Json.Obj(Json.Put(Json.Get(root.fields, ServersKey).value.fields, name, entry))))
  {
    var servers := Json.Index(root, ServersKey);
    if servers.Failure? {
      return Failure(servers.error);
    }
    var updated := Json.SetItem(servers.value, name, entry);
    if updated.Failure? {
      return Failure(updated.error);
    }
    // The server dict is shared with the configuration, which therefore holds the updated one.
    r := Json.SetItem(root, ServersKey, updated.value);
  }

  /** Ensuring the server dict keeps what the configuration held under "mcpServers". */
  lemma EnsuredServers(fields: Json.Fields)
    ensures Mergeable(Json.Obj(fields)) ==> Json.Get(Ensured(fields), ServersKey) == Some(Json.Obj(ServersOf(fields)))
  {
    if ServersKey !in Json.Keys(fields) {
      Json.GetPutSame(fields, ServersKey, Json.Obj([]));
    }
  }

  /**
   * Both installers' merge: ensure the server dict, then write the entry.
   * It goes through exactly for a mergeable configuration, and gives
   * `Merged`.
   */
  method AddServer(config: Json.Value, name: string, entry: Json.Value) returns (r: Result<Json.Value, string>)
    ensures r.Success? <==> Mergeable(config)
    ensures r.Success? ==> r.value == Json.Obj(Merged(config.fields, name, entry))
  {
    var root := EnsureServers(config);
    if root.Failure? {
      return Failure(root.error);
    }
    if config.Obj? {
      EnsuredServers(config.fields);
    }
    r := SetServer(root.value, name, entry);
  }
}
