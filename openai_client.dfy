// The OpenAI-compatible POE client: the api-key guard, the global tool
// registry, tool definitions, tool execution and its result shaping, the
// request parameters of a chat completion with their inclusion rules, the
// single automatic tool round, and the mapping of errors to OpenAI's error
// format.
//
// The SDK call is a parameter `api` from the request parameters to what the
// service answers (a reply or an SDK error). What calling a registered tool
// does (decoding its JSON arguments, then returning a value or raising) is a
// parameter `attempt` per tool call.
module OpenAIClient {
  import opened Wrappers
  import Json

  // ---- errors ----

  /**
   * The class of a raised exception, as `type(error)` sees it: the three
   * classes the error table names, the package's base error, and anything
   * else by name (a subclass such as `json.JSONDecodeError`, a `ValueError`
   * subclass, among them).
   */
  datatype ErrorClass =
    | AuthenticationError
    | PoeApiError
    | ValueError
    | PoeProxyError
    | OtherClass(name: string)

  /** An exception and its `str()`. */
  datatype Exception = Exception(cls: ErrorClass, message: string)

  /** `map_error_to_openai_format`'s lookup: only the exact class counts. */
  function ErrorTypeAndCode(cls: ErrorClass): (string, int)
  {
    match cls
    case AuthenticationError => ("authentication_error", 401)
    case PoeApiError => ("api_error", 500)
    case ValueError => ("invalid_request_error", 400)
    case _ => ("internal_error", 500)
  }

  /** `map_error_to_openai_format`: `{"error": {"message", "type", "code"}}`. */
  function MapErrorToOpenAIFormat(error: Exception): Json.Value
  {
    var (errorType, code) := ErrorTypeAndCode(error.cls);
    Json.Obj([("error", Json.Obj([("message", Json.Str(error.message)), ("type", Json.Str(errorType)), ("code", Json.Int(code))]))])
  }

  /** The parts of an OpenAI error document, when it is one. */
  function ErrorParts(v: Json.Value): Option<(string, string, int)>
  {
    if v.Obj? && |v.fields| == 1 && v.fields[0].0 == "error" && v.fields[0].1.Obj? then
      var inner := v.fields[0].1.fields;
      if |inner| == 3 && inner[0].0 == "message" && inner[0].1.Str? && inner[1].0 == "type" && inner[1].1.Str?
         && inner[2].0 == "code" && inner[2].1.Int?
      then Some((inner[0].1.s, inner[1].1.s, inner[2].1.i))
      else None
    else None
  }

  /**
   * The error document carries the exception's message; its type and code
   * are those of the exact class for the three listed classes, in both
   * directions, and ("internal_error", 500) for every other class.
   */
  lemma ErrorMapping(error: Exception)
    ensures var parts := ErrorParts(MapErrorToOpenAIFormat(error));
      && parts.Some? && parts.value.0 == error.message
      && (parts.value.1 == "authentication_error" <==> error.cls == AuthenticationError)
      && (parts.value.1 == "api_error" <==> error.cls == PoeApiError)
      && (parts.value.1 == "invalid_request_error" <==> error.cls == ValueError)
      && (parts.value.1 == "internal_error" <==> !(error.cls in {AuthenticationError, PoeApiError, ValueError}))
      && parts.value.2 == (if error.cls == AuthenticationError then 401 else if error.cls == ValueError then 400 else 500)
  {
  }

  // ---- the client ----

  datatype ClientConfig = ClientConfig(apiKey: string, baseUrl: string, asyncMode: bool, debugMode: bool)

  const MissingKeyMessage := "POE API key is required. Get your API key from https://poe.com/api_key"

  /** The constructor: an empty key is refused with an authentication error. */
  function NewClient(apiKey: string, baseUrl: string, asyncMode: bool, debugMode: bool): (r: Result<ClientConfig, Exception>)
    ensures r.Failure? <==> apiKey == ""
    ensures r.Failure? ==> r.error.cls == AuthenticationError
    ensures r.Success? ==> r.value.apiKey == apiKey && r.value.baseUrl == baseUrl
  {
    if apiKey == "" then Failure(Exception(AuthenticationError, MissingKeyMessage))
    else Success(ClientConfig(apiKey, baseUrl, asyncMode, debugMode))
  }

  // ---- tools ----

  /** The identity of a registered callable. */
  datatype Handler = Handler(id: nat)

  /** The global `TOOL_REGISTRY`. */
  class ToolRegistry {
    var tools: map<string, Handler>

    constructor ()
      ensures tools == map[]
    {
      tools := map[];
    }

    /** `register_tool`: stores the callable under its name; description and parameters are not kept. */
    method RegisterTool(name: string, func: Handler, description: string, parameters: Json.Value)
      modifies this
      ensures tools == Registered(old(tools), name, func, description, parameters)
    {
      tools := tools[name := func];
    }
  }

  function Registered(tools: map<string, Handler>, name: string, func: Handler, description: string, parameters: Json.Value): map<string, Handler>
  {
    tools[name := func]
  }

  /**
   * Registering stores or replaces only `name`, whatever the description and
   * parameters, which leave no trace.
   */
  lemma RegisterOnlyName(tools: map<string, Handler>, name: string, func: Handler, d1: string, p1: Json.Value, d2: string, p2: Json.Value)
    ensures var r := Registered(tools, name, func, d1, p1);
      && r == Registered(tools, name, func, d2, p2)
      && name in r && r[name] == func
      && forall k :: k != name ==> (k in r <==> k in tools) && (k in r ==> r[k] == tools[k])
  {
  }

  /** `get_tool_definition` */
  function ToolDefinition(name: string, description: string, parameters: Json.Value): Json.Value
  {
    Json.Obj([("type", Json.Str("function")),
              ("function", Json.Obj([("name", Json.Str(name)), ("description", Json.Str(description)), ("parameters", parameters)]))])
  }

  /** Reads a function tool definition back into its name, description and parameters. */
  function DefinitionParts(v: Json.Value): Option<(string, string, Json.Value)>
  {
    if v.Obj? && |v.fields| == 2 && v.fields[0] == ("type", Json.Str("function")) && v.fields[1].0 == "function" && v.fields[1].1.Obj? then
      var f := v.fields[1].1.fields;
      if |f| == 3 && f[0].0 == "name" && f[0].1.Str? && f[1].0 == "description" && f[1].1.Str? && f[2].0 == "parameters"
      then Some((f[0].1.s, f[1].1.s, f[2].1))
      else None
    else None
  }

  /** The definition holds its three inputs unchanged. */
  lemma ToolDefinitionRoundTrip(name: string, description: string, parameters: Json.Value)
    ensures DefinitionParts(ToolDefinition(name, description, parameters)) == Some((name, description, parameters))
  {
  }

  /** A tool call of the model's reply. */
  datatype ToolCall = ToolCall(id: string, name: string, arguments: string)

  /** What a registered tool's call does. */
  datatype ToolOutcome = Returned(value: Json.Value) | Raised(message: string)

  /** Decoding the call's JSON arguments either fails, or the tool (if any) is run. */
  datatype Attempt = BadArguments(message: string) | Decoded(outcome: ToolOutcome)

  datatype ToolResult = ToolResult(toolCallId: string, output: string)

  function ErrorOutput(message: string): string
  {
    Json.Dumps(Json.Obj([("error", Json.Str(message))]))
  }

  /**
   * `execute_tool_call`: the arguments are decoded first, then the name is
   * looked up; every failure becomes a JSON error object.
   */
  function ExecuteToolCall(tools: map<string, Handler>, call: ToolCall, attempt: Attempt): (r: ToolResult)
    ensures r.toolCallId == call.id
  {
    if attempt.BadArguments? then ToolResult(call.id, ErrorOutput(attempt.message))
    else if call.name !in tools then ToolResult(call.id, ErrorOutput("Unknown tool: " + call.name))
    else match attempt.outcome
      case Raised(message) => ToolResult(call.id, ErrorOutput(message))
      case Returned(value) => ToolResult(call.id, if value.Str? then value.s else Json.Dumps(value))
  }

  /**
   * The output is the tool's string result verbatim, any other result as
   * JSON, and otherwise `{"error": message}` as JSON, with the decoding
   * error first, then the unknown tool, then the tool's own exception.
   */
  lemma ToolOutputCases(tools: map<string, Handler>, call: ToolCall, attempt: Attempt)
    ensures var out := ExecuteToolCall(tools, call, attempt).output;
      && (attempt.BadArguments? ==> out == ErrorOutput(attempt.message))
      && (attempt.Decoded? && call.name !in tools ==> out == ErrorOutput("Unknown tool: " + call.name))
      && (attempt.Decoded? && call.name in tools ==>
            match attempt.outcome
            case Raised(m) => out == ErrorOutput(m)
            case Returned(v) => out == (if v.Str? then v.s else Json.Dumps(v)))
      && (attempt.Decoded? && call.name in tools && attempt.outcome.Returned? ==> Json.AllPrintableAscii(out) || attempt.outcome.value.Str?)
  {
    if attempt.Decoded? && call.name in tools && attempt.outcome.Returned? && !attempt.outcome.value.Str? {
      Json.DumpsIsPrintableAscii(attempt.outcome.value);
    }
  }

  /** `process_tool_calls`: one result per call, in the calls' order. */
  function ProcessToolCalls(tools: map<string, Handler>, calls: seq<ToolCall>, attempt: ToolCall -> Attempt): (r: seq<ToolResult>)
    ensures |r| == |calls|
    ensures forall i :: 0 <= i < |calls| ==> r[i] == ExecuteToolCall(tools, calls[i], attempt(calls[i]))
  {
    seq(|calls|, i requires 0 <= i < |calls| => ExecuteToolCall(tools, calls[i], attempt(calls[i])))
  }

  // ---- request parameters ----

  datatype Request = Request(
    model: string,
    tools: seq<Json.Value>,
    toolChoice: Option<Json.Value>,
    parallelToolCalls: Option<bool>,
    maxTokens: Option<int>,
    temperature: Option<Json.Value>,
    topP: Option<Json.Value>,
    stop: Option<Json.Value>,
    stream: bool,
    streamOptions: Option<Json.Value>,
    user: Option<string>,
    autoExecuteTools: bool)

  /** The keys `chat_completion` may assign, in the order it assigns them. */
  const ParamOrder := ["model", "messages", "stream", "tools", "tool_choice", "parallel_tool_calls",
                       "max_tokens", "temperature", "top_p", "stop", "stream_options", "user"]

  /**
   * The value each key of `ParamOrder` gets, or None when the key is left
   * out: model, messages and stream always; tools only when non-empty;
   * stream options and user only when truthy; every other option whenever it
   * is not None.
   */
  function ParamValues(req: Request, messages: seq<Json.Value>): (vs: seq<Option<Json.Value>>)
    ensures |vs| == |ParamOrder|
  {
    [Some(Json.Str(req.model)),
     Some(Json.Arr(messages)),
     Some(Json.Bool(req.stream)),
     if req.tools != [] then Some(Json.Arr(req.tools)) else None,
     req.toolChoice,
     if req.parallelToolCalls.None? then None else Some(Json.Bool(req.parallelToolCalls.value)),
     if req.maxTokens.None? then None else Some(Json.Int(req.maxTokens.value)),
     req.temperature,
     req.topP,
     req.stop,
     if req.streamOptions.Some? && Json.Truthy(req.streamOptions.value) then req.streamOptions else None,
     if req.user.None? || req.user.value == "" then None else Some(Json.Str(req.user.value))]
  }

  /** Assigning, key after key in `order`, every key whose value is present. */
  function Included(order: seq<string>, values: seq<Option<Json.Value>>): Json.Fields
    requires |order| == |values|
  {
    if |order| == 0 then []
    else
      var n := |order| - 1;
      Included(order[..n], values[..n]) + (if values[n].Some? then [(order[n], values[n].value)] else [])
  }

  /** The parameters of the completion request. */
  function Params(req: Request, messages: seq<Json.Value>): Json.Fields
  {
    Included(ParamOrder, ParamValues(req, messages))
  }

  /** `get` on two dicts laid end to end: the first one's entry wins. */
  lemma {:induction false} GetAppend(a: Json.Fields, b: Json.Fields, k: string)
    ensures Json.Get(a + b, k) == if Json.Get(a, k).Some? then Json.Get(a, k) else Json.Get(b, k)
  {
    if |a| == 0 {
      assert a + b == b;
    } else {
      assert (a + b)[0] == a[0];
      assert (a + b)[1..] == a[1..] + b;
      GetAppend(a[1..], b, k);
    }
  }

  /** Looking a key of `order` up finds its value. */
  lemma {:induction false} IncludedGet(order: seq<string>, values: seq<Option<Json.Value>>)
    requires |order| == |values|
    requires forall i, j :: 0 <= i < j < |order| ==> order[i] != order[j]
    ensures forall j :: 0 <= j < |order| ==> Json.Get(Included(order, values), order[j]) == values[j]
  {
    if |order| > 0 {
      var n := |order| - 1;
      IncludedGet(order[..n], values[..n]);
      IncludedAbsent(order[..n], values[..n]);
      var prev := Included(order[..n], values[..n]);
      var tail: Json.Fields := if values[n].Some? then [(order[n], values[n].value)] else [];
      forall j | 0 <= j < |order|
        ensures Json.Get(prev + tail, order[j]) == values[j]
      {
        GetAppend(prev, tail, order[j]);
        if j < n {
          assert order[..n][j] == order[j] && values[..n][j] == values[j];
          assert order[j] != order[n];
        } else {
          assert order[n] !in order[..n];
        }
      }
    }
  }

  /** A key outside `order` is never assigned. */
  lemma {:induction false} IncludedAbsent(order: seq<string>, values: seq<Option<Json.Value>>)
    requires |order| == |values|
    ensures forall k :: k !in order ==> Json.Get(Included(order, values), k) == None
  {
    if |order| > 0 {
      var n := |order| - 1;
      IncludedAbsent(order[..n], values[..n]);
      var prev := Included(order[..n], values[..n]);
      var tail: Json.Fields := if values[n].Some? then [(order[n], values[n].value)] else [];
      forall k | k !in order
        ensures Json.Get(prev + tail, k) == None
      {
        GetAppend(prev, tail, k);
        assert k !in order[..n];
      }
    }
  }

  /** No key is assigned twice. */
  lemma {:induction false} IncludedUnique(order: seq<string>, values: seq<Option<Json.Value>>)
    requires |order| == |values|
    requires forall i, j :: 0 <= i < j < |order| ==> order[i] != order[j]
    ensures Json.UniqueKeys(Included(order, values))
  {
    if |order| > 0 {
      var n := |order| - 1;
      IncludedUnique(order[..n], values[..n]);
      IncludedAbsent(order[..n], values[..n]);
      var prev := Included(order[..n], values[..n]);
      var tail: Json.Fields := if values[n].Some? then [(order[n], values[n].value)] else [];
      var p := prev + tail;
      if values[n].Some? {
        assert order[n] !in order[..n];
        assert order[n] !in Json.Keys(prev);
        forall i, j | 0 <= i < j < |p|
          ensures p[i].0 != p[j].0
        {
          if j == |prev| {
            assert Json.Keys(prev)[i] == prev[i].0;
          }
        }
      }
    }
  }

  lemma ParamOrderDistinct()
    ensures forall i, j :: 0 <= i < j < |ParamOrder| ==> ParamOrder[i] != ParamOrder[j]
  {
  }

  /**
   * Looking a key up in the request parameters gives its value by the rules
   * above; keys that `chat_completion` never assigns are absent.
   */
  lemma ParamsLookup(req: Request, messages: seq<Json.Value>)
    ensures forall j :: 0 <= j < |ParamOrder| ==> Json.Get(Params(req, messages), ParamOrder[j]) == ParamValues(req, messages)[j]
    ensures forall k :: k !in ParamOrder ==> Json.Get(Params(req, messages), k) == None
    ensures Json.UniqueKeys(Params(req, messages))
  {
    ParamOrderDistinct();
    IncludedGet(ParamOrder, ParamValues(req, messages));
    IncludedAbsent(ParamOrder, ParamValues(req, messages));
    IncludedUnique(ParamOrder, ParamValues(req, messages));
  }

  // ---- the completion call and its tool round ----

  /** What the SDK raises, most specific first. */
  datatype SdkError = SdkAuthentication | SdkRateLimit | SdkApiError | SdkOther

  /** What the service answers: the reply's tool calls and its body as a dict, or an SDK error. */
  datatype ApiReply =
    | Reply(toolCalls: seq<ToolCall>, body: Json.Value)
    | SdkFailure(kind: SdkError, message: string, retryAfter: Option<string>)

  datatype Completion = Streamed(params: Json.Fields) | Completed(body: Json.Value)

  /** The `except` clauses around the SDK call. */
  function Translate(reply: ApiReply): Exception
    requires reply.SdkFailure?
  {
    match reply.kind
    case SdkAuthentication => Exception(AuthenticationError, "POE API authentication failed: " + reply.message)
    case SdkRateLimit => Exception(PoeApiError, "Rate limit exceeded. Retry after: " + reply.retryAfter.UnwrapOr("None"))
    case SdkApiError => Exception(PoeApiError, "POE API error: " + reply.message)
    case SdkOther => Exception(PoeProxyError, "Chat completion failed: " + reply.message)
  }

  /** An error of the follow-up call passes the outer `except Exception` clause. */
  function Rewrapped(r: Result<Completion, Exception>): Result<Completion, Exception>
  {
    if r.Success? then r else Failure(Exception(PoeProxyError, "Chat completion failed: " + r.error.message))
  }

  /** The follow-up call: no tool choice, parallel flag or stream options, and no further round. */
  function FollowUp(req: Request): Request
  {
    req.(toolChoice := None, parallelToolCalls := None, streamOptions := None, autoExecuteTools := false)
  }

  function ToolMessage(result: ToolResult): Json.Value
  {
    Json.Obj([("role", Json.Str("tool")), ("tool_call_id", Json.Str(result.toolCallId)), ("content", Json.Str(result.output))])
  }

  function ToolMessages(results: seq<ToolResult>): (r: seq<Json.Value>)
    ensures |r| == |results| && forall i :: 0 <= i < |results| ==> r[i] == ToolMessage(results[i])
  {
    seq(|results|, i requires 0 <= i < |results| => ToolMessage(results[i]))
  }

  /**
   * `chat_completion`: the result, the parameters of each call made, and the
   * caller's message list afterwards.
   */
  function Chat(tools: map<string, Handler>, req: Request, messages: seq<Json.Value>,
                api: Json.Fields -> ApiReply, attempt: ToolCall -> Attempt): (Result<Completion, Exception>, seq<Json.Fields>, seq<Json.Value>)
    decreases if req.autoExecuteTools then 1 else 0
  {
    var params := Params(req, messages);
    var reply := api(params);
    if reply.SdkFailure? then (Failure(Translate(reply)), [params], messages)
    else if req.stream then (Success(Streamed(params)), [params], messages)
    else if req.autoExecuteTools && |reply.toolCalls| > 0 then
      var grown := messages + ToolMessages(ProcessToolCalls(tools, reply.toolCalls, attempt));
      var (r, calls, after) := Chat(tools, FollowUp(req), grown, api, attempt);
      (Rewrapped(r), [params] + calls, after)
    else (Success(Completed(reply.body)), [params], messages)
  }

  /** The calls a completion makes: one, or two when the first reply asks for tools. */
  lemma AtMostOneToolRound(tools: map<string, Handler>, req: Request, messages: seq<Json.Value>,
                           api: Json.Fields -> ApiReply, attempt: ToolCall -> Attempt)
    ensures var (r, calls, after) := Chat(tools, req, messages, api, attempt);
      var reply := api(Params(req, messages));
      var round := reply.Reply? && !req.stream && req.autoExecuteTools && |reply.toolCalls| > 0;
      && calls[0] == Params(req, messages)
      && (round ==> calls == [Params(req, messages), Params(FollowUp(req), after)])
      && (!round ==> calls == [Params(req, messages)] && after == messages)
  {
    var reply := api(Params(req, messages));
    if reply.Reply? && !req.stream && req.autoExecuteTools && |reply.toolCalls| > 0 {
      var grown := messages + ToolMessages(ProcessToolCalls(tools, reply.toolCalls, attempt));
      var follow := FollowUp(req);
      assert Chat(tools, follow, grown, api, attempt).1 == [Params(follow, grown)];
      assert Chat(tools, follow, grown, api, attempt).2 == grown;
    }
  }

  /**
   * In a tool round the caller's list grows by one "tool" message per tool
   * call, in call order, each carrying its call's id.
   */
  lemma ToolRoundMessages(tools: map<string, Handler>, req: Request, messages: seq<Json.Value>,
                          api: Json.Fields -> ApiReply, attempt: ToolCall -> Attempt)
    requires var reply := api(Params(req, messages));
      reply.Reply? && !req.stream && req.autoExecuteTools && |reply.toolCalls| > 0
    ensures var after := Chat(tools, req, messages, api, attempt).2;
      var calls := api(Params(req, messages)).toolCalls;
      && |after| == |messages| + |calls| && after[..|messages|] == messages
      && forall i :: 0 <= i < |calls| ==>
           after[|messages| + i] == ToolMessage(ExecuteToolCall(tools, calls[i], attempt(calls[i])))
           && Json.Get(after[|messages| + i].fields, "tool_call_id") == Some(Json.Str(calls[i].id))
  {
    var reply := api(Params(req, messages));
    var grown := messages + ToolMessages(ProcessToolCalls(tools, reply.toolCalls, attempt));
    assert Chat(tools, FollowUp(req), grown, api, attempt).2 == grown;
    assert grown[..|messages|] == messages;
  }

  /** The follow-up call carries no tool choice, parallel flag or stream options, and asks for no round. */
  lemma FollowUpDropsOptions(req: Request, messages: seq<Json.Value>)
    ensures var p := Params(FollowUp(req), messages);
      && Json.Get(p, "tool_choice") == None && Json.Get(p, "parallel_tool_calls") == None
      && Json.Get(p, "stream_options") == None
      && Json.Get(p, "tools") == Json.Get(Params(req, messages), "tools")
      && Json.Get(p, "max_tokens") == Json.Get(Params(req, messages), "max_tokens")
      && !FollowUp(req).autoExecuteTools
  {
    ParamsLookup(FollowUp(req), messages);
    ParamsLookup(req, messages);
    assert ParamOrder[3] == "tools" && ParamOrder[4] == "tool_choice" && ParamOrder[5] == "parallel_tool_calls";
    assert ParamOrder[6] == "max_tokens" && ParamOrder[10] == "stream_options";
  }

  /**
   * An SDK error on the first call is translated by class: authentication
   * to AuthenticationError, rate limit and other API errors to PoeApiError,
   * anything else to PoeProxyError. An error on the follow-up call is
   * caught again by the outer catch-all, so it always surfaces as a
   * PoeProxyError, which the error table maps to ("internal_error", 500).
   */
  lemma CompletionErrors(tools: map<string, Handler>, req: Request, messages: seq<Json.Value>,
                         api: Json.Fields -> ApiReply, attempt: ToolCall -> Attempt)
    ensures var r := Chat(tools, req, messages, api, attempt).0;
      var reply := api(Params(req, messages));
      && (reply.SdkFailure? ==> r.Failure? && r.error.cls == (match reply.kind
            case SdkAuthentication => AuthenticationError
            case SdkRateLimit => PoeApiError
            case SdkApiError => PoeApiError
            case SdkOther => PoeProxyError))
      && (reply.Reply? && !req.stream && req.autoExecuteTools && |reply.toolCalls| > 0 && r.Failure? ==>
            r.error.cls == PoeProxyError && ErrorTypeAndCode(r.error.cls) == ("internal_error", 500))
      && (reply.Reply? && (req.stream || !req.autoExecuteTools || |reply.toolCalls| == 0) ==> r.Success?)
  {
  }

  /** The caller's `messages` list, appended to in place. */
  class MessageList {
    var items: seq<Json.Value>

    constructor (items: seq<Json.Value>)
      ensures this.items == items
    {
      this.items := items;
    }
  }

  /** `messages.append(...)` for each tool result, in order. */
  method AppendToolMessages(messages: MessageList, results: seq<ToolResult>)
    modifies messages
    ensures messages.items == old(messages.items) + ToolMessages(results)
  {
    var i := 0;
    while i < |results|
      invariant 0 <= i <= |results|
      invariant messages.items == old(messages.items) + ToolMessages(results[..i])
    {
      assert ToolMessages(results[..i + 1]) == ToolMessages(results[..i]) + [ToolMessage(results[i])];
      messages.items := messages.items + [ToolMessage(results[i])];
      i := i + 1;
    }
    assert results[..i] == results;
  }

  method ChatCompletion(tools: map<string, Handler>, req: Request, messages: MessageList,
                        api: Json.Fields -> ApiReply, attempt: ToolCall -> Attempt)
    returns (r: Result<Completion, Exception>, calls: seq<Json.Fields>)
    modifies messages
    ensures (r, calls, messages.items) == Chat(tools, req, old(messages.items), api, attempt)
    decreases if req.autoExecuteTools then 1 else 0
  {
    var params := Params(req, messages.items);
    var reply := api(params);
    calls := [params];
    if reply.SdkFailure? {
      return Failure(Translate(reply)), calls;
    }
    if req.stream {
      return Success(Streamed(params)), calls;
    }
    if req.autoExecuteTools && |reply.toolCalls| > 0 {
      AppendToolMessages(messages, ProcessToolCalls(tools, reply.toolCalls, attempt));
      var inner, more := ChatCompletion(tools, FollowUp(req), messages, api, attempt);
      return Rewrapped(inner), calls + more;
    }
    return Success(Completed(reply.body)), calls;
  }
}
