// The production MCP server's own logic: the prompt it builds from a Warp
// context, its uptime text, its health rules, the dispatch of
// `execute_warp_action`, and the global metrics counters that its tools bump
// and `reset_metrics` clears.
//
// Clock readings are integer milliseconds passed in by the caller. Running a
// command or writing a file is the host's business: its outcome is a
// parameter. The three extraction steps that feed the prompt builder
// (terminal output, selection, file references) are modelled in WarpContext;
// the builder here takes what they produced, already as text.
module ServerPhase2 {
  import opened Wrappers
  import Text
  import Json
  import WarpContext
  import RateLimiter

  // ---- _build_contextual_prompt ----

  /** At most this many characters of terminal output go into the prompt. */
  const TerminalLimit := 1000

  function TerminalSection(output: string): string
  {
    "\n\nTerminal output:\n```\n" + Text.PySlice(output, 0, TerminalLimit) + "\n```"
  }

  function SelectionSection(selected: string): string
  {
    "\n\nSelected text:\n```\n" + selected + "\n```"
  }

  function FilesSection(files: seq<string>): string
  {
    "\n\nReferenced files: " + Text.Join(files, ", ")
  }

  /** The part list: the prompt, then each context part that is not empty, in order. */
  function PromptParts(prompt: string, terminal: string, selected: string, files: seq<string>): seq<string>
  {
    var p1 := [prompt];
    var p2 := p1 + (if terminal != "" then [TerminalSection(terminal)] else []);
    var p3 := p2 + (if selected != "" then [SelectionSection(selected)] else []);
    p3 + (if files != [] then [FilesSection(files)] else [])
  }

  /** `_build_contextual_prompt`: the parts joined with newlines. */
  function ContextualPrompt(prompt: string, terminal: string, selected: string, files: seq<string>): string
  {
    Text.Join(PromptParts(prompt, terminal, selected, files), "\n")
  }

  /** The text a part contributes after the prompt: nothing, or a newline and the part. */
  function Section(present: bool, part: string): string
  {
    if present then "\n" + part else ""
  }

  /**
   * The prompt comes first and unchanged; each context part follows on its
   * own line, in the order terminal output, selection, files, and only when
   * it is not empty.
   */
  lemma ContextualPromptLayout(prompt: string, terminal: string, selected: string, files: seq<string>)
    ensures ContextualPrompt(prompt, terminal, selected, files)
      == prompt + Section(terminal != "", TerminalSection(terminal))
                + Section(selected != "", SelectionSection(selected))
                + Section(files != [], FilesSection(files))
  {
    var p1 := [prompt];
    var p2 := p1 + (if terminal != "" then [TerminalSection(terminal)] else []);
    var p3 := p2 + (if selected != "" then [SelectionSection(selected)] else []);
    assert Text.Join(p1, "\n") == prompt;
    JoinSection(p1, terminal != "", TerminalSection(terminal));
    JoinSection(p2, selected != "", SelectionSection(selected));
    JoinSection(p3, files != [], FilesSection(files));
  }

  /** Adding a part that may be absent adds its section to the join. */
  lemma JoinSection(parts: seq<string>, present: bool, part: string)
    requires parts != []
    ensures Text.Join(parts + (if present then [part] else []), "\n") == Text.Join(parts, "\n") + Section(present, part)
  {
    if present {
      Text.JoinAppend(parts, part, "\n");
    } else {
      assert parts + [] == parts;
    }
  }

  /**
   * The prompt is sent as it is exactly when there is no context to add; the
   * terminal output that is added is its first 1000 characters.
   */
  lemma ContextualPromptAddsContext(prompt: string, terminal: string, selected: string, files: seq<string>)
    ensures ContextualPrompt(prompt, terminal, selected, files) == prompt <==> terminal == "" && selected == "" && files == []
    ensures prompt <= ContextualPrompt(prompt, terminal, selected, files)
    ensures terminal != "" ==>
      var shown := Text.PySlice(terminal, 0, TerminalLimit);
      shown <= terminal && |shown| == (if |terminal| < TerminalLimit then |terminal| else TerminalLimit)
  {
    ContextualPromptLayout(prompt, terminal, selected, files);
    var s1, s2, s3 := Section(terminal != "", TerminalSection(terminal)),
                      Section(selected != "", SelectionSection(selected)),
                      Section(files != [], FilesSection(files));
    var full := ContextualPrompt(prompt, terminal, selected, files);
    assert full == prompt + s1 + s2 + s3;
    assert |full| == |prompt| + |s1| + |s2| + |s3|;
    assert full[..|prompt|] == prompt;
  }

  // ---- _format_uptime ----

  const SecondsPerDay := 86400
  const SecondsPerHour := 3600
  const SecondsPerMinute := 60

  /**
   * The non-zero parts among days, hours and minutes. The uptime is taken in
   * whole seconds: Python's floor division of the float gives the same parts.
   */
  function UptimeParts(seconds: int): seq<string>
  {
    PartList(seconds / SecondsPerDay, seconds % SecondsPerDay / SecondsPerHour, seconds % SecondsPerHour / SecondsPerMinute)
  }

  function PartList(days: int, hours: int, minutes: int): seq<string>
  {
    Piece(days, 'd') + Piece(hours, 'h') + Piece(minutes, 'm')
  }

  /** "<n><unit>" when the count is positive, nothing otherwise. */
  function Piece(n: int, unit: char): seq<string>
  {
    if n > 0 then [Text.NatToString(n) + [unit]] else []
  }

  /** `_format_uptime` */
  function FormatUptime(seconds: int): string
  {
    var parts := UptimeParts(seconds);
    if parts == [] then "< 1m" else Text.Join(parts, " ")
  }

  function UnitSeconds(unit: char): int
  {
    if unit == 'd' then SecondsPerDay
    else if unit == 'h' then SecondsPerHour
    else if unit == 'm' then SecondsPerMinute
    else 0
  }

  /** What a part such as "3h" stands for in seconds (0 for anything else). */
  function PieceSeconds(piece: string): int
  {
    if |piece| >= 2 && Text.AllDigits(piece[..|piece| - 1]) then
      Text.ParseDigits(piece[..|piece| - 1]) * UnitSeconds(piece[|piece| - 1])
    else 0
  }

  function SumPieces(pieces: seq<string>): int
  {
    if pieces == [] then 0 else PieceSeconds(pieces[0]) + SumPieces(pieces[1..])
  }

  /** Reads an uptime text back as a number of seconds. */
  function ReadUptime(text: string): int
  {
    if text == "< 1m" then 0 else SumPieces(Text.Split(text, ' '))
  }

  lemma {:induction false} SumPiecesAppend(a: seq<string>, b: seq<string>)
    ensures SumPieces(a + b) == SumPieces(a) + SumPieces(b)
  {
    if a != [] {
      assert (a + b)[1..] == a[1..] + b;
      SumPiecesAppend(a[1..], b);
    } else {
      assert a + b == b;
    }
  }

  lemma PieceOf(n: nat, unit: char)
    requires unit in "dhm"
    ensures SumPieces(Piece(n, unit)) == n * UnitSeconds(unit)
    ensures forall k :: 0 <= k < |Piece(n, unit)| ==> ' ' !in Piece(n, unit)[k] && Piece(n, unit)[k] != [] && Piece(n, unit)[k][0] != '<'
    ensures Piece(n, unit) == [] <==> n == 0
  {
    if n > 0 {
      var s := Text.NatToString(n);
      assert (s + [unit])[..|s|] == s;
      Text.ParseNatToString(n);
      assert Text.IsDigit(s[0]);
      assert forall k :: 0 <= k < |s| ==> Text.IsDigit(s[k]);
      assert SumPieces(Piece(n, unit)) == PieceSeconds(s + [unit]) + SumPieces([]);
    }
  }

  /** A non-empty part list is rendered by the join, which starts with the first part. */
  lemma JoinStart(parts: seq<string>, sep: string)
    requires |parts| >= 1
    ensures parts[0] <= Text.Join(parts, sep)
  {
  }

  lemma UptimeArithmetic(seconds: nat)
    ensures seconds - seconds % 60
      == seconds / SecondsPerDay * SecondsPerDay
       + seconds % SecondsPerDay / SecondsPerHour * SecondsPerHour
       + seconds % SecondsPerHour / SecondsPerMinute * SecondsPerMinute
  {
    var d, r := seconds / 86400, seconds % 86400;
    assert seconds == d * 86400 + r;
    var h, r2 := r / 3600, r % 3600;
    assert r == h * 3600 + r2;
    var d2 := d * 24 + h;
    assert seconds == d2 * 3600 + r2;
    assert seconds % 3600 == r2;
    var m, r3 := r2 / 60, r2 % 60;
    assert r2 == m * 60 + r3;
    assert seconds == (d2 * 60 + m) * 60 + r3;
    assert seconds % 60 == r3;
  }

  lemma PartListSum(days: nat, hours: nat, minutes: nat)
    ensures SumPieces(PartList(days, hours, minutes)) == days * SecondsPerDay + hours * SecondsPerHour + minutes * SecondsPerMinute
    ensures forall k :: 0 <= k < |PartList(days, hours, minutes)| ==> ' ' !in PartList(days, hours, minutes)[k]
    ensures PartList(days, hours, minutes) != [] ==> PartList(days, hours, minutes)[0][0] != '<'
    ensures PartList(days, hours, minutes) == [] <==> days == 0 && hours == 0 && minutes == 0
  {
    var a, b, c := Piece(days, 'd'), Piece(hours, 'h'), Piece(minutes, 'm');
    PieceOf(days, 'd');
    PieceOf(hours, 'h');
    PieceOf(minutes, 'm');
    SumPiecesAppend(a, b);
    SumPiecesAppend(a + b, c);
    PiecesAppend(a, b);
    PiecesAppend(a + b, c);
  }

  /** Parts with no space and no leading '<' stay so when put together. */
  lemma PiecesAppend(a: seq<string>, b: seq<string>)
    requires forall k :: 0 <= k < |a| ==> ' ' !in a[k] && a[k] != [] && a[k][0] != '<'
    requires forall k :: 0 <= k < |b| ==> ' ' !in b[k] && b[k] != [] && b[k][0] != '<'
    ensures forall k :: 0 <= k < |a + b| ==> ' ' !in (a + b)[k] && (a + b)[k] != [] && (a + b)[k][0] != '<'
  {
  }

  /**
   * The uptime text reads back as the uptime rounded down to whole minutes:
   * the parts are days, hours and minutes, seconds are never shown, and
   * "< 1m" stands for less than a minute.
   */
  lemma UptimeRoundTrip(seconds: nat)
    ensures ReadUptime(FormatUptime(seconds)) == seconds - seconds % 60
    ensures FormatUptime(seconds) == "< 1m" <==> seconds < 60
  {
    var parts := UptimeParts(seconds);
    PartListSum(seconds / SecondsPerDay, seconds % SecondsPerDay / SecondsPerHour, seconds % SecondsPerHour / SecondsPerMinute);
    UptimeArithmetic(seconds);
    if parts != [] {
      Text.SplitJoin(parts, ' ');
      JoinStart(parts, " ");
      assert FormatUptime(seconds)[0] == parts[0][0];
    } else {
      assert SumPieces(parts) == 0;
    }
  }

  // ---- the metrics counters ----

  /** The counters of the global `metrics` dict; latency in milliseconds. */
  datatype Counters = Counters(
    totalRequests: nat,
    successfulRequests: nat,
    failedRequests: nat,
    totalLatencyMs: nat,
    totalTokens: nat,
    warpContextsProcessed: nat,
    commandsExecuted: nat,
    filesCreated: nat)

  const ZeroCounters := Counters(0, 0, 0, 0, 0, 0, 0, 0)

  /** What an action result reports under "command" and "filepath". */
  datatype ActionRecord = ActionRecord(command: Option<string>, filepath: Option<string>)

  /** How one `ask_poe_with_warp_context` call ended. */
  datatype QueryOutcome =
    | ContextRejected
    | Streamed
    | QueryFailed
    | Answered(actions: Option<seq<ActionRecord>>, latencyMs: nat, tokens: nat)

  function CountCommands(actions: seq<ActionRecord>): (n: nat)
    ensures n <= |actions|
  {
    if actions == [] then 0
    else (if actions[0].command.Some? && actions[0].command.value != "" then 1 else 0) + CountCommands(actions[1..])
  }

  function CountFiles(actions: seq<ActionRecord>): (n: nat)
    ensures n <= |actions|
  {
    if actions == [] then 0
    else (if actions[0].filepath.Some? && actions[0].filepath.value != "" then 1 else 0) + CountFiles(actions[1..])
  }

  /**
   * The counters after one query: every call counts as a request; a call whose
   * context was extracted counts as processed; an exception counts as a
   * failure; a complete answer adds its latency, tokens and the actions run.
   */
  function Recorded(c: Counters, outcome: QueryOutcome): Counters
  {
    var c := c.(totalRequests := c.totalRequests + 1);
    match outcome
    case ContextRejected => c.(failedRequests := c.failedRequests + 1)
    case Streamed => c.(warpContextsProcessed := c.warpContextsProcessed + 1)
    case QueryFailed => c.(warpContextsProcessed := c.warpContextsProcessed + 1, failedRequests := c.failedRequests + 1)
    case Answered(actions, latencyMs, tokens) =>
      var acts := if actions.Some? then actions.value else [];
      c.(warpContextsProcessed := c.warpContextsProcessed + 1,
         commandsExecuted := c.commandsExecuted + CountCommands(acts),
         filesCreated := c.filesCreated + CountFiles(acts),
         totalLatencyMs := c.totalLatencyMs + latencyMs,
         successfulRequests := c.successfulRequests + 1,
         totalTokens := c.totalTokens + tokens)
  }

  /** The counters never report more outcomes or contexts than requests. */
  predicate Consistent(c: Counters)
  {
    c.successfulRequests + c.failedRequests <= c.totalRequests
    && c.warpContextsProcessed <= c.totalRequests
  }

  /**
   * Each query adds exactly one request and keeps the counters consistent. A
   * streamed answer is neither a success nor a failure, so the success rate
   * falls with every streaming call; only a complete answer is a success.
   */
  lemma RecordedCounts(c: Counters, outcome: QueryOutcome)
    requires Consistent(c)
    ensures var r := Recorded(c, outcome);
      && Consistent(r)
      && r.totalRequests == c.totalRequests + 1
      && (r.successfulRequests == c.successfulRequests + 1 <==> outcome.Answered?)
      && (r.failedRequests == c.failedRequests + 1 <==> outcome.ContextRejected? || outcome.QueryFailed?)
      && (outcome.Streamed? ==> r.successfulRequests == c.successfulRequests && r.failedRequests == c.failedRequests)
      && (outcome.Answered? && outcome.actions.None? ==> r.commandsExecuted == c.commandsExecuted && r.filesCreated == c.filesCreated)
  {
  }

  // ---- health_check ----

  /** A success rate in percent, as a fraction. */
  datatype Ratio = Ratio(num: int, den: nat)

  /**
   * `success_rate`: successes per request in percent, and 100 when there
   * have been no requests. It is below `p` per cent exactly when, with at
   * least one request, 100 times the successes fall short of `p` times the
   * requests, or, with none, when 100 is below `p`.
   */
  function SuccessRate(c: Counters): (r: Ratio)
    ensures r.den > 0
    ensures forall p :: Below(r, p) <==>
      (c.totalRequests > 0 && c.successfulRequests * 100 < p * c.totalRequests) || (c.totalRequests == 0 && 100 < p)
  {
    if c.totalRequests > 0 then Ratio(c.successfulRequests * 100, c.totalRequests) else Ratio(100, 1)
  }

  predicate Below(r: Ratio, percent: int)
  {
    r.num < percent * r.den
  }

  datatype HealthStatus = HealthStatus(status: string, uptime: string, issues: Option<seq<string>>)

  /** The status and issues of `health_check`, given the limiter's rate-limited count. */
  function Health(c: Counters, uptimeSeconds: int, rateLimited: int): HealthStatus
  {
    var low := Below(SuccessRate(c), 50);
    var base := HealthStatus(if low then "degraded" else "healthy", FormatUptime(uptimeSeconds),
                             if low then Some(["Low success rate"]) else None);
    if rateLimited > 100 then base.(issues := Some(base.issues.UnwrapOr([]) + ["High rate limiting"]))
    else base
  }

  /**
   * The server is degraded exactly when under half of at least one request
   * succeeded; with no requests it is healthy. "High rate limiting" is listed
   * exactly when more than 100 requests were rate limited, after the low
   * success rate; with neither problem there is no issue list at all.
   */
  lemma HealthRules(c: Counters, uptimeSeconds: int, rateLimited: int)
    ensures var h := Health(c, uptimeSeconds, rateLimited);
      var low := c.totalRequests > 0 && 2 * c.successfulRequests < c.totalRequests;
      && (h.status == "degraded" <==> low)
      && (h.status != "degraded" ==> h.status == "healthy")
      && (c.totalRequests == 0 ==> h.status == "healthy")
      && (h.issues.None? <==> !low && rateLimited <= 100)
      && (h.issues.Some? ==>
            (h.issues.value == (if low then ["Low success rate"] else []) + (if rateLimited > 100 then ["High rate limiting"] else [])))
      && h.uptime == FormatUptime(uptimeSeconds)
  {
    var low := c.totalRequests > 0 && 2 * c.successfulRequests < c.totalRequests;
    assert Below(SuccessRate(c), 50) <==> low;
  }

  // ---- execute_warp_action ----

  /** What the host reports after running a command or writing a file. */
  datatype HostResult = HostResult(success: bool, error: Option<string>)

  /** The returned dictionary: the blocks to show and the result. */
  datatype ActionResponse = ActionResponse(blocks: seq<Json.Value>, result: HostResult)

  /** A missing payload key raises `KeyError`, whose text is the quoted key. */
  function KeyError(key: string): string
  {
    "'" + key + "'"
  }

  const DoneMarker := "\U{2705} Action completed: "

  function Respond(actionType: string, r: HostResult): ActionResponse
  {
    var block := if r.success then WarpContext.CreateTextBlock(DoneMarker + actionType)
                 else WarpContext.CreateErrorBlock("Action failed: " + r.error.UnwrapOr("Unknown error"), None);
    ActionResponse([Json.Obj(WarpContext.ToDict(block))], r)
  }

  /**
   * `execute_warp_action`, given the extracted context: the counters
   * afterwards and the response, or the text of the exception raised.
   * `run` and `create` stand for running a command in a directory and
   * writing a file.
   */
  function Dispatched(c: Counters, actionType: string, payload: Json.Fields, context: Result<Json.Fields, string>,
                      run: (Json.Value, Option<Json.Value>) -> HostResult,
                      create: (Json.Value, Json.Value) -> HostResult): Result<(Counters, ActionResponse), string>
  {
    match context
    case Failure(e) => Failure(e)
    case Success(ctx) =>
      if actionType == "command" then
        match Json.Get(payload, "command")
        case None => Failure(KeyError("command"))
        case Some(command) =>
          Success((c.(commandsExecuted := c.commandsExecuted + 1), Respond(actionType, run(command, Json.Get(ctx, "cwd")))))
      else if actionType == "file" then
        match Json.Get(payload, "filepath")
        case None => Failure(KeyError("filepath"))
        case Some(filepath) =>
          match Json.Get(payload, "content")
          case None => Failure(KeyError("content"))
          case Some(content) =>
            Success((c.(filesCreated := c.filesCreated + 1), Respond(actionType, create(filepath, content))))
      else
        Success((c, Respond(actionType, HostResult(false, Some("Unknown action type: " + actionType)))))
  }

  /** The block shown is a completion notice exactly when the result reports success. */
  predicate ShowsOutcome(actionType: string, response: ActionResponse)
  {
    && |response.blocks| == 1
    && (response.result.success <==>
          response.blocks[0] == Json.Obj(WarpContext.ToDict(WarpContext.CreateTextBlock(DoneMarker + actionType))))
  }

  /**
   * A "command" action needs a "command" in the payload; it bumps only the
   * command counter and shows what the host reports.
   */
  lemma DispatchCommand(c: Counters, payload: Json.Fields, ctx: Json.Fields,
                        run: (Json.Value, Option<Json.Value>) -> HostResult,
                        create: (Json.Value, Json.Value) -> HostResult)
    ensures var d := Dispatched(c, "command", payload, Success(ctx), run, create);
      && (d.Success? <==> "command" in Json.Keys(payload))
      && (d.Failure? ==> d.error == "'command'")
      && (d.Success? ==> d.value.0 == c.(commandsExecuted := c.commandsExecuted + 1)
                         && d.value.1.result == run(Json.Get(payload, "command").value, Json.Get(ctx, "cwd"))
                         && ShowsOutcome("command", d.value.1))
  {
    var d := Dispatched(c, "command", payload, Success(ctx), run, create);
    if d.Success? {
      TextIsNotError("command", d.value.1.result);
    }
  }

  /**
   * A "file" action needs a "filepath" and a "content" in the payload; it
   * bumps only the file counter and shows what the host reports.
   */
  lemma DispatchFile(c: Counters, payload: Json.Fields, ctx: Json.Fields,
                     run: (Json.Value, Option<Json.Value>) -> HostResult,
                     create: (Json.Value, Json.Value) -> HostResult)
    ensures var d := Dispatched(c, "file", payload, Success(ctx), run, create);
      && (d.Success? <==> "filepath" in Json.Keys(payload) && "content" in Json.Keys(payload))
      && (d.Success? ==> d.value.0 == c.(filesCreated := c.filesCreated + 1)
                         && d.value.1.result == create(Json.Get(payload, "filepath").value, Json.Get(payload, "content").value)
                         && ShowsOutcome("file", d.value.1))
  {
    var d := Dispatched(c, "file", payload, Success(ctx), run, create);
    if d.Success? {
      TextIsNotError("file", d.value.1.result);
    }
  }

  /**
   * A failed context extraction propagates; any other action type changes no
   * counter and fails with an error block naming the type.
   */
  lemma DispatchOther(c: Counters, actionType: string, payload: Json.Fields, context: Result<Json.Fields, string>,
                      run: (Json.Value, Option<Json.Value>) -> HostResult,
                      create: (Json.Value, Json.Value) -> HostResult)
    requires actionType != "command" && actionType != "file"
    ensures var d := Dispatched(c, actionType, payload, context, run, create);
      && (context.Failure? ==> d == Failure(context.error))
      && (context.Success? ==>
            && d.Success? && d.value.0 == c
            && d.value.1.result == HostResult(false, Some("Unknown action type: " + actionType))
            && d.value.1.blocks == [Json.Obj(WarpContext.ToDict(
                 WarpContext.CreateErrorBlock("Action failed: Unknown action type: " + actionType, None)))]
            && ShowsOutcome(actionType, d.value.1))
  {
    if context.Success? {
      UnknownResponse(actionType);
    }
  }

  /** The response to an unknown action type: an error block that names it. */
  lemma UnknownResponse(actionType: string)
    ensures var r := Respond(actionType, HostResult(false, Some("Unknown action type: " + actionType)));
      && r.blocks == [Json.Obj(WarpContext.ToDict(
           WarpContext.CreateErrorBlock("Action failed: Unknown action type: " + actionType, None)))]
      && ShowsOutcome(actionType, r)
  {
    TextIsNotError(actionType, HostResult(false, Some("Unknown action type: " + actionType)));
    assert "Action failed: " + ("Unknown action type: " + actionType) == "Action failed: Unknown action type: " + actionType;
  }

  lemma TextIsNotError(actionType: string, r: HostResult)
    ensures r.success <==> Respond(actionType, r).blocks[0] == Json.Obj(WarpContext.ToDict(WarpContext.CreateTextBlock(DoneMarker + actionType)))
  {
    if !r.success {
      var e := WarpContext.CreateErrorBlock("Action failed: " + r.error.UnwrapOr("Unknown error"), None);
      var t := WarpContext.CreateTextBlock(DoneMarker + actionType);
      assert WarpContext.ToDict(e)[0] != WarpContext.ToDict(t)[0];
    }
  }

  /** The global `metrics` dict. */
  class Metrics {
    var startMs: int
    var counters: Counters

    constructor (nowMs: int)
      ensures startMs == nowMs && counters == ZeroCounters
    {
      startMs := nowMs;
      counters := ZeroCounters;
    }

    /** The counter updates of `ask_poe_with_warp_context`. */
    method RecordQuery(outcome: QueryOutcome)
      modifies this`counters
      ensures counters == Recorded(old(counters), outcome)
    {
      counters := counters.(totalRequests := counters.totalRequests + 1);
      match outcome {
        case ContextRejected =>
          counters := counters.(failedRequests := counters.failedRequests + 1);
        case Streamed =>
          counters := counters.(warpContextsProcessed := counters.warpContextsProcessed + 1);
        case QueryFailed =>
          counters := counters.(warpContextsProcessed := counters.warpContextsProcessed + 1);
          counters := counters.(failedRequests := counters.failedRequests + 1);
        case Answered(actions, latencyMs, tokens) =>
          counters := counters.(warpContextsProcessed := counters.warpContextsProcessed + 1);
          if actions.Some? {
            counters := counters.(commandsExecuted := counters.commandsExecuted + CountCommands(actions.value));
            counters := counters.(filesCreated := counters.filesCreated + CountFiles(actions.value));
          }
          counters := counters.(totalLatencyMs := counters.totalLatencyMs + latencyMs);
          counters := counters.(successfulRequests := counters.successfulRequests + 1);
          counters := counters.(totalTokens := counters.totalTokens + tokens);
      }
    }

    method ExecuteWarpAction(actionType: string, payload: Json.Fields, context: Result<Json.Fields, string>,
                             run: (Json.Value, Option<Json.Value>) -> HostResult,
                             create: (Json.Value, Json.Value) -> HostResult)
      returns (r: Result<ActionResponse, string>)
      modifies this`counters
      ensures var d := Dispatched(old(counters), actionType, payload, context, run, create);
        && (d.Failure? ==> r == Failure(d.error) && counters == old(counters))
        && (d.Success? ==> r == Success(d.value.1) && counters == d.value.0)
    {
      if context.Failure? {
        return Failure(context.error);
      }
      var result: HostResult;
      if actionType == "command" {
        var command := Json.Get(payload, "command");
        if command.None? {
          return Failure(KeyError("command"));
        }
        result := run(command.value, Json.Get(context.value, "cwd"));
        counters := counters.(commandsExecuted := counters.commandsExecuted + 1);
      } else if actionType == "file" {
        var filepath := Json.Get(payload, "filepath");
        if filepath.None? {
          return Failure(KeyError("filepath"));
        }
        var content := Json.Get(payload, "content");
        if content.None? {
          return Failure(KeyError("content"));
        }
        result := create(filepath.value, content.value);
        counters := counters.(filesCreated := counters.filesCreated + 1);
      } else {
        result := HostResult(false, Some("Unknown action type: " + actionType));
      }
      return Success(Respond(actionType, result));
    }

    /** `health_check`'s status, at time `nowMs`. */
    function HealthCheck(nowMs: int, rateLimited: int): HealthStatus
      reads this
    {
      Health(counters, (nowMs - startMs) / 1000, rateLimited)
    }

    /** `reset_metrics`: a new start time, every counter zero, and the limiter's metrics cleared. */
    method ResetMetrics(limiter: RateLimiter.Limiter, nowMs: int) returns (status: string)
      requires limiter.Valid()
      modifies this, limiter`metrics
      ensures startMs == nowMs && counters == ZeroCounters && Consistent(counters)
      ensures limiter.Valid() && limiter.metrics == RateLimiter.ZeroMetrics
      ensures status == "Metrics reset successfully"
    {
      startMs := nowMs;
      counters := ZeroCounters;
      limiter.ResetMetrics();
      status := "Metrics reset successfully";
    }
  }
}
