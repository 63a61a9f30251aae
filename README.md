# poe-proxy-mcp core, modelled in Dafny

poe-proxy-mcp is a Python MCP server. It fronts the Poe API for the Warp
terminal. Around the network calls it holds the logic modelled and proved
here:

- an admission controller with a priority queue, a sliding 60-second window,
  exponential backoff and a bounded retry loop (`poe_client/rate_limiter.py`);
- streaming buffers: the SSE event serialiser, the chunk aggregator, the
  delta processor that merges tool-call fragments, the SSE streamer's
  event-id and error policy, and the Warp block adapter
  (`poe_client/streaming.py`);
- Warp text handling: block serialisation, context extraction, the response
  formatter, the code-fence splitter and the line-marker action parser
  (`warp_context_handler.py`);
- three session stores with expiry (`poe_client/session.py`,
  `poe_client_v2.py`, `poe_server.py`);
- request shaping, the one-round tool loop and error mapping of the OpenAI
  client (`poe_client/openai_client.py`);
- the production server's prompt builder, uptime formatter, health rules,
  action dispatch and metrics (`poe_server_phase2.py`);
- the action-result formatter and the command and overwrite guards
  (`warp_agent_tools.py`);
- two file validators (`file_utils.py`, `poe_client/file_utils.py`);
- the static model tables and message rules of `poe_client/poe_api.py`;
- the two MCP configuration installers (`install_enhanced_poe.py`,
  `examples/configure_mcp_settings_v2.py`).

Each core Python file is one Dafny module, except `poe_client/streaming.py`, which is split in two: `Streaming` (the serialiser, the aggregator and the streamer) and `DeltaStream` (the delta processor and the Warp adapter). Its form follows the source:

- Objects whose fields the source updates become classes with `modifies`
  clauses: the request queue, the limiter, the aggregator, the processors,
  the session managers and the metrics.
- Loops become methods with loop invariants. Each is proved equal to a
  specification function, and the properties are proved about that function.
- Pure code becomes functions and lemmas.

Helper modules:

- `Wrappers`: Option and Result.
- `Text`: Python string operations.
- `Json`: Python values with insertion-ordered dicts, the `json.dumps`
  defaults, and CPython's exception texts for dict and list operations on
  the wrong type.
- `EventStream`: the event-stream parser of section 9.2.6 of the WHATWG
  HTML Living Standard. It is the independent reader that `to_sse` output
  is proved to round-trip through.
- `OsPath`: `os.path.basename` and `os.path.splitext`.
- `McpConfig`: the merge step both installers share.

Time is an integer number of milliseconds, passed in by the caller.
Randomness is a sequence of draws passed in. File-system facts, subprocess
results, SDK replies and the MIME guess are parameters.

Where the code and its documentation disagree, the model follows the code:

- The request heap compares `priority` only. Requests of equal priority
  come out in no promised order; there is no FIFO tie-break.
- `error_counts['rate_limit']` is only ever reset to 0. So the saturation
  backoff multiplier stays 1 unless a request is itself named "rate_limit".
- `Retry-After` is read only from a successful result, and only as a
  number of seconds: the delay-seconds form of section 10.2.3 of RFC 9110.
  The HTTP-date form makes `float()` raise, and the model says so.
- The Warp adapter sends a closing item only when it has at least one block.

## Model

| member | source | states |
|---|---|---|
| RateLimiter.HeapRootBelowAll | poe_client/rate_limiter.py:23-32 | the root of a heap ordered by `priority` alone has a priority no larger than any request in it |
| RateLimiter.SiftUp | poe_client/rate_limiter.py:50 | `heappush`'s sift restores heap order and keeps the same multiset of requests |
| RateLimiter.SiftDown | poe_client/rate_limiter.py:58 | `heappop`'s sift restores heap order below `lo` and keeps the same multiset; the sift is the textbook one, not CPython's `_siftup`, so requests of equal priority may come out in another order |
| RateLimiter.Heapify | poe_client/rate_limiter.py:83 | `heapify` gives a heap holding the same multiset of requests; built with the textbook sift, not CPython's `_siftup`, so the order among equal priorities may differ |
| RateLimiter.SweepPartitions | poe_client/rate_limiter.py:75-80 | the sweep splits the queue into kept and expired requests; kept means exactly not older than `max_age` (strict `>`), expired exactly older |
| RateLimiter.RequestQueue.constructor | poe_client/rate_limiter.py:42-45 | a new queue is empty, with count 0 |
| RateLimiter.RequestQueue.Put | poe_client/rate_limiter.py:47-52 | adds exactly the one request to the multiset and increments `request_count` |
| RateLimiter.RequestQueue.Get | poe_client/rate_limiter.py:54-61 | None on an empty queue; otherwise removes exactly one request, which has minimal priority; the count is unchanged |
| RateLimiter.RequestQueue.Size | poe_client/rate_limiter.py:63-66 | the number of queued requests |
| RateLimiter.RequestQueue.ClearExpired | poe_client/rate_limiter.py:68-88 | removes exactly the stale requests, keeps the rest as a heap, returns how many were removed and which (their futures fail with a timeout) |
| RateLimiter.SaturationBackoff | poe_client/rate_limiter.py:173-174 | `min(base*min(2^count,64), max)` is at most the cap and at most 64 times the base; with count 0 it is `min(base, max)` |
| RateLimiter.RetryBackoff | poe_client/rate_limiter.py:270 | the retry backoff never exceeds the cap |
| RateLimiter.RetryBackoffMonotone | poe_client/rate_limiter.py:270 | the retry backoff is non-decreasing in the retry number |
| RateLimiter.Jitter | poe_client/rate_limiter.py:175 | the jitter is at most half the backoff |
| RateLimiter.TotalWait | poe_client/rate_limiter.py:176 | a wait is at least the backoff and at most 1.5 times the cap |
| RateLimiter.SumWaitsBounds | poe_client/rate_limiter.py:172-182 | n saturation cycles wait at least n backoffs and at most 1.5·n caps in total |
| RateLimiter.DropStale | poe_client/rate_limiter.py:148-152 | the swept window is no longer, and its first entry is at most 60 s old |
| RateLimiter.DropStaleIsSuffix | poe_client/rate_limiter.py:151-152 | the sweep removes a prefix only, keeping order |
| RateLimiter.DropStaleDropsOnlyStale | poe_client/rate_limiter.py:151 | every removed entry was older than 60 s |
| RateLimiter.KeepsRecent | poe_client/rate_limiter.py:151 | an entry not older than 60 s (exactly 60 s included) survives the sweep |
| RateLimiter.DropStaleCompose | poe_client/rate_limiter.py:151-152 | sweeping earlier and then later equals sweeping later |
| RateLimiter.Sweep | poe_client/rate_limiter.py:151-152 | the popleft loop computes the sweep |
| RateLimiter.AttemptError | poe_client/rate_limiter.py:243-258 | an attempt fails exactly when the call raised or its Retry-After header is not a number |
| RateLimiter.AdmissionStart | poe_client/rate_limiter.py:161-165 | admission starts no earlier than now and no earlier than a pending Retry-After deadline |
| RateLimiter.SlotPass | poe_client/rate_limiter.py:157-182 | a saturation cycle consumes one draw and waits backoff plus that jitter |
| RateLimiter.SlotWaitCycles | poe_client/rate_limiter.py:157-182 | one draw per cycle; the wait gives up only when the draws run out; the waited total is the sum of the cycles' waits |
| RateLimiter.SlotWaitTiming | poe_client/rate_limiter.py:161-182 | admission time is the Retry-After start plus the waits; the deadline is cleared exactly when it was pending |
| RateLimiter.SlotWaitWindow | poe_client/rate_limiter.py:158-170 | the window is swept; the admission time is appended only when fewer than `rpm_limit` entries remain (lines 158, 168-170) |
| RateLimiter.SlotWaitKeepsLimit | poe_client/rate_limiter.py:168-170 | admission never takes the window past `rpm_limit` |
| RateLimiter.SlotAdmits | poe_client/rate_limiter.py:158-170 | a pass with room admits at the admission start |
| RateLimiter.SlotGivesUp | poe_client/rate_limiter.py:168-182 | a full window with no draws left leaves the caller waiting |
| RateLimiter.SlotCycles | poe_client/rate_limiter.py:172-182 | a saturation cycle hands the rest of the run to the next pass with one draw fewer |
| RateLimiter.SlotLoop | poe_client/rate_limiter.py:157-182 | the `while True` loop computes the slot wait |
| RateLimiter.SaturationWait | poe_client/rate_limiter.py:173-174 | the saturation backoff in force never exceeds the cap |
| RateLimiter.AttemptStepCounts | poe_client/rate_limiter.py:236-275 | one attempt counts one success, or one retry, or one retry and one failure past `max_retries` |
| RateLimiter.ExecLoopCounts | poe_client/rate_limiter.py:233-277 | at most `max_retries+1` calls; a success adds one success and a retry per earlier call; a final failure adds one failure after exactly `max_retries+1` calls |
| RateLimiter.AttemptStepErrorCounts | poe_client/rate_limiter.py:252-262 | only the request's own count and the saturation count change; a success zeroes both (lines 252-253, 262) |
| RateLimiter.ExecLoopSaturationCount | poe_client/rate_limiter.py:173-252 | a zero saturation count stays zero unless the request is named "rate_limit" (lines 173, 252) |
| RateLimiter.AttemptStepKeepsLimit | poe_client/rate_limiter.py:236-275 | one attempt keeps the window within `rpm_limit` |
| RateLimiter.ExecLoopKeepsLimit | poe_client/rate_limiter.py:236-275 | direct execution keeps the window within `rpm_limit` |
| RateLimiter.RequestIdOrDefault | poe_client/rate_limiter.py:207-208 | a given id is kept; otherwise the id is "req_" followed by the digits of the current milliseconds |
| RateLimiter.SuccessRate | poe_client/rate_limiter.py:328-331 | the rate is within 0 and 100, is 0 with no requests, and is 100 when all succeeded |
| RateLimiter.Limiter.constructor | poe_client/rate_limiter.py:103-146 | the limits as given (the cap in ms), an empty window, queue and error counts, no deadline, zero metrics |
| RateLimiter.Limiter.CleanupWindow | poe_client/rate_limiter.py:148-152 | the window becomes its sweep at the given time |
| RateLimiter.Limiter.SlotBackoff | poe_client/rate_limiter.py:173-174 | the saturation backoff from the current `error_counts['rate_limit']` |
| RateLimiter.Limiter.WaitForSlot | poe_client/rate_limiter.py:154-182 | window, deadline and the `rate_limited`/`total_wait_time` counters become those of the slot wait |
| RateLimiter.Limiter.TryOnce | poe_client/rate_limiter.py:237-275 | one pass of the retry loop leaves the state the specification's attempt step gives |
| RateLimiter.Limiter.Settle | poe_client/rate_limiter.py:245-275 | settling a call leaves the state the specification gives |
| RateLimiter.Limiter.Execute | poe_client/rate_limiter.py:207-277 | counts the request, then runs the retry loop to the specification's outcome and state (lines 207-210, 233-277) |
| RateLimiter.Limiter.Enqueue | poe_client/rate_limiter.py:207-228 | counts the request, queues it with its priority and time, and raises `queue_size_max` to the queue length |
| RateLimiter.Limiter.GetMetrics | poe_client/rate_limiter.py:322-332 | reports the counters, `current_rpm` = window length, the queue size and the success rate |
| RateLimiter.Limiter.ResetMetrics | poe_client/rate_limiter.py:334-344 | every counter is zero; window, queue and error counts are kept |
| EventStream.Lines | poe_client/streaming.py:58 | the lines a client cuts a stream into hold no line break (the reader `to_sse` output is checked against) |
| EventStream.FoldAppend | poe_client/streaming.py:58 | reading two runs of lines one after the other is reading their concatenation |
| EventStream.LinesOfFrame | poe_client/streaming.py:58 | lines joined by LF and closed by a blank line read back as those lines and one empty line |
| Streaming.SseLines | poe_client/streaming.py:39-56 | an event's last line is always its `data:` line |
| Streaming.LinesOfSse | poe_client/streaming.py:37-58 | a client cuts a framable event into its own lines and one blank line |
| Streaming.FoldHead | poe_client/streaming.py:41-45 | the `id:` line is read as the id ("" when absent or empty) and the `event:` line as the type, absent for `message` |
| Streaming.FoldRetry | poe_client/streaming.py:47-48 | a `retry:` line is written whenever retry is set, including 0; a client takes it only when non-negative |
| Streaming.FoldData | poe_client/streaming.py:50-58 | a `data:` line and the closing blank line dispatch one event with that data |
| Streaming.ToSseReadsBack | poe_client/streaming.py:37-58 | a serialised event reads back, per section 9.2.6 of the WHATWG HTML Living Standard, as exactly one event with its type, data text and id, and its retry as reconnection time |
| Streaming.JsonDataFramable | poe_client/streaming.py:53-54 | non-string data is JSON text, so an event with such data and a single-line id is framable |
| Streaming.StringDataIsNotSplit | poe_client/streaming.py:51-52 | string data is written verbatim: "a\nb" is read back as "a" |
| Streaming.AddChunkKeepsSize | poe_client/streaming.py:77-92 | whatever the chunk, even one that makes `add_chunk` raise, the size is the sum of the buffered lengths, and buffer and tool calls are only extended |
| Streaming.AddChunkWellShaped | poe_client/streaming.py:77-98 | on a chunk of the documented shape nothing raises; non-empty contents are appended in order with their lengths, tool calls extended in order, `id`/`model` recorded |
| Streaming.RecordMetadataLastWins | poe_client/streaming.py:95-98 | `id` and `model` are last-write-wins; no other metadata key changes |
| Streaming.GrownTwice | poe_client/streaming.py:81-92 | taking choices one after another appends their texts and tool calls in order |
| Streaming.AddChunkTo | poe_client/streaming.py:80-98 | the loop over the choices computes the specification's absorption of the chunk, raising where Python raises |
| Streaming.ChunkAggregator.constructor | poe_client/streaming.py:64-75 | an empty aggregator with the given maximum buffer size |
| Streaming.ChunkAggregator.AddChunk | poe_client/streaming.py:77-98 | the state and the raised error are those of the specification's absorption |
| Streaming.ChunkAggregator.GetAggregated | poe_client/streaming.py:100-102 | the buffered contents concatenated in arrival order; an error exactly when one is not a string |
| Streaming.ChunkAggregator.GetToolCalls | poe_client/streaming.py:104-106 | the tool calls in arrival order |
| Streaming.ChunkAggregator.Clear | poe_client/streaming.py:108-117 | everything is emptied; afterwards the aggregator is full exactly when its maximum is not positive |
| Streaming.ChunkStepIds | poe_client/streaming.py:172-189 | a chunk's delta event takes the current id and advances it by one; an error event takes none |
| Streaming.DeltaIdsConsecutive | poe_client/streaming.py:172-222 | delta events carry consecutive ids from the streamer's current id, which ends one past the last delta's |
| Streaming.ChunkStepPolicy | poe_client/streaming.py:173-222 | one chunk yields one event, and an error event there follows the retry policy |
| Streaming.ErrorPolicy | poe_client/streaming.py:190-222 | every error event is recoverable with an attempt between 1 and `max_retries`, except a fatal one, which is the last event of the loop |
| Streaming.TranscriptShape | poe_client/streaming.py:146-235 | the first event is the init event carrying the retry interval; with aggregation the last is a complete event with the next id; without it only init and the loop's events |
| Streaming.SSEStreamer.constructor | poe_client/streaming.py:125-144 | the settings as given, a fresh default aggregator, event id and error count 0 |
| Streaming.SSEStreamer.Step | poe_client/streaming.py:173-222 | one pass of the loop leaves the state and yields the events of the specification's chunk step |
| Streaming.SSEStreamer.StreamResponse | poe_client/streaming.py:146-243 | the events yielded and the exception that escapes are the specification's transcript |
| DeltaStream.KeyOf | poe_client/streaming.py:284-286 | an `index` is usable as a dict key exactly when it is not a list or a dict (those raise `unhashable type`) |
| DeltaStream.Find | poe_client/streaming.py:286 | the position of an index in the insertion-ordered buffer, or past the end exactly when it is absent |
| DeltaStream.SetEntry | poe_client/streaming.py:297-305 | writing a present index replaces its entry in place; keys, order and other entries are kept |
| DeltaStream.Values | poe_client/streaming.py:308-316 | `list(values())`: one tool-call dict per entry, in insertion order (lines 308, 316) |
| DeltaStream.Slot | poe_client/streaming.py:286-294 | a new index gets a fresh empty entry at the end; a present one leaves the buffer as it is |
| DeltaStream.MergeKeys | poe_client/streaming.py:284-294 | a fragment leaves its index in the buffer, after all earlier indices |
| DeltaStream.MergeKeepsWf | poe_client/streaming.py:283-305 | merging a fragment keeps the buffer's indices distinct |
| DeltaStream.MergeAllKeepsWf | poe_client/streaming.py:283-305 | merging all of a delta's fragments keeps the indices distinct |
| DeltaStream.MergeKeepsKeys | poe_client/streaming.py:283-305 | no index ever leaves the buffer |
| DeltaStream.MergeAllKeepsKeys | poe_client/streaming.py:283-305 | no index leaves the buffer over a whole delta |
| DeltaStream.ApplyCallUpdates | poe_client/streaming.py:297-305 | a sent `id` or `name` replaces the earlier one; sent `arguments` are appended to the earlier ones |
| DeltaStream.ApplyFunctionUpdates | poe_client/streaming.py:300-305 | inside `function`, `name` replaces, `arguments` is appended, and the id stays |
| DeltaStream.MergeUpdatesEntry | poe_client/streaming.py:284-305 | a fragment updates its index's entry (or a fresh one) and leaves every other entry in its place |
| DeltaStream.ContentAccumulates | poe_client/streaming.py:276-279 | truthy content is buffered and reported with the join of all content so far; without content buffer and result are untouched |
| DeltaStream.NoToolCallsKeepsBuffer | poe_client/streaming.py:282-308 | a delta without `tool_calls` leaves the tool-call buffer alone and reports no tool calls (lines 282, 308) |
| DeltaStream.ProcessKeepsKeys | poe_client/streaming.py:263-310 | buffered tool calls are never dropped by `process_delta` |
| DeltaStream.ContentReported | poe_client/streaming.py:276-279 | the content a successful delta reports is exactly what it added to the buffer |
| DeltaStream.FinalResult | poe_client/streaming.py:312-317 | the joined content, raising on a non-string piece; `tool_calls` is None exactly when the buffer is empty |
| DeltaStream.DeltaStreamProcessor.constructor | poe_client/streaming.py:258-261 | empty content and tool-call buffers |
| DeltaStream.DeltaStreamProcessor.MergeToolCalls | poe_client/streaming.py:283-305 | the loop over a delta's tool calls computes the specification's merge, content untouched |
| DeltaStream.DeltaStreamProcessor.ProcessDelta | poe_client/streaming.py:263-310 | state and result (or the raised error) are the specification's |
| DeltaStream.DeltaStreamProcessor.GetFinalResult | poe_client/streaming.py:312-317 | the final result of the current buffers |
| DeltaStream.DeltaStreamProcessor.Reset | poe_client/streaming.py:319-323 | both buffers are emptied |
| DeltaStream.ToolBlocks | poe_client/streaming.py:361-389 | one `tool_call` block per tool call, in order, with the streaming flag (lines 361-367, 383-389) |
| DeltaStream.DeltaBlockTexts | poe_client/streaming.py:354-359 | an item's text blocks carry exactly the content reported for the chunk |
| DeltaStream.AfterDeltaTexts | poe_client/streaming.py:348-370 | the texts a delta streams are what the processor buffered for it |
| DeltaStream.WarpChunksTexts | poe_client/streaming.py:346-370 | over the whole stream the buffered contents are the streamed texts in order |
| DeltaStream.FinalTextIsStreamedText | poe_client/streaming.py:372-392 | the closing item's text is the concatenation of every text streamed before it |
| DeltaStream.AppendToolBlocks | poe_client/streaming.py:362-367 | the loop appends the tool blocks in order |
| DeltaStream.BuildBlocks | poe_client/streaming.py:352-367 | the blocks of one processed delta: the text block, then the tool blocks |
| DeltaStream.WarpStep | poe_client/streaming.py:347-370 | one chunk of the adapter's loop yields and updates as the specification says |
| DeltaStream.StreamToWarpBlocks | poe_client/streaming.py:332-392 | the items yielded and the error raised are the specification's for the whole stream |
| WarpContext.TypeValueRoundTrip | warp_context_handler.py:22-33 | every block type is found again from its enum value |
| WarpContext.PresentExactly | warp_context_handler.py:52-54 | an attribute is kept exactly when it is not None, with its value |
| WarpContext.ToDictFields | warp_context_handler.py:49-55 | "type" comes first with the enum's value; every other field is present exactly when it is not None |
| WarpContext.FromDictToDict | warp_context_handler.py:36-55 | a block's dict reads back as the block itself |
| WarpContext.NormalBlock | warp_context_handler.py:85-89 | copying a request block raises exactly when the block is not a dict |
| WarpContext.Provided | warp_context_handler.py:92-114 | `dict.get(key, default)`: the given value when present, else the default (lines 96, 106) |
| WarpContext.CopyBlocks | warp_context_handler.py:83-89 | the block loop copies each block's text, type and meta, defaulted, or raises at the first non-dict |
| WarpContext.ExtractFromRequest | warp_context_handler.py:62-116 | the context the specification extraction gives, or the error Python raises |
| WarpContext.ExtractedContext | warp_context_handler.py:72-116 | the seven keys in order; selection, cwd, git, env, references and attachments as provided or defaulted; the host's git state only when none is provided |
| WarpContext.CopyBlocksIdempotent | warp_context_handler.py:83-89 | copying copied blocks again changes nothing |
| WarpContext.ExtractIdempotent | warp_context_handler.py:62-116 | an extracted context passes through extraction again unchanged |
| WarpContext.ExtractTerminalOutput | warp_context_handler.py:160-166 | the loop computes the specification's terminal output |
| WarpContext.TerminalOutputLines | warp_context_handler.py:160-166 | the texts of the `output` blocks joined by "\n" in order; when none holds a newline, splitting gives them back |
| WarpContext.SelectionNeedsRange | warp_context_handler.py:169-186 | a selection is found only when it is truthy, has `block_index`, `start` and `end`, and `0 <= block_index < len(blocks)` |
| WarpContext.SelectionOfWellFormed | warp_context_handler.py:169-186 | for well-formed input the result is the block's text sliced Python-style from start to end, or None when the index is out of range |
| WarpContext.ExtractFileReferences | warp_context_handler.py:189-195 | the loop computes the specification's file references |
| WarpContext.FileReferencePaths | warp_context_handler.py:189-195 | the paths of the references typed "file", in order; it fails exactly when a reference is not a dict |
| WarpContext.CollectSucceeds | warp_context_handler.py:84-192 | a collecting loop fails exactly when one of its elements raises (lines 84, 192) |
| WarpContext.CreateCodeBlock | warp_context_handler.py:202-212 | a code block with the text and the language and line-number meta, nothing else set |
| WarpContext.CreateCommandBlock | warp_context_handler.py:215-234 | an executable command gets exactly one `run` action with the command, any other none; meta exactly for a non-empty description |
| WarpContext.CreateFileBlock | warp_context_handler.py:237-248 | the name and content as given; the path is `/tmp/<name>` when none (or "") is given |
| WarpContext.CreateMediaBlock | warp_context_handler.py:251-265 | a path without a URL gives the data URL; otherwise the URL as given; the media type is set |
| WarpContext.CreateTextBlock | warp_context_handler.py:268-273 | a text block with only the text set |
| WarpContext.CreateErrorBlock | warp_context_handler.py:276-286 | the text is the error marker and the error, with details appended exactly when non-empty; severity "error" |
| WarpContext.Language | warp_context_handler.py:334 | the file's suffix without its dot, or "text": never empty and never holding a dot |
| WarpContext.ResponseBlockOrder | warp_context_handler.py:325-380 | blocks come in the order text, code, commands, files, images, videos, errors, one per item, and one text block only for a non-empty text |
| WarpContext.AppendBlocks | warp_context_handler.py:332-378 | one loop appends one block per item, in order |
| WarpContext.AppendMedia | warp_context_handler.py:354-371 | the image or video loop appends one media block per path |
| WarpContext.FormatResponse | warp_context_handler.py:301-380 | the dicts of the specification's blocks |
| WarpContext.MarkerLines | warp_context_handler.py:470-498 | the marker lines the scan acts on lie within the response |
| WarpContext.MarkerLinesMatch | warp_context_handler.py:470-498 | the n-th action is the action of the n-th marker line |
| WarpContext.MarkerOrder | warp_context_handler.py:470-498 | actions follow the order of their marker lines |
| WarpContext.ReadContent | warp_context_handler.py:487-492 | the inner loop takes the lines up to the first raw line starting with '[' |
| WarpContext.ScanStep | warp_context_handler.py:471-498 | a plain line adds nothing; a marker line adds its action and the scan resumes after its content |
| WarpContext.ParseActions | warp_context_handler.py:467-500 | the loop finds the specification's marker actions |
| WarpContext.CommandsOnly | warp_context_handler.py:475-481 | with no file markers, each stripped line starting with `[EXECUTE]:` gives one command, stripped, in order |
| WarpContext.FileContentLines | warp_context_handler.py:484-494 | a file's content is the lines after its marker up to the first raw line starting with '[' |
| WarpContext.ScanSwallows | warp_context_handler.py:489-491 | two following lines not starting with '[' are both content |
| WarpContext.ScanDrops | warp_context_handler.py:489-498 | a plain line starting with '[' after a file ends it and is dropped |
| WarpContext.IndentedMarkerIsContent | warp_context_handler.py:472-489 | an indented marker inside a file's content is swallowed as content (lines 472, 489) |
| WarpContext.BracketLineIsDropped | warp_context_handler.py:489-498 | a content line such as `[1, 2]` ends the file and is dropped |
| WarpContext.ScanFences | warp_context_handler.py:579-602 | the fence loop's blocks and pending code and text are those of the specification's fold |
| WarpContext.FormatPoeResponse | warp_context_handler.py:555-617 | the dicts of the specification's blocks, pending text flushed before pending code |
| WarpContext.PoeBlockLines | warp_context_handler.py:570-617 | the blocks' lines in order are exactly the non-fence lines; no fence line is kept; every block is text or Python code |
| Session.ExpiryIsStrict | poe_client/session.py:184-200 | a session is expired exactly when now is past its last access plus the expiry time; the deadline itself is still alive |
| Session.Created | poe_client/session.py:31-45 | the fresh id maps to a session with no messages, whose creation and last access are the two clock readings; every other session is kept |
| Session.Deleted | poe_client/session.py:128-144 | true exactly when the id was present; afterwards it is absent and the others are kept (the second-generation store deletes the same way) |
| Session.Lookup | poe_client/session.py:47-70 | the access time is set to one clock reading and the expiry check takes another; the session is found exactly when the second is within the expiry time of the first, and otherwise deleted and None returned |
| Session.ZeroExpiryLosesSessions | poe_client/session.py:62-68 | with an expiry time of 0, any clock tick between the touch and the check deletes the session and hides it |
| Session.GetOrCreateCases | poe_client/session.py:72-94 | the expiry check reads the clock before the touch; a known live id comes back touched; a known expired one is deleted and a new one made; a missing, empty or unknown id gets a new one; no other session changes |
| Session.UpdateAppendsExchange | poe_client/session.py:96-126 | an update succeeds exactly when the session exists and passes `get_session`'s check (second reading within the expiry time of the first); it appends exactly a user and an assistant message and sets the last access to a third reading; a session failing the check is deleted; an unknown id changes nothing |
| Session.MessagesOf | poe_client/session.py:146-161 | the session's messages, touched, when it passes `get_session`'s check; none, with the session deleted, when it fails; none and no change for an unknown id |
| Session.SweepPartition | poe_client/session.py:163-182 | the sweep keeps exactly the sessions unexpired at their own clock reading, unchanged, and counts the removed ones |
| Session.OperationsKeepTimely | poe_client/session.py:31-200 | with a clock that does not go back, every operation keeps each creation time no later than its last access and no access in the future |
| Session.SessionManager.constructor | poe_client/session.py:20-29 | no sessions, the given expiry time |
| Session.SessionManager.CreateSession | poe_client/session.py:31-45 | the store becomes the specification's creation, returning the fresh id |
| Session.SessionManager.DeleteSession | poe_client/session.py:128-144 | the store and the answer of the specification's deletion |
| Session.SessionManager.GetSession | poe_client/session.py:47-70 | the store and the answer of the specification's lookup |
| Session.SessionManager.GetOrCreateSession | poe_client/session.py:72-94 | the store and the id of the specification's get-or-create |
| Session.SessionManager.UpdateSession | poe_client/session.py:96-126 | the store and the answer of the specification's update |
| Session.SessionManager.GetMessages | poe_client/session.py:146-161 | the store and the messages of the specification |
| Session.SessionManager.CleanupExpiredSessions | poe_client/session.py:163-182 | the two-pass loop leaves exactly the survivors and returns the number of expired sessions |
| SessionV2.GetOrCreateCases | poe_client_v2.py:400-425 | a known id is returned touched whatever its age; any other id, "" included, gets a new empty session; only that session changes |
| SessionV2.MessagesOf | poe_client_v2.py:427-442 | the messages of a known id, touched, else none and no change |
| SessionV2.UpdateCases | poe_client_v2.py:444-477 | an update succeeds exactly when the id is present, with no expiry check; it appends the user then the assistant message and touches the session; an unknown id changes nothing |
| SessionV2.SweepPartition | poe_client_v2.py:495-514 | the sweep keeps exactly the sessions used within the expiry time, unchanged; the count plus the survivors is the old size |
| SessionV2.SweepIdempotent | poe_client_v2.py:495-514 | sweeping again at the same time removes nothing more |
| SessionV2.SessionManager.constructor | poe_client_v2.py:389-398 | no sessions; the expiry time in seconds |
| SessionV2.SessionManager.GetOrCreateSession | poe_client_v2.py:400-425 | the store and the id of the specification |
| SessionV2.SessionManager.GetMessages | poe_client_v2.py:427-442 | the store and the messages of the specification |
| SessionV2.SessionManager.UpdateSession | poe_client_v2.py:444-477 | the store and the answer of the specification |
| SessionV2.SessionManager.DeleteSession | poe_client_v2.py:479-493 | the store and the answer of `Session.Deleted`: true exactly when the id was present, and then only it is removed |
| SessionV2.SessionManager.CleanupExpiredSessions | poe_client_v2.py:495-514 | the loop leaves exactly the fresh sessions and returns the number removed |
| ProxyServer.GetOrCreateCases | poe_server.py:97-104 | a known id is returned and nothing changes; otherwise a fresh id with an empty history, even when an unknown id was supplied |
| ProxyServer.UpdatedStore | poe_server.py:107-113 | a missing session is created first, then the user and assistant messages are appended |
| ProxyServer.Cleared | poe_server.py:267-288 | success and removal for a present id; an error and no change otherwise |
| ProxyServer.AskRecordsExchange | poe_server.py:117-176 | the bot sees the whole history and the prompt; on success the answer is the partial texts joined and the history grows by exactly that exchange; on failure the history is untouched but a created session stays, and the error names the supplied id |
| ProxyServer.Server.constructor | poe_server.py:87-88 | no sessions |
| ProxyServer.Server.GetOrCreateSession | poe_server.py:97-104 | the store and the id of the specification |
| ProxyServer.Server.UpdateSession | poe_server.py:107-113 | the store of the specification |
| ProxyServer.Server.ClearSession | poe_server.py:267-288 | the store and the status of the specification |
| ProxyServer.Server.AskPoe | poe_server.py:117-176 | the messages sent, the store and the result of the specification |
| OpenAIClient.ErrorMapping | poe_client/openai_client.py:397-424 | the error document carries the message; authentication, API and value errors get their own type and code, in both directions, and every other class ("internal_error", 500) |
| OpenAIClient.NewClient | poe_client/openai_client.py:71-113 | an empty key is refused with an authentication error, and only an empty key; otherwise key and base URL as given |
| OpenAIClient.ToolRegistry.constructor | poe_client/openai_client.py:29 | no tools registered |
| OpenAIClient.ToolRegistry.RegisterTool | poe_client/openai_client.py:115-126 | the tool map becomes the specification's registration |
| OpenAIClient.RegisterOnlyName | poe_client/openai_client.py:115-126 | registering stores or replaces only `name`; description and parameters leave no trace |
| OpenAIClient.ToolDefinitionRoundTrip | poe_client/openai_client.py:128-147 | the tool definition holds name, description and parameters unchanged |
| OpenAIClient.ExecuteToolCall | poe_client/openai_client.py:149-183 | the result carries its call's id |
| OpenAIClient.ToolOutputCases | poe_client/openai_client.py:149-183 | a string result verbatim, any other as JSON, else `{"error": message}`: the decoding error first, then the unknown tool, then the tool's own exception |
| OpenAIClient.ProcessToolCalls | poe_client/openai_client.py:185-202 | one result per call, in the calls' order |
| OpenAIClient.ParamsLookup | poe_client/openai_client.py:243-267 | model, messages and stream always; tools only when non-empty; stream options and user only when truthy; other options whenever not None; no other key, none twice |
| OpenAIClient.ToolMessages | poe_client/openai_client.py:298-304 | one "tool" message per result, in order |
| OpenAIClient.AtMostOneToolRound | poe_client/openai_client.py:270-318 | one API call, or exactly two when the first reply asks for tools with automatic execution on and no streaming; otherwise the messages are untouched |
| OpenAIClient.ToolRoundMessages | poe_client/openai_client.py:283-304 | in a tool round the caller's list grows by one tool message per call, in call order, each carrying its call's id |
| OpenAIClient.FollowUpDropsOptions | poe_client/openai_client.py:306-318 | the follow-up call has no tool choice, parallel flag or stream options, keeps tools and limits, and starts no further round |
| OpenAIClient.CompletionErrors | poe_client/openai_client.py:323-333 | first-call SDK errors are translated by class; a follow-up error always surfaces as PoeProxyError, mapped to ("internal_error", 500) |
| OpenAIClient.MessageList.constructor | poe_client/openai_client.py:207 | the caller's message list |
| OpenAIClient.AppendToolMessages | poe_client/openai_client.py:298-304 | the loop appends exactly the tool messages, in order |
| OpenAIClient.ChatCompletion | poe_client/openai_client.py:204-333 | the result, the API calls made and the caller's message list are those of the specification |
| ServerPhase2.ContextualPromptLayout | poe_server_phase2.py:427-448 | the prompt first and unchanged; terminal output, selection and files follow on their own lines, in that order, each only when not empty |
| ServerPhase2.ContextualPromptAddsContext | poe_server_phase2.py:427-448 | the prompt is sent unchanged exactly when there is no context; the terminal output added is its first 1000 characters |
| ServerPhase2.PartListSum | poe_server_phase2.py:451-465 | the parts add up to the days, hours and minutes; none holds a space; there are none exactly when all three are 0 |
| ServerPhase2.UptimeRoundTrip | poe_server_phase2.py:451-465 | the uptime text reads back as the uptime rounded down to whole minutes, and is "< 1m" exactly below a minute |
| ServerPhase2.CountCommands | poe_server_phase2.py:185-187 | at most one command per action |
| ServerPhase2.CountFiles | poe_server_phase2.py:188-190 | at most one file per action |
| ServerPhase2.RecordedCounts | poe_server_phase2.py:84-224 | each query adds one request and keeps the counters consistent; only a complete answer is a success, a streamed one is neither success nor failure |
| ServerPhase2.SuccessRate | poe_server_phase2.py:347-350 | the rate is below p per cent exactly when, with at least one request, 100 times the successes fall short of p times the requests; with no requests it is 100, below p exactly when 100 < p |
| ServerPhase2.HealthRules | poe_server_phase2.py:347-393 | degraded exactly when under half of at least one request succeeded; "High rate limiting" exactly above 100 rate-limited requests, after the low rate; no issue list when neither holds |
| ServerPhase2.DispatchCommand | poe_server_phase2.py:299-326 | a "command" action needs a command; it bumps only the command counter and shows the host's result (lines 299-304, 317-326) |
| ServerPhase2.DispatchFile | poe_server_phase2.py:306-326 | a "file" action needs a path and content; it bumps only the file counter and shows the host's result (lines 306-311, 317-326) |
| ServerPhase2.DispatchOther | poe_server_phase2.py:297-326 | a failed context extraction propagates; any other type changes no counter and fails with an error block naming it (lines 297, 313-326) |
| ServerPhase2.UnknownResponse | poe_server_phase2.py:314-324 | the response to an unknown type is one error block naming it |
| ServerPhase2.TextIsNotError | poe_server_phase2.py:316-324 | the first block is the "done" text block exactly when the action succeeded |
| ServerPhase2.Metrics.constructor | poe_server_phase2.py:58-68 | start time now, every counter zero |
| ServerPhase2.Metrics.RecordQuery | poe_server_phase2.py:84-224 | the counters become those the specification records |
| ServerPhase2.Metrics.ExecuteWarpAction | poe_server_phase2.py:281-328 | the response and counters of the specification's dispatch; on failure the counters are unchanged |
| ServerPhase2.Metrics.ResetMetrics | poe_server_phase2.py:409-424 | a new start time, every counter zero, the limiter's metrics cleared, and the fixed status message |
| AgentTools.CommandGuard | warp_agent_tools.py:54-109 | a command holding a listed pattern is refused and never run; a command that runs succeeds exactly when it exits with status 0, and only a failure carries an error |
| AgentTools.SubstringRefused | warp_agent_tools.py:58-59 | a listed pattern anywhere in the lowered command, even inside a longer word, refuses it |
| AgentTools.UpperCaseRefused | warp_agent_tools.py:59 | upper case does not escape the filter |
| AgentTools.OverwriteGuard | warp_agent_tools.py:127-159 | an existing file is never replaced without overwrite; the write succeeds exactly when the guard passes and no error occurs, and then the path holds the content; a failure making the directories or opening changes nothing, while one after `open(path, 'w')` leaves the path empty or holding a prefix of the content; no other file changes |
| AgentTools.EntryHeads | warp_agent_tools.py:292-294 | every result has an entry, in order, headed by its number from 1, its mark and its action |
| AgentTools.Separators | warp_agent_tools.py:302-303 | entries are separated by exactly one blank line, and the text does not end with one |
| AgentTools.FormatCases | warp_agent_tools.py:283-290 | no results gives the fixed notice; otherwise the text opens with the counts of results and successes, then a rule of 50 '=' |
| AgentTools.AppendEntry | warp_agent_tools.py:293-303 | one turn of the loop appends that entry's lines |
| AgentTools.FormatResults | warp_agent_tools.py:273-305 | the loop produces the specification's text |
| FileUtils.TooLargeExactly | file_utils.py:67-69 | a file is too large exactly when its bytes exceed the limit in MB times 1024·1024; a file of exactly that size passes |
| FileUtils.CentiMbIsNearest | file_utils.py:71 | the size shown with two decimals is within half a hundredth of a MB of the exact size |
| FileUtils.ValidateFileOrder | file_utils.py:38-85 | checks run in the order existence, kind, size, extension, and the first failing one gives the error; the lowered extension is checked only when a list is given; a file passes exactly when no check fails |
| FileUtils.AllowedIsTextThenBinary | file_utils.py:17-30 | the allowed list is the text list followed by the binary list |
| FileUtils.TextByExtensionFirst | file_utils.py:87-116 | a listed extension makes a file text with no probe; only a decoding failure makes it binary; any other probe error escapes |
| FileUtils.ReadRefusesBinary | file_utils.py:118-145 | a valid file that is not text is refused as such; the content comes back exactly for a valid text file that reads |
| ClientFileUtils.ValidateFileOrder | poe_client/file_utils.py:15-53 | missing, then not regular, then too large (exactly the limit passes); a valid file comes back with its path and the MIME guess, or "application/octet-stream" without one |
| ClientFileUtils.TextBeforeProbe | poe_client/file_utils.py:55-90 | a "text/" guess or a listed extension makes a file text with no probe; it is binary exactly when neither holds and its first chunk does not decode |
| ClientFileUtils.ReadResultShape | poe_client/file_utils.py:92-124 | every failure is one error starting "Error reading file: " with the original message; text comes back with its content, a binary file with only its base name and is never read |
| ClientFileUtils.MimeFor | poe_client/file_utils.py:152-207 | a found MIME type is the one of an entry with that extension; none is found exactly when no entry has it |
| ClientFileUtils.MimeForAt | poe_client/file_utils.py:152-207 | the entry at a position is found when no earlier entry has its extension |
| ClientFileUtils.PythonMime | poe_client/file_utils.py:198 | ".py" maps to "text/x-python" |
| ClientFileUtils.JsonMime | poe_client/file_utils.py:168 | ".json" maps to "application/json" |
| OsPath.BaseName | poe_client/file_utils.py:120 | `os.path.basename`: a suffix of the path holding no '/' |
| OsPath.SplitExtJoins | file_utils.py:76 | `os.path.splitext`'s two halves put back together give the path |
| OsPath.ExtOfBaseName | file_utils.py:76 | the extension is "" or a dot-led tail of the base name with no further dot, after some non-dot character |
| OsPath.SplitExtExamples | poe_client/file_utils.py:79 | "notes.TXT" gives ".TXT", "dir.d/archive.tar.gz" ".gz", ".bashrc" and "dir.d/README" nothing |
| PoeApi.NewClient | poe_client/poe_api.py:34-58 | an empty key is refused with the authentication error, and only an empty key; otherwise key and compatibility flag as given |
| PoeApi.Names | poe_client/poe_api.py:327-394 | the table's model names, in order |
| PoeApi.Lookup | poe_client/poe_api.py:394-396 | a name is found exactly when the table holds it, with one of its entries |
| PoeApi.GetModelInfo | poe_client/poe_api.py:314-396 | the table's entry, or `ValueError("Unknown model: ...")` exactly for a name it does not hold |
| PoeApi.NamesAgree | poe_client/poe_api.py:288-394 | the model list and the info table name the same models in the same order (lines 288-311, 327-394) |
| PoeApi.AvailableModelsHaveInfo | poe_client/poe_api.py:288-396 | a model has info exactly when it is in the available list |
| PoeApi.LookupAt | poe_client/poe_api.py:394-396 | an entry is found when no earlier entry has its name |
| PoeApi.Claude2Info | poe_client/poe_api.py:358-362 | "Claude-2-100k" is described with 100000 tokens of context and no image support |
| PoeApi.MessageList.constructor | poe_client/poe_api.py:64 | the caller's message list |
| PoeApi.Collect | poe_client/poe_api.py:105-123 | the chunks handed on are the processed chunks, and the response so far is their concatenation |
| PoeApi.QueryModel | poe_client/poe_api.py:60-160 | the prompt is appended to the caller's list before the bot is called and stays whatever happens; the result is the specification's; a handler receives every processed chunk |
| PoeApi.PartialResponseRules | poe_client/poe_api.py:125-160 | in compatibility mode a failing stream returns the text so far with the handled error, or fails when there is none; outside it the failure keeps its message; every failure is one `PoeApiError` with the fixed prefix |
| PoeApi.PlainReplyIsConcatenation | poe_client/poe_api.py:105-156 | outside compatibility mode a complete reply is the chunks joined in arrival order |
| PoeApi.QueryModelWithFile | poe_client/poe_api.py:162-286 | the caller's list gains the combined prompt only once the file has been found and read; the result is the specification's |
| PoeApi.FileErrorsPropagate | poe_client/poe_api.py:189-285 | a missing file is the one `FileHandlingError`, unwrapped; every other failure is a `PoeApiError` with the file prefix; an undecodable file is sent as a note with its base name |
| InstallEnhanced.FindWarpConfig | install_enhanced_poe.py:16-29 | the first candidate that exists, and only if no earlier one does; else the first candidate |
| InstallEnhanced.LoadConfig | install_enhanced_poe.py:32-41 | the parsed file; `{"mcpServers": {}}` when it is missing or not valid JSON; it fails exactly on another read error |
| InstallEnhanced.EnvVarsRules | install_enhanced_poe.py:83-92 | the key is set exactly when one is given; the two flags are "true" exactly when enabled |
| InstallEnhanced.EnvVarsKeys | install_enhanced_poe.py:83-92 | there are no other variables and no name twice |
| InstallEnhanced.StrItems | install_enhanced_poe.py:99-109 | the auto-approved tool names as JSON strings, in order |
| InstallEnhanced.KeyNeverPrinted | install_enhanced_poe.py:116-128 | installs that differ only in the key print the same report |
| InstallEnhanced.KeyLineMasked | install_enhanced_poe.py:122-126 | the key's line in the report is masked as `***` |
| InstallEnhanced.SetupEnhancedPoeServer | install_enhanced_poe.py:58-133 | a read error or a non-mergeable configuration raises before anything is saved; otherwise the saved configuration is the loaded one with only this server's entry written; the printed lines are the invalid-JSON warning when the file exists but does not parse, then the report after a save, or the save's error text and the failure line |
| InstallEnhanced.FreshConfigHoldsOnlyServer | install_enhanced_poe.py:41-113 | with no usable file the saved configuration holds this server alone (lines 41, 72-73, 113) |
| InstallEnhanced.ResolveApiKey | install_enhanced_poe.py:226-236 | the key from `--api-key`, else the environment, else what is typed, stripped; none exactly when all are empty |
| InstallEnhanced.MainAlwaysClaudeCompatible | install_enhanced_poe.py:198-247 | whenever `main` installs, Claude compatibility is on (the flag defaults to true and cannot be turned off) and the key is set; the path is `--config` or the one found |
| McpConfig.PutFacts | install_enhanced_poe.py:113 | `d[k] = v` sets k, keeps every other key, and appends k only when new |
| McpConfig.MergedWritesOnlyServer | install_enhanced_poe.py:72-113 | a merge writes `mcpServers[name]` and nothing else, keeping key order (lines 72-73, 113) |
| McpConfig.EnsureServers | install_enhanced_poe.py:72-73 | a dict gains an empty server dict when it has none; a string or list naming "mcpServers" passes unchanged; any other value raises |
| McpConfig.SetServer | install_enhanced_poe.py:113 | the write goes through exactly when the configuration is a dict whose "mcpServers" is a dict, and sets only that server |
| McpConfig.EnsuredServers | install_enhanced_poe.py:72-73 | ensuring keeps what the configuration held under "mcpServers" |
| McpConfig.AddServer | install_enhanced_poe.py:72-113 | the merge goes through exactly for a mergeable configuration and gives the merged one (lines 72-73, 113) |
| ConfigureMcp.FindMcpConfig | examples/configure_mcp_settings_v2.py:22-27 | some path exactly when a default path exists, and then the first one that does |
| ConfigureMcp.SplitAtEquals | examples/configure_mcp_settings_v2.py:88 | the part before the first "=" holds no "=", and the two parts joined by "=" give the string back |
| ConfigureMcp.SplitAtKey | examples/configure_mcp_settings_v2.py:88 | `KEY=VALUE` with no "=" in the key splits back into that key and value |
| ConfigureMcp.SplitAtFirst | examples/configure_mcp_settings_v2.py:88 | a string whose first "=" is at i splits at i |
| ConfigureMcp.LastSettingWins | examples/configure_mcp_settings_v2.py:84-89 | each key of the environment holds the value of the last string setting it; strings without "=" are skipped |
| ConfigureMcp.EnvDict | examples/configure_mcp_settings_v2.py:84-89 | the loop builds the environment that `LastSettingWins` describes |
| ConfigureMcp.StartingConfig | examples/configure_mcp_settings_v2.py:61-69 | a missing, unloadable or `null` file gives `{"mcpServers": {}}` and a printed line; a loaded configuration is used as it is, silently |
| ConfigureMcp.AddOrUpdate | examples/configure_mcp_settings_v2.py:71-112 | the write goes through exactly for a mergeable configuration, writes only this server's entry, and reports whether it was there before; when it raises only at the write (a string or list "mcpServers"), the answer to "already there?" is still given, as `LateFailure` says (lines 71-73, 107-112) |
| ConfigureMcp.ConfigurePoeMcp | examples/configure_mcp_settings_v2.py:54-124 | it raises exactly when the starting configuration cannot be merged, and then writes nothing; otherwise the written configuration keeps every other server and the entry's command and script default as in the source; the answer is the save's; the printed lines are `ConfigureLines`: loading lines, the added-or-updated line (also when the merge raises at the write), then the report or the save's error text and failure line |
| ConfigureMcp.AnySetsAppend | examples/configure_mcp_settings_v2.py:157-161 | strings not starting with the prefix do not change whether some string sets it (lines 157, 161) |
| ConfigureMcp.AnySetsWith | examples/configure_mcp_settings_v2.py:157-161 | a string starting with the prefix makes the answer yes (lines 157, 161) |
| ConfigureMcp.KeySetsNoDefault | examples/configure_mcp_settings_v2.py:152-161 | appending the key does not count as setting either compatibility flag |
| ConfigureMcp.ClaudeDefault | examples/configure_mcp_settings_v2.py:151-158 | the user's strings come first unchanged, then the key when given; "CLAUDE_COMPATIBLE=true" is added exactly when no user string sets it, so the list always sets it |
| ConfigureMcp.SdkDefault | examples/configure_mcp_settings_v2.py:160-162 | "SDK_COMPATIBLE=true" is added exactly when the flag is on and no string sets it; without the flag nothing is added |
| ConfigureMcp.LastValueSkip | examples/configure_mcp_settings_v2.py:84-89 | a later string setting another key leaves this key's value |
| ConfigureMcp.LastValueSkipSetting | examples/configure_mcp_settings_v2.py:84-89 | a later string setting a name of another length leaves this key's value |
| ConfigureMcp.ClaudeLineKeepsKey | examples/configure_mcp_settings_v2.py:158 | the Claude default does not set POE_API_KEY |
| ConfigureMcp.SdkLineKeepsKey | examples/configure_mcp_settings_v2.py:162 | the SDK default does not set POE_API_KEY |
| ConfigureMcp.DefaultsKeepKey | examples/configure_mcp_settings_v2.py:156-162 | the defaults appended after the key never change its value |
| ConfigureMcp.ApiKeyWins | examples/configure_mcp_settings_v2.py:151-162 | a non-empty `--api-key` is the key in the entry's environment even when an `--env` string also sets POE_API_KEY |
| ConfigureMcp.ChooseConfigPath | examples/configure_mcp_settings_v2.py:142-149 | `ChosenPath`: `--config` when given; else a default that exists with none existing before it; else the first default, all three missing, and a line saying so |
| ConfigureMcp.ConfigureMain | examples/configure_mcp_settings_v2.py:151-181 | on a given path, `configure_poe_mcp` with the defaulted environment and script writes exactly when the configuration is mergeable, with only this server's entry, and prints `ConfigureLines` |
| ConfigureMcp.ConfigureFromArgs | examples/configure_mcp_settings_v2.py:127-194 | the path satisfies `ChosenPath`; then `MainOutcome`: it raises exactly when the starting configuration cannot be merged, writes only this server's entry, built from the defaulted environment and script, and prints the fallback notice, the lines of `configure_poe_mcp` and, when it did not raise, the usage text of lines 183-194 |
| WarpContext.NormalBlockIdempotent | warp_context_handler.py:85-89 | copying an already copied block gives the same block |
| WarpContext.RequestBlocksCopied | warp_context_handler.py:83-89 | the blocks extraction copied are copied again unchanged |
| WarpContext.ReextractContext | warp_context_handler.py:62-116 | a context with the seven keys in order and copied blocks passes through extraction unchanged |
| Json.DumpsIsPrintableAscii | poe_client/streaming.py:53-54 | `json.dumps` output is printable ASCII, so it never holds a line break |

## Left out

- Concurrency: the asyncio locks, the background `_process_queue` task, `start`/`stop`, future resolution and the SSE ping task are not modelled. Every operation runs sequentially, with the current time as a parameter.
- Queued mode of `execute` (poe_client/rate_limiter.py:213-228, 279-320): only the enqueue half is modelled (`RateLimiter.Limiter.Enqueue`). The processor re-enters `execute` while its own task is live, so the request is queued again and the processor awaits itself; that is not a working pipeline to model.
- `with_rate_limit` and the module-level limiter (poe_client/rate_limiter.py:346-367) are not modelled separately: the helper only forwards to `execute`.
- Clocks: `time.time`, `loop.time` and `asyncio.sleep` are not modelled. Time is an integer number of milliseconds passed in, and a sleep adds to the wait counters.
- Randomness: `random.uniform` is a sequence of jitter draws passed in, each scaled to at most half the backoff. `uuid4` session ids are parameters too.
- Floats: latency averages, `total_wait_time` in seconds, the MB figure of `get_file_info` and percentage string formatting are not modelled. Success rates are exact fractions: a `real` in the limiter (`RateLimiter.SuccessRate`) and a `Ratio` in the production server (`ServerPhase2.SuccessRate`). JSON numbers are integers only (`Json.Value` has no float case), so a loaded configuration holding a number with a fraction or an exponent, which `json.load` reads as a float, cannot be represented in `InstallEnhanced.LoadConfig` or `ConfigureMcp.StartingConfig`.
- RateLimiter.SlotWaitCycles: the `while True` wait of `_wait_for_slot` is bounded by the jitter draws given. When they run out the outcome is `StillWaiting`, which the source never returns; it only says the wait was not over yet.
- RateLimiter.ExecLoopCounts: a wait that runs out of draws ends the run as stalled, for the same reason.
- Network and SDK calls: httpx, the OpenAI SDK, `fastapi_poe.get_bot_response`, `_response_to_dict`, `_handle_stream` and the model-cache fetches of poe_client_v2.py are not modelled. Their replies are parameters: a reply or an error per call.
- MCP wiring: tool registration and transports in poe_server_v2.py, poe_server_openai.py and run_sse_server*.py are not modelled. enhanced_poe_server.py is not part of this model either; it refers to names it never defines.
- OS and file-system effects are parameters: subprocess (git state, shell commands, the editor), file writes and `mkdir`, `tempfile`, base64 data URLs, `json.load`/`json.dump`, `mimetypes.guess_type`, `os.path.exists`/`isfile`/`getsize`, `os.path.abspath(__file__)` and `sys.executable`. A save is the `saved` flag, and a load is a value or an error.
- `open_file_in_editor` of warp_agent_tools.py (line 162) is not modelled: it only starts the editor, a side effect. Running a command and writing a file are modelled with their outcomes passed in.
- The regex action extraction of `parse_and_execute_actions` in warp_agent_tools.py is not modelled: it depends on regex semantics (DOTALL, IGNORECASE).
- `exec` in `register_custom_tool` and `eval` in `example_calculate` are not modelled: they run arbitrary code.
- Tests, example scripts, run_tests.py, setup.py and the re-export shims `utils/__init__.py` and `poe_client/__init__.py` are not part of this model.
- claude_compat, claude_compat_v2 and utils.logging_utils are not part of this model. Calls into them are opaque and are left out or passed in; logging is dropped.
- `current_tool_index` of the delta processor is not modelled: it is only ever assigned None and never read.
- `handle_request` of warp_context_handler.py (511-553) is not modelled: it is placeholder logic around logging.
- `get_file_info` of file_utils.py is not modelled: it only reports sizes as floats.
- `check_dependencies` and `test_server_startup` of install_enhanced_poe.py are not modelled: they are imports and a subprocess run. None of the lines `main` prints are modelled either: the header and its rule of 40 '=', "Using config file: …", the missing-key message and the closing lines. `InstallEnhanced.MainSettings` returns only the settings, or None.
- DeltaStream.StreamToWarpBlocks: the tool-call dicts yielded in `tool_call` blocks are the processor's own buffer entries (poe_client/streaming.py:287-308, 361-367), so a later delta also changes blocks already yielded. The model yields values, which keep the state they had when yielded; the same holds for DeltaStream.ToolBlocks.
- RateLimiter.RetryAfterSeconds: a header `float()` reads as infinity or NaN ("inf", "nan") is not modelled; the header is either a finite delay in milliseconds or text that makes `float()` raise.
- ServerPhase2.FilesSection: a `None` path among the references makes `', '.join` raise a TypeError (poe_server_phase2.py:446); paths here are always strings.
- PoeApi.QueryModel: a stream handler that raises (poe_client/poe_api.py:118-123) is not modelled; the handler only receives each chunk. The same holds for PoeApi.QueryModelWithFile.
- PoeApi.QueryModelWithFile: `format_thinking_protocol` raising (poe_client/poe_api.py:96-99) is not modelled, here or in PoeApi.QueryModel. Its result is only logged, so the model leaves out the `thinking` argument; claude_compat is not part of this model.
- ServerPhase2.Recorded: `tokens` is a number, so a truthy `usage` that is not a dict, or a `total_tokens` that is not a number, is not represented. In the source that raises at poe_server_phase2.py:197-198 after line 195 has counted a success, and the `except` at lines 208-209 then counts a failure as well, so one request counts twice and the counters stop being consistent.
- AgentTools.CreateFileFromResponse: files are a map from path to content, so a path that exists but is not a file (a directory, or "", which `Path` reads as ".") cannot be expressed. With overwrite off the source refuses such a path as already existing (warp_agent_tools.py:131); the model goes on to the write.
- Text.Lower: it maps ASCII letters, KELVIN SIGN and U+0130 as Python does, and leaves every other character alone. It is exact for matching ASCII patterns (the command filter, the text extensions of `ClientFileUtils`), but `FileUtils.ValidateFile` also lowers the file's extension, compares it with the caller's list and prints it in its error message: there ".É" stays ".É" where Python gives ".é". Full Unicode case mapping is not modelled.
