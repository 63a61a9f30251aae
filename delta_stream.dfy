// The second half of poe_client/streaming.py: DeltaStreamProcessor, which
// merges the fragments of OpenAI-style streaming deltas (text content and
// tool calls spread over many chunks, keyed by their `index`), and
// WarpStreamAdapter, which turns a chunk stream into Warp blocks.
//
// Deltas arrive as decoded JSON, so every Python operation on them is taken
// with its failure: a `TypeError` or `KeyError` escapes `process_delta` with
// whatever the processor had already changed left in place.
module DeltaStream {
  import opened Wrappers
  import Text
  import Json

  // ---- the tool-call buffer ----

  /** A dict key as Python compares it: `True` and `1` are the same key. */
  datatype Key = NoneKey | IntKey(i: int) | StrKey(s: string)

  /** The key a value makes; lists and dicts cannot be hashed. */
  function KeyOf(v: Json.Value): (r: Result<Key, string>)
    ensures r.Failure? <==> v.Arr? || v.Obj?
  {
    match v
    case Null => Success(NoneKey)
    case Bool(b) => Success(IntKey(if b then 1 else 0))
    case Int(i) => Success(IntKey(i))
    case Str(s) => Success(StrKey(s))
    case _ => Failure("unhashable type: '" + Json.TypeName(v) + "'")
  }

  /** One buffered tool call; `id` and `name` hold whatever value was sent last. */
  datatype ToolCallEntry = ToolCallEntry(id: Json.Value, name: Json.Value, arguments: string)

  /** The entry made on first sight of an index. */
  const FreshEntry := ToolCallEntry(Json.Str(""), Json.Str(""), "")

  /** The dict that stands for an entry. */
  function EntryJson(e: ToolCallEntry): Json.Value
  {
    Json.Obj([("id", e.id), ("type", Json.Str("function")),
              ("function", Json.Obj([("name", e.name), ("arguments", Json.Str(e.arguments))]))])
  }

  /** `tool_call_buffer`: entries in the order their indices were first seen. */
  type ToolBuffer = seq<(Key, ToolCallEntry)>

  function BufferKeys(b: ToolBuffer): (ks: seq<Key>)
    ensures |ks| == |b| && forall i :: 0 <= i < |b| ==> ks[i] == b[i].0
  {
    seq(|b|, i requires 0 <= i < |b| => b[i].0)
  }

  /** Each index appears once. */
  predicate Wf(b: ToolBuffer)
  {
    forall i, j :: 0 <= i < j < |b| ==> b[i].0 != b[j].0
  }

  /** Position of `k` in `b`, or `|b|` when absent. */
  function Find(b: ToolBuffer, k: Key): (i: nat)
    ensures i <= |b| && (i < |b| ==> b[i].0 == k)
    ensures i == |b| <==> k !in BufferKeys(b)
  {
    if |b| == 0 then 0 else if b[0].0 == k then 0 else 1 + Find(b[1..], k)
  }

  /** `buffer[k] = e` for a key already present: the entry keeps its place. */
  function SetEntry(b: ToolBuffer, i: nat, e: ToolCallEntry): (r: ToolBuffer)
    requires i < |b|
    ensures |r| == |b| && r[i] == (b[i].0, e)
    ensures forall j :: 0 <= j < |b| && j != i ==> r[j] == b[j]
    ensures BufferKeys(r) == BufferKeys(b)
  {
    b[i := (b[i].0, e)]
  }

  /** `list(buffer.values())` */
  function Values(b: ToolBuffer): (r: seq<Json.Value>)
    ensures |r| == |b| && forall i :: 0 <= i < |b| ==> r[i] == EntryJson(b[i].1)
  {
    seq(|b|, i requires 0 <= i < |b| => EntryJson(b[i].1))
  }

  /** An entry part-way through an update, and the exception that stopped it, if any. */
  datatype Updated = Updated(entry: ToolCallEntry, raised: Option<string>)

  /**
   * The `function` part of a tool call: `name` overwrites, `arguments` is
   * appended with `+=`, which needs a string.
   */
  function ApplyFunction(e: ToolCallEntry, func: Json.Value): Updated
  {
    match Json.In("name", func)
    case Failure(err) => Updated(e, Some(err))
    case Success(hasName) =>
      var named := if !hasName then Success(e)
        else match Json.Index(func, "name")
             case Failure(err) => Failure(err)
             case Success(n) => Success(e.(name := n));
      match named
      case Failure(err) => Updated(e, Some(err))
      case Success(e1) =>
        match Json.In("arguments", func)
        case Failure(err) => Updated(e1, Some(err))
        case Success(hasArguments) =>
          if !hasArguments then Updated(e1, None)
          else
            match Json.Index(func, "arguments")
            case Failure(err) => Updated(e1, Some(err))
            case Success(a) =>
              match Json.AddStr(e1.arguments, a)
              case Failure(err) => Updated(e1, Some(err))
              case Success(joined) => Updated(e1.(arguments := joined), None)
  }

  /** Everything one tool-call dict contributes to its entry. */
  function ApplyCall(e: ToolCallEntry, fields: Json.Fields): Updated
  {
    var e1 := match Json.Get(fields, "id") case Some(id) => e.(id := id) case None => e;
    match Json.Get(fields, "function")
    case None => Updated(e1, None)
    case Some(func) => ApplyFunction(e1, func)
  }

  /** The buffer after one tool-call fragment, and the exception it raised, if any. */
  datatype Merged = Merged(buffer: ToolBuffer, raised: Option<string>)

  /**
   * One iteration of the tool-call loop of `process_delta`: the index
   * defaults to 0, an unseen index gets a fresh entry at the end, and the
   * fragment's fields are applied to that entry.
   */
  function MergeToolCall(b: ToolBuffer, toolCall: Json.Value): Merged
  {
    match Json.GetOr(toolCall, "index", Json.Int(0))
    case Failure(err) => Merged(b, Some(err))
    case Success(index) =>
      match KeyOf(index)
      case Failure(err) => Merged(b, Some(err))
      case Success(k) =>
        var b1 := Slot(b, k);
        var i := Find(b1, k);
        var u := ApplyCall(b1[i].1, toolCall.fields);
        Merged(SetEntry(b1, i, u.entry), u.raised)
  }

  /** The buffer with an entry for `k`: a fresh one at the end when `k` is new. */
  function Slot(b: ToolBuffer, k: Key): (r: ToolBuffer)
    ensures k in BufferKeys(r) && Find(r, k) < |r|
    ensures BufferKeys(r) == if k in BufferKeys(b) then BufferKeys(b) else BufferKeys(b) + [k]
    ensures k in BufferKeys(b) ==> r == b
    ensures k !in BufferKeys(b) ==> r == b + [(k, FreshEntry)] && Find(r, k) == |b|
  {
    if k in BufferKeys(b) then b
    else
      var r := b + [(k, FreshEntry)];
      assert BufferKeys(r) == BufferKeys(b) + [k];
      r
  }

  /** The loop over a delta's tool calls, left at the first exception. */
  function MergeAll(b: ToolBuffer, toolCalls: seq<Json.Value>): Merged
    decreases |toolCalls|
  {
    if |toolCalls| == 0 then Merged(b, None)
    else
      var m := MergeToolCall(b, toolCalls[0]);
      if m.raised.Some? then m else MergeAll(m.buffer, toolCalls[1..])
  }

  // ---- facts about merging ----

  /** A fragment whose index resolves leaves that index in the buffer, after all earlier ones. */
  lemma MergeKeys(b: ToolBuffer, toolCall: Json.Value, k: Key)
    requires toolCall.Obj? && KeyOf(Json.GetOr(toolCall, "index", Json.Int(0)).value) == Success(k)
    ensures var m := MergeToolCall(b, toolCall);
      BufferKeys(m.buffer) == if k in BufferKeys(b) then BufferKeys(b) else BufferKeys(b) + [k]
  {
  }

  lemma MergeKeepsWf(b: ToolBuffer, toolCall: Json.Value)
    requires Wf(b)
    ensures Wf(MergeToolCall(b, toolCall).buffer)
  {
    match Json.GetOr(toolCall, "index", Json.Int(0))
    case Failure(_) =>
    case Success(index) =>
      match KeyOf(index)
      case Failure(_) =>
      case Success(k) =>
        var b1 := Slot(b, k);
        assert Wf(b1) by {
          if k !in BufferKeys(b) {
            forall i | 0 <= i < |b| ensures b[i].0 != k {
              assert BufferKeys(b)[i] == b[i].0;
            }
          }
        }
  }

  lemma {:induction false} MergeAllKeepsWf(b: ToolBuffer, toolCalls: seq<Json.Value>)
    requires Wf(b)
    ensures Wf(MergeAll(b, toolCalls).buffer)
    decreases |toolCalls|
  {
    if |toolCalls| > 0 {
      MergeKeepsWf(b, toolCalls[0]);
      var m := MergeToolCall(b, toolCalls[0]);
      if m.raised.None? {
        MergeAllKeepsWf(m.buffer, toolCalls[1..]);
      }
    }
  }

  /** No index ever leaves the buffer. */
  lemma MergeKeepsKeys(b: ToolBuffer, toolCall: Json.Value)
    ensures forall k :: k in BufferKeys(b) ==> k in BufferKeys(MergeToolCall(b, toolCall).buffer)
  {
    match Json.GetOr(toolCall, "index", Json.Int(0))
    case Failure(_) =>
    case Success(index) =>
      match KeyOf(index)
      case Failure(_) =>
      case Success(k) =>
        MergeKeys(b, toolCall, k);
  }

  lemma {:induction false} MergeAllKeepsKeys(b: ToolBuffer, toolCalls: seq<Json.Value>)
    ensures forall k :: k in BufferKeys(b) ==> k in BufferKeys(MergeAll(b, toolCalls).buffer)
    decreases |toolCalls|
  {
    if |toolCalls| > 0 {
      MergeKeepsKeys(b, toolCalls[0]);
      var m := MergeToolCall(b, toolCalls[0]);
      if m.raised.None? {
        MergeAllKeepsKeys(m.buffer, toolCalls[1..]);
      }
    }
  }

  /** `func[key]` when `func` is a dict holding `key`, and `default` otherwise. */
  function FieldOr(func: Json.Value, key: string, default: Json.Value): Json.Value
  {
    if func.Obj? then Json.Get(func.fields, key).UnwrapOr(default) else default
  }

  /**
   * What a fragment does to its entry: a sent `id` or `name` replaces the
   * earlier value, sent `arguments` are appended to the earlier ones. (A
   * `function` value that is a string or a list goes through only when it
   * holds neither "name" nor "arguments", and then changes nothing.)
   */
  lemma ApplyCallUpdates(e: ToolCallEntry, fields: Json.Fields)
    requires ApplyCall(e, fields).raised.None?
    ensures var after := ApplyCall(e, fields).entry;
      var func := Json.Get(fields, "function").UnwrapOr(Json.Null);
      var args := FieldOr(func, "arguments", Json.Str(""));
      after.id == Json.Get(fields, "id").UnwrapOr(e.id)
      && after.name == FieldOr(func, "name", e.name)
      && args.Str? && after.arguments == e.arguments + args.s
  {
    var e1 := match Json.Get(fields, "id") case Some(id) => e.(id := id) case None => e;
    match Json.Get(fields, "function")
    case None =>
    case Some(func) =>
      ApplyFunctionUpdates(e1, func);
  }

  /** The `function` part: `name` replaces, `arguments` is appended, and the id stays. */
  lemma ApplyFunctionUpdates(e: ToolCallEntry, func: Json.Value)
    requires ApplyFunction(e, func).raised.None?
    ensures var after := ApplyFunction(e, func).entry;
      var args := FieldOr(func, "arguments", Json.Str(""));
      after.id == e.id && after.name == FieldOr(func, "name", e.name)
      && args.Str? && after.arguments == e.arguments + args.s
  {
    if func.Obj? {
      assert Json.In("name", func) == Success("name" in Json.Keys(func.fields));
    }
  }

  /**
   * A fragment that goes through: its index now has an entry, which is
   * its earlier entry (or a fresh one) updated as `ApplyCallUpdates` says;
   * every other entry is as it was and keeps its place.
   */
  lemma MergeUpdatesEntry(b: ToolBuffer, toolCall: Json.Value, k: Key)
    requires toolCall.Obj? && KeyOf(Json.GetOr(toolCall, "index", Json.Int(0)).value) == Success(k)
    ensures var m := MergeToolCall(b, toolCall);
      var before := if k in BufferKeys(b) then b[Find(b, k)].1 else FreshEntry;
      var i := Find(m.buffer, k);
      i < |m.buffer| && m.buffer[i].1 == ApplyCall(before, toolCall.fields).entry
      && forall j :: 0 <= j < |b| && b[j].0 != k ==> m.buffer[j] == b[j]
  {
    var b1 := Slot(b, k);
    var i := Find(b1, k);
    var m := MergeToolCall(b, toolCall);
    assert Find(m.buffer, k) == i by {
      FindSame(b1, m.buffer, k);
    }
  }

  /** Two buffers with the same keys find a key at the same place. */
  lemma {:induction false} FindSame(b: ToolBuffer, c: ToolBuffer, k: Key)
    requires BufferKeys(b) == BufferKeys(c)
    ensures Find(b, k) == Find(c, k)
    decreases |b|
  {
    if |b| > 0 {
      assert BufferKeys(b[1..]) == BufferKeys(b)[1..];
      assert BufferKeys(c[1..]) == BufferKeys(c)[1..];
      assert b[0].0 == BufferKeys(b)[0] == c[0].0;
      FindSame(b[1..], c[1..], k);
    }
  }

  // ---- process_delta ----

  /** The processor's fields: the contents received, in order, and the tool-call buffer. */
  datatype ProcState = ProcState(contents: seq<Json.Value>, buffer: ToolBuffer)

  const EmptyProc := ProcState([], [])

  /** The processor after one delta, and the dict `process_delta` returns or the exception it raises. */
  datatype Processed = Processed(state: ProcState, result: Result<Json.Fields, string>)

  /** The tool-call half of `process_delta`, after the content half produced `result`. */
  function ToolCallPart(s: ProcState, result: Json.Fields, delta: Json.Value): Processed
  {
    match Json.In("tool_calls", delta)
    case Failure(err) => Processed(s, Failure(err))
    case Success(hasCalls) =>
      if !hasCalls then Processed(s, Success(result))
      else
        match Json.Index(delta, "tool_calls")
        case Failure(err) => Processed(s, Failure(err))
        case Success(calls) =>
          match Json.Iterate(calls)
          case Failure(err) => Processed(s, Failure(err))
          case Success(items) =>
            var m := MergeAll(s.buffer, items);
            var s1 := s.(buffer := m.buffer);
            match m.raised
            case Some(err) => Processed(s1, Failure(err))
            case None => Processed(s1, Success(result + [("tool_calls", Json.Arr(Values(m.buffer)))]))
  }

  /**
   * `process_delta`: a truthy `content` is buffered and reported with the
   * join of everything buffered; a `tool_calls` list is merged and the
   * whole buffer reported.
   */
  function ProcessDeltaSpec(s: ProcState, delta: Json.Value): Processed
  {
    match Json.In("content", delta)
    case Failure(err) => Processed(s, Failure(err))
    case Success(hasContent) =>
      var content := if !hasContent then Success(Json.Null) else Json.Index(delta, "content");
      match content
      case Failure(err) => Processed(s, Failure(err))
      case Success(c) =>
        if !Json.Truthy(c) then ToolCallPart(s, [], delta)
        else
          var s1 := s.(contents := s.contents + [c]);
          match Json.JoinStr(s1.contents)
          case Failure(err) => Processed(s1, Failure(err))
          case Success(accumulated) =>
            ToolCallPart(s1, [("content", c), ("accumulated_content", Json.Str(accumulated))], delta)
  }

  /** What a delta sends as content: its `content` value when that is truthy. */
  function ContentOf(delta: Json.Value): Option<Json.Value>
  {
    if delta.Obj? then
      match Json.Get(delta.fields, "content")
      case Some(c) => if Json.Truthy(c) then Some(c) else None
      case None => None
    else None
  }

  /**
   * The content half: a dict delta with truthy content has it buffered, and
   * when the delta goes through its result reports that content and the
   * join of every content buffered so far; with no content the buffer and
   * the result are untouched.
   */
  lemma ContentAccumulates(s: ProcState, delta: Json.Value)
    requires delta.Obj?
    ensures var p := ProcessDeltaSpec(s, delta);
      p.state.contents == s.contents + (match ContentOf(delta) case Some(c) => [c] case None => [])
      && (p.result.Success? && ContentOf(delta).Some? ==>
            Json.AllStr(p.state.contents)
            && Json.Get(p.result.value, "content") == ContentOf(delta)
            && Json.Get(p.result.value, "accumulated_content") == Some(Json.Str(Text.Concat(Json.Strs(p.state.contents)))))
      && (ContentOf(delta).None? ==> (p.result.Success? ==> "content" !in Json.Keys(p.result.value)))
  {
  }

  /** A delta with no `tool_calls` key leaves the tool-call buffer alone and reports no tool calls. */
  lemma NoToolCallsKeepsBuffer(s: ProcState, delta: Json.Value)
    requires delta.Obj? && "tool_calls" !in Json.Keys(delta.fields)
    ensures var p := ProcessDeltaSpec(s, delta);
      p.state.buffer == s.buffer && (p.result.Success? ==> "tool_calls" !in Json.Keys(p.result.value))
  {
  }

  lemma ToolCallPartKeepsKeys(s: ProcState, result: Json.Fields, delta: Json.Value)
    ensures var p := ToolCallPart(s, result, delta);
      p.state.contents == s.contents
      && forall k :: k in BufferKeys(s.buffer) ==> k in BufferKeys(p.state.buffer)
  {
    match Json.In("tool_calls", delta)
    case Failure(_) =>
    case Success(hasCalls) =>
      if hasCalls {
        match Json.Index(delta, "tool_calls")
        case Failure(_) =>
        case Success(calls) =>
          match Json.Iterate(calls)
          case Failure(_) =>
          case Success(items) =>
            MergeAllKeepsKeys(s.buffer, items);
      }
  }

  /** Buffered tool calls are never dropped by `process_delta`. */
  lemma ProcessKeepsKeys(s: ProcState, delta: Json.Value)
    ensures forall k :: k in BufferKeys(s.buffer) ==> k in BufferKeys(ProcessDeltaSpec(s, delta).state.buffer)
  {
    match Json.In("content", delta)
    case Failure(_) =>
    case Success(hasContent) =>
      var content := if !hasContent then Success(Json.Null) else Json.Index(delta, "content");
      match content
      case Failure(_) =>
      case Success(c) =>
        if !Json.Truthy(c) {
          ToolCallPartKeepsKeys(s, [], delta);
        } else {
          var s1 := s.(contents := s.contents + [c]);
          match Json.JoinStr(s1.contents)
          case Failure(_) =>
          case Success(accumulated) =>
            ToolCallPartKeepsKeys(s1, [("content", c), ("accumulated_content", Json.Str(accumulated))], delta);
        }
  }

  /** The content a successful `process_delta` reports is exactly what it added to the buffer. */
  lemma ContentReported(s: ProcState, delta: Json.Value)
    ensures var p := ProcessDeltaSpec(s, delta);
      p.result.Success? ==>
        p.state.contents == s.contents + (match Json.Get(p.result.value, "content") case Some(c) => [c] case None => [])
  {
    match Json.In("content", delta)
    case Failure(_) =>
    case Success(hasContent) =>
      var content := if !hasContent then Success(Json.Null) else Json.Index(delta, "content");
      match content
      case Failure(_) =>
      case Success(c) =>
        if !Json.Truthy(c) {
          ToolCallPartKeepsKeys(s, [], delta);
          assert s.contents + [] == s.contents;
        } else {
          var s1 := s.(contents := s.contents + [c]);
          match Json.JoinStr(s1.contents)
          case Failure(_) =>
          case Success(accumulated) =>
            ToolCallPartKeepsKeys(s1, [("content", c), ("accumulated_content", Json.Str(accumulated))], delta);
        }
  }

  /** The dict `get_final_result` returns, or the exception `''.join` raises on a non-string content. */
  function FinalResult(s: ProcState): (r: Result<Json.Fields, string>)
    ensures r.Success? <==> Json.AllStr(s.contents)
    ensures r.Success? ==>
      Json.Get(r.value, "content") == Some(Json.Str(Text.Concat(Json.Strs(s.contents))))
      && (Json.Get(r.value, "tool_calls") == Some(Json.Null) <==> |s.buffer| == 0)
  {
    match Json.JoinStr(s.contents)
    case Failure(err) => Failure(err)
    case Success(content) =>
      Success([("content", Json.Str(content)),
               ("tool_calls", if |s.buffer| > 0 then Json.Arr(Values(s.buffer)) else Json.Null)])
  }

  class DeltaStreamProcessor {
    var contentBuffer: seq<Json.Value>
    var toolCallBuffer: ToolBuffer

    function State(): ProcState
      reads this
    {
      ProcState(contentBuffer, toolCallBuffer)
    }

    ghost predicate Valid()
      reads this
    {
      Wf(toolCallBuffer)
    }

    constructor()
      ensures Valid() && State() == EmptyProc
    {
      contentBuffer, toolCallBuffer := [], [];
    }

    /** The loop over a delta's tool calls. */
    method MergeToolCalls(items: seq<Json.Value>) returns (raised: Option<string>)
      requires Valid()
      modifies this
      ensures Valid() && contentBuffer == old(contentBuffer)
      ensures Merged(toolCallBuffer, raised) == MergeAll(old(toolCallBuffer), items)
    {
      ghost var b0 := toolCallBuffer;
      var i := 0;
      while i < |items|
        invariant 0 <= i <= |items|
        invariant Wf(toolCallBuffer) && contentBuffer == old(contentBuffer)
        invariant MergeAll(b0, items) == MergeAll(toolCallBuffer, items[i..])
      {
        assert items[i..][0] == items[i] && items[i..][1..] == items[i + 1..];
        var m := MergeToolCall(toolCallBuffer, items[i]);
        MergeKeepsWf(toolCallBuffer, items[i]);
        toolCallBuffer := m.buffer;
        if m.raised.Some? {
          return m.raised;
        }
        i := i + 1;
      }
      return None;
    }

    method ProcessDelta(delta: Json.Value) returns (result: Result<Json.Fields, string>)
      requires Valid()
      modifies this
      ensures Valid()
      ensures Processed(State(), result) == ProcessDeltaSpec(old(State()), delta)
    {
      var fields: Json.Fields := [];
      var hasContent := Json.In("content", delta);
      if hasContent.Failure? {
        return Failure(hasContent.error);
      }
      if hasContent.value {
        var content := Json.Index(delta, "content");
        if content.Failure? {
          return Failure(content.error);
        }
        if Json.Truthy(content.value) {
          contentBuffer := contentBuffer + [content.value];
          var accumulated := Json.JoinStr(contentBuffer);
          if accumulated.Failure? {
            return Failure(accumulated.error);
          }
          fields := [("content", content.value), ("accumulated_content", Json.Str(accumulated.value))];
        }
      }
      ghost var s1 := State();
      assert ProcessDeltaSpec(old(State()), delta) == ToolCallPart(s1, fields, delta);
      // `delta` passed the `in` test above, so this one cannot raise
      var hasCalls := Json.In("tool_calls", delta);
      if hasCalls.Success? && hasCalls.value {
        var calls := Json.Index(delta, "tool_calls");
        if calls.Failure? {
          return Failure(calls.error);
        }
        var items := Json.Iterate(calls.value);
        if items.Failure? {
          return Failure(items.error);
        }
        var raised := MergeToolCalls(items.value);
        if raised.Some? {
          return Failure(raised.value);
        }
        fields := fields + [("tool_calls", Json.Arr(Values(toolCallBuffer)))];
      }
      return Success(fields);
    }

    function GetFinalResult(): (r: Result<Json.Fields, string>)
      reads this
      ensures r == FinalResult(State())
    {
      FinalResult(State())
    }

    method Reset()
      modifies this
      ensures Valid() && State() == EmptyProc
    {
      contentBuffer, toolCallBuffer := [], [];
    }
  }

  // ---- WarpStreamAdapter.stream_to_warp_blocks ----

  /** `v[0]` */
  function FirstItem(v: Json.Value): Result<Json.Value, string>
  {
    match v
    case Arr(items) => if |items| > 0 then Success(items[0]) else Failure("list index out of range")
    case Str(s) => if |s| > 0 then Success(Json.Str([s[0]])) else Failure("string index out of range")
    case Obj(_) => Failure("0")   // KeyError: a JSON object has no integer keys
    case _ => Failure("'" + Json.TypeName(v) + "' object is not subscriptable")
  }

  function TextBlock(text: Json.Value, streaming: bool): Json.Value
  {
    Json.Obj([("type", Json.Str("text")), ("text", text), ("streaming", Json.Bool(streaming))])
  }

  function ToolBlocks(toolCalls: seq<Json.Value>, streaming: bool): (r: seq<Json.Value>)
    ensures |r| == |toolCalls|
    ensures forall i :: 0 <= i < |r| ==>
      r[i] == Json.Obj([("type", Json.Str("tool_call")), ("tool", toolCalls[i]), ("streaming", Json.Bool(streaming))])
  {
    seq(|toolCalls|, i requires 0 <= i < |toolCalls| =>
      Json.Obj([("type", Json.Str("tool_call")), ("tool", toolCalls[i]), ("streaming", Json.Bool(streaming))]))
  }

  /** A text block for `content`, when there is one. */
  function ContentBlocks(content: Option<Json.Value>, streaming: bool): seq<Json.Value>
  {
    match content
    case Some(c) => [TextBlock(c, streaming)]
    case None => []
  }

  /** One block per tool call when `toolCalls` is a list. */
  function CallBlocks(toolCalls: Option<Json.Value>, streaming: bool): seq<Json.Value>
  {
    match toolCalls
    case Some(Arr(calls)) => ToolBlocks(calls, streaming)
    case _ => []
  }

  /**
   * The blocks made from what `process_delta` returned: a text block for
   * its content, then one block per tool call. (Its `tool_calls`, when
   * present, is always a list.)
   */
  function DeltaBlocks(processed: Json.Fields): seq<Json.Value>
  {
    ContentBlocks(Json.Get(processed, "content"), true) + CallBlocks(Json.Get(processed, "tool_calls"), true)
  }

  /** The blocks of the closing item, made from `get_final_result`; an empty text gets no block. */
  function FinalBlocks(final: Json.Fields): seq<Json.Value>
  {
    var content := match Json.Get(final, "content") case Some(c) => (if Json.Truthy(c) then Some(c) else None) case None => None;
    ContentBlocks(content, false) + CallBlocks(Json.Get(final, "tool_calls"), false)
  }

  /** What the adapter has produced: the processor's state, the items yielded, and the exception that ended it, if any. */
  datatype Emitted = Emitted(state: ProcState, sent: seq<Json.Value>, raised: Option<string>)

  /**
   * The delta a chunk carries: none when it has no truthy `choices`, else
   * `chunk['choices'][0].get('delta', {})`, or the exception on the way.
   */
  function DeltaOfChunk(chunk: Json.Value): Result<Option<Json.Value>, string>
  {
    match Json.In("choices", chunk)
    case Failure(err) => Failure(err)
    case Success(hasChoices) =>
      if !hasChoices then Success(None)
      else
        match Json.Index(chunk, "choices")
        case Failure(err) => Failure(err)
        case Success(choices) =>
          if !Json.Truthy(choices) then Success(None)
          else
            match FirstItem(choices)
            case Failure(err) => Failure(err)
            case Success(choice) =>
              match Json.GetOr(choice, "delta", Json.Obj([]))
              case Failure(err) => Failure(err)
              case Success(delta) => Success(Some(delta))
  }

  /** A delta handed to the processor, and the item made of its blocks when there are any. */
  function AfterDelta(s: ProcState, delta: Json.Value): Emitted
  {
    var p := ProcessDeltaSpec(s, delta);
    match p.result
    case Failure(err) => Emitted(p.state, [], Some(err))
    case Success(processed) =>
      var blocks := DeltaBlocks(processed);
      Emitted(p.state, if |blocks| > 0 then [Json.Obj([("blocks", Json.Arr(blocks)), ("streaming", Json.Bool(true))])] else [], None)
  }

  /** One chunk of the response stream. */
  function WarpChunk(s: ProcState, chunk: Json.Value): Emitted
  {
    match DeltaOfChunk(chunk)
    case Failure(err) => Emitted(s, [], Some(err))
    case Success(None) => Emitted(s, [], None)
    case Success(Some(delta)) => AfterDelta(s, delta)
  }

  /** The chunk loop, left at the first exception. */
  function WarpChunks(s: ProcState, chunks: seq<Json.Value>): Emitted
    decreases |chunks|
  {
    if |chunks| == 0 then Emitted(s, [], None)
    else
      var e := WarpChunk(s, chunks[0]);
      if e.raised.Some? then e
      else
        var rest := WarpChunks(e.state, chunks[1..]);
        Emitted(rest.state, e.sent + rest.sent, rest.raised)
  }

  /** The whole generator: the streamed items, then the closing item when it has any block. */
  function WarpStream(chunks: seq<Json.Value>): Emitted
  {
    var r := WarpChunks(EmptyProc, chunks);
    if r.raised.Some? then r
    else
      match FinalResult(r.state)
      case Failure(err) => Emitted(r.state, r.sent, Some(err))
      case Success(final) =>
        var blocks := FinalBlocks(final);
        Emitted(r.state, r.sent + if |blocks| > 0 then [Json.Obj([("blocks", Json.Arr(blocks)), ("streaming", Json.Bool(false)), ("complete", Json.Bool(true))])] else [], None)
  }

  // ---- the text a client sees ----

  /** The texts of the text blocks among `blocks`, in order. */
  function BlockTexts(blocks: seq<Json.Value>): seq<Json.Value>
  {
    if |blocks| == 0 then [] else BlockText(blocks[0]) + BlockTexts(blocks[1..])
  }

  /** The text of one block, as a one-element list when it is a text block. */
  function BlockText(b: Json.Value): seq<Json.Value>
  {
    if b.Obj? && Json.Get(b.fields, "type") == Some(Json.Str("text")) then [Json.Get(b.fields, "text").UnwrapOr(Json.Null)] else []
  }

  /** The texts of the text blocks in the streamed items, in order. */
  function SentTexts(ys: seq<Json.Value>): seq<Json.Value>
  {
    if |ys| == 0 then []
    else
      (match ys[0]
       case Obj(fields) => (match Json.Get(fields, "blocks") case Some(Arr(blocks)) => BlockTexts(blocks) case _ => [])
       case _ => [])
      + SentTexts(ys[1..])
  }

  lemma {:induction false} BlockTextsAppend(a: seq<Json.Value>, b: seq<Json.Value>)
    ensures BlockTexts(a + b) == BlockTexts(a) + BlockTexts(b)
    decreases |a|
  {
    if |a| > 0 {
      assert (a + b)[0] == a[0] && (a + b)[1..] == a[1..] + b;
      BlockTextsAppend(a[1..], b);
      assert BlockTexts(a + b) == BlockText(a[0]) + (BlockTexts(a[1..]) + BlockTexts(b));
    } else {
      assert a + b == b;
    }
  }

  lemma {:induction false} SentTextsAppend(a: seq<Json.Value>, b: seq<Json.Value>)
    ensures SentTexts(a + b) == SentTexts(a) + SentTexts(b)
    decreases |a|
  {
    if |a| > 0 {
      assert (a + b)[1..] == a[1..] + b;
      SentTextsAppend(a[1..], b);
    } else {
      assert a + b == b;
    }
  }

  lemma {:induction false} ToolBlocksHaveNoText(calls: seq<Json.Value>, streaming: bool)
    ensures BlockTexts(ToolBlocks(calls, streaming)) == []
    decreases |calls|
  {
    if |calls| > 0 {
      assert ToolBlocks(calls, streaming)[1..] == ToolBlocks(calls[1..], streaming);
      ToolBlocksHaveNoText(calls[1..], streaming);
    }
  }

  lemma TextBlockText(text: Json.Value, streaming: bool)
    ensures BlockTexts([TextBlock(text, streaming)]) == [text]
  {
    var fields := TextBlock(text, streaming).fields;
    assert Json.Get(fields, "type") == Some(Json.Str("text"));
    assert fields[0].0 != "text" && Json.Get(fields, "text") == Json.Get(fields[1..], "text") == Some(text);
    assert BlockTexts([TextBlock(text, streaming)]) == [text] + BlockTexts([]);
  }

  lemma ContentBlocksTexts(content: Option<Json.Value>, streaming: bool)
    ensures BlockTexts(ContentBlocks(content, streaming)) == match content case Some(c) => [c] case None => []
  {
    if content.Some? {
      TextBlockText(content.value, streaming);
    }
  }

  lemma CallBlocksTexts(toolCalls: Option<Json.Value>, streaming: bool)
    ensures BlockTexts(CallBlocks(toolCalls, streaming)) == []
  {
    if toolCalls.Some? && toolCalls.value.Arr? {
      ToolBlocksHaveNoText(toolCalls.value.items, streaming);
    }
  }

  /** The text blocks of one chunk's item carry exactly the content reported for it. */
  lemma DeltaBlockTexts(processed: Json.Fields)
    ensures BlockTexts(DeltaBlocks(processed))
         == match Json.Get(processed, "content") case Some(c) => [c] case None => []
  {
    var head := ContentBlocks(Json.Get(processed, "content"), true);
    var tail := CallBlocks(Json.Get(processed, "tool_calls"), true);
    BlockTextsAppend(head, tail);
    ContentBlocksTexts(Json.Get(processed, "content"), true);
    CallBlocksTexts(Json.Get(processed, "tool_calls"), true);
  }

  /** A delta that goes through: the texts it streams are what the processor buffered for it. */
  lemma AfterDeltaTexts(s: ProcState, delta: Json.Value)
    ensures var e := AfterDelta(s, delta);
      e.raised.None? ==> e.state.contents == s.contents + SentTexts(e.sent)
  {
    var p := ProcessDeltaSpec(s, delta);
    if p.result.Success? {
      ContentReported(s, delta);
      var blocks := DeltaBlocks(p.result.value);
      DeltaBlockTexts(p.result.value);
      if |blocks| > 0 {
        var y := Json.Obj([("blocks", Json.Arr(blocks)), ("streaming", Json.Bool(true))]);
        assert SentTexts([y]) == BlockTexts(blocks) + SentTexts([]);
      } else {
        assert BlockTexts(blocks) == [];
      }
    }
  }

  lemma WarpChunkTexts(s: ProcState, chunk: Json.Value)
    ensures var e := WarpChunk(s, chunk);
      e.raised.None? ==> e.state.contents == s.contents + SentTexts(e.sent)
  {
    match DeltaOfChunk(chunk)
    case Failure(_) =>
    case Success(None) =>
      assert s.contents + SentTexts([]) == s.contents;
    case Success(Some(delta)) =>
      AfterDeltaTexts(s, delta);
  }

  lemma {:induction false} WarpChunksTexts(s: ProcState, chunks: seq<Json.Value>)
    ensures var e := WarpChunks(s, chunks);
      e.raised.None? ==> e.state.contents == s.contents + SentTexts(e.sent)
    decreases |chunks|
  {
    if |chunks| > 0 {
      var e := WarpChunk(s, chunks[0]);
      WarpChunkTexts(s, chunks[0]);
      if e.raised.None? {
        WarpChunksTexts(e.state, chunks[1..]);
        ChainTexts(s, e, WarpChunks(e.state, chunks[1..]));
      }
    }
  }

  /** Two steps that each add their streamed texts to the contents add both, in order. */
  lemma ChainTexts(s: ProcState, e: Emitted, rest: Emitted)
    requires e.state.contents == s.contents + SentTexts(e.sent)
    requires rest.raised.None? ==> rest.state.contents == e.state.contents + SentTexts(rest.sent)
    ensures rest.raised.None? ==> rest.state.contents == s.contents + SentTexts(e.sent + rest.sent)
  {
    if rest.raised.None? {
      SentTextsAppend(e.sent, rest.sent);
      Concat3(s.contents, SentTexts(e.sent), SentTexts(rest.sent));
    }
  }

  lemma Concat3(a: seq<Json.Value>, b: seq<Json.Value>, c: seq<Json.Value>)
    ensures (a + b) + c == a + (b + c)
  {
  }

  /**
   * The closing item's text is the concatenation of every text streamed
   * before it: a client that shows the streamed texts and then the final
   * one sees the same text twice, never a different one.
   */
  lemma FinalTextIsStreamedText(chunks: seq<Json.Value>)
    ensures var r := WarpChunks(EmptyProc, chunks);
      r.raised.None? ==>
        r.state.contents == SentTexts(r.sent)
        && (FinalResult(r.state).Success? ==>
              Json.Get(FinalResult(r.state).value, "content") == Some(Json.Str(Text.Concat(Json.Strs(SentTexts(r.sent))))))
  {
    WarpChunksTexts(EmptyProc, chunks);
    assert EmptyProc.contents + SentTexts(WarpChunks(EmptyProc, chunks).sent) == SentTexts(WarpChunks(EmptyProc, chunks).sent);
  }

  /** The loop that appends one block per tool call. */
  method AppendToolBlocks(blocks: seq<Json.Value>, calls: seq<Json.Value>, streaming: bool) returns (r: seq<Json.Value>)
    ensures r == blocks + ToolBlocks(calls, streaming)
  {
    r := blocks;
    var i := 0;
    while i < |calls|
      invariant 0 <= i <= |calls|
      invariant r == blocks + ToolBlocks(calls[..i], streaming)
    {
      assert ToolBlocks(calls[..i + 1], streaming) == ToolBlocks(calls[..i], streaming) + [ToolBlocks(calls, streaming)[i]];
      r := r + [ToolBlocks(calls, streaming)[i]];
      i := i + 1;
    }
    assert calls[..i] == calls;
  }

  /** The blocks for what `process_delta` returned. */
  method BuildBlocks(processed: Json.Fields) returns (blocks: seq<Json.Value>)
    ensures blocks == DeltaBlocks(processed)
  {
    blocks := [];
    var content := Json.Get(processed, "content");
    if content.Some? {
      blocks := blocks + [TextBlock(content.value, true)];
    }
    assert blocks == ContentBlocks(content, true);
    var calls := Json.Get(processed, "tool_calls");
    if calls.Some? && calls.value.Arr? {
      assert CallBlocks(calls, true) == ToolBlocks(calls.value.items, true);
      blocks := AppendToolBlocks(blocks, calls.value.items, true);
    } else {
      assert CallBlocks(calls, true) == [];
      assert blocks == blocks + [];
    }
  }

  /** One chunk of the adapter's loop, on the adapter's processor. */
  method WarpStep(processor: DeltaStreamProcessor, chunk: Json.Value) returns (sent: seq<Json.Value>, raised: Option<string>)
    requires processor.Valid()
    modifies processor
    ensures processor.Valid()
    ensures Emitted(processor.State(), sent, raised) == WarpChunk(old(processor.State()), chunk)
  {
    var delta := DeltaOfChunk(chunk);
    if delta.Failure? {
      return [], Some(delta.error);
    }
    if delta.value.None? {
      return [], None;
    }
    var processed := processor.ProcessDelta(delta.value.value);
    if processed.Failure? {
      return [], Some(processed.error);
    }
    var blocks := BuildBlocks(processed.value);
    sent := if |blocks| > 0 then [Json.Obj([("blocks", Json.Arr(blocks)), ("streaming", Json.Bool(true))])] else [];
    raised := None;
  }

  /** `stream_to_warp_blocks` over a finite response stream. */
  method StreamToWarpBlocks(chunks: seq<Json.Value>) returns (sent: seq<Json.Value>, raised: Option<string>)
    ensures (sent, raised) == (WarpStream(chunks).sent, WarpStream(chunks).raised)
  {
    var processor := new DeltaStreamProcessor();
    sent, raised := [], None;
    var i := 0;
    while i < |chunks|
      invariant 0 <= i <= |chunks| && processor.Valid()
      invariant WarpChunks(EmptyProc, chunks)
             == if raised.Some? then Emitted(processor.State(), sent, raised)
                else var rest := WarpChunks(processor.State(), chunks[i..]); Emitted(rest.state, sent + rest.sent, rest.raised)
    {
      assert chunks[i..][0] == chunks[i] && chunks[i..][1..] == chunks[i + 1..];
      var ys, err := WarpStep(processor, chunks[i]);
      sent := sent + ys;
      if err.Some? {
        raised := err;
        break;
      }
      i := i + 1;
    }
    ghost var r := WarpChunks(EmptyProc, chunks);
    assert r.state == processor.State() && r.sent == sent && r.raised == raised by {
      if raised.None? {
        assert chunks[i..] == [];
        assert sent + [] == sent;
      }
    }
    if raised.None? {
      var final := processor.GetFinalResult();
      if final.Failure? {
        raised := Some(final.error);
      } else {
        var blocks := FinalBlocks(final.value);
        if |blocks| > 0 {
          sent := sent + [Json.Obj([("blocks", Json.Arr(blocks)), ("streaming", Json.Bool(false)), ("complete", Json.Bool(true))])];
        }
      }
    }
  }
}
