// Streaming buffers: the server-sent-event serialiser, the chunk aggregator,
// and the SSE streamer's event-id and error policy. Chunks are decoded JSON
// (Json.Value); Python's own operations on them (`in`, `[]`, `.get`,
// iteration, `len`, `''.join`, `+=`) are the ones in module Json, so a chunk of an unexpected shape raises here
// exactly where it raises in Python, with the same message.
module Streaming {
  import opened Wrappers
  import Text
  import Json
  import EventStream

  // ---- StreamEvent.to_sse ----

  datatype EventType = Message | Delta | ToolCall | Error | Ping | Complete

  /** The enum's value, written after `event:`. */
  function EventName(t: EventType): string
  {
    match t
    case Message => "message"
    case Delta => "delta"
    case ToolCall => "tool_call"
    case Error => "error"
    case Ping => "ping"
    case Complete => "complete"
  }

  datatype StreamEvent = StreamEvent(event: EventType, data: Json.Value, id: Option<string>, retry: Option<int>)

  /** The text after `data: `: a string verbatim, anything else as `json.dumps` writes it. */
  function DataText(d: Json.Value): string
  {
    if d.Str? then d.s else Json.Dumps(d)
  }

  /** The lines of one event, before they are joined. */
  function SseLines(e: StreamEvent): (ls: seq<string>)
    ensures |ls| >= 1 && ls[|ls| - 1] == "data: " + DataText(e.data)
  {
    HeadLines(e)
    + (if e.retry.Some? then ["retry: " + Text.IntToString(e.retry.value)] else [])
    + ["data: " + DataText(e.data)]
  }

  function ToSse(e: StreamEvent): string
  {
    Text.Join(SseLines(e), "\n") + "\n\n"
  }

  /** The serialised event survives the trip through a client only when no field holds a line break. */
  predicate Framable(e: StreamEvent)
  {
    (e.id.Some? ==> EventStream.NoLineBreak(e.id.value) && '\0' !in e.id.value)
    && EventStream.NoLineBreak(DataText(e.data))
  }

  /** What a client should read back from `ToSse(e)`. */
  function ReadBack(e: StreamEvent): EventStream.Parser
  {
    var id := e.id.UnwrapOr("");
    EventStream.Parser("", "", id,
      if e.retry.Some? && e.retry.value >= 0 then Some(e.retry.value) else None,
      [EventStream.Event(EventName(e.event), DataText(e.data), id)])
  }

  /** Data that is not a string is JSON text, which never holds a line break. */
  lemma JsonDataFramable(e: StreamEvent)
    requires !e.data.Str?
    requires e.id.Some? ==> EventStream.NoLineBreak(e.id.value) && '\0' !in e.id.value
    ensures Framable(e)
  {
    Json.DumpsIsPrintableAscii(e.data);
  }

  /** A line written as `prefix + value`, where `prefix` is a field name and ": ", is read as that field. */
  lemma FieldStep(p: EventStream.Parser, prefix: string, name: string, value: string)
    requires name != "" && name[0] != ':' && ':' !in name && prefix == name + ": "
    ensures EventStream.Fold(p, [prefix + value]) == EventStream.Field(p, name, value)
  {
    assert prefix + value == name + ": " + value;
    EventStream.FieldOfLine(name, value);
    assert (name + ": " + value)[0] == name[0];
    EventStream.FoldOne(p, prefix + value);
  }

  /** The lines of a framable event hold no line break, and the first cannot start with a BYTE ORDER MARK. */
  lemma SseLinesFramable(e: StreamEvent)
    requires Framable(e)
    ensures forall k :: 0 <= k < |SseLines(e)| ==> EventStream.NoLineBreak(SseLines(e)[k])
    ensures SseLines(e)[0] != "" && SseLines(e)[0][0] != '\U{feff}'
  {
    var rtL := if e.retry.Some? then ["retry: " + Text.IntToString(e.retry.value)] else [];
    var dataL := ["data: " + DataText(e.data)];
    HeadFramable(e);
    if e.retry.Some? {
      RetryTextFramable(e.retry.value);
    }
    NoBreakConcat("data: ", DataText(e.data));
    NoBreakLines(HeadLines(e), rtL);
    NoBreakLines(HeadLines(e) + rtL, dataL);
  }

  lemma HeadFramable(e: StreamEvent)
    requires e.id.Some? ==> EventStream.NoLineBreak(e.id.value)
    ensures forall k :: 0 <= k < |HeadLines(e)| ==> EventStream.NoLineBreak(HeadLines(e)[k])
  {
    var idL := if e.id.Some? && e.id.value != "" then ["id: " + e.id.value] else [];
    var evL := if e.event != Message then ["event: " + EventName(e.event)] else [];
    if e.id.Some? {
      NoBreakConcat("id: ", e.id.value);
    }
    NoBreakConcat("event: ", EventName(e.event));
    NoBreakLines(idL, evL);
  }

  lemma NoBreakConcat(a: string, b: string)
    requires EventStream.NoLineBreak(a) && EventStream.NoLineBreak(b)
    ensures EventStream.NoLineBreak(a + b)
  {
  }

  lemma NoBreakLines(a: seq<string>, b: seq<string>)
    requires forall k :: 0 <= k < |a| ==> EventStream.NoLineBreak(a[k])
    requires forall k :: 0 <= k < |b| ==> EventStream.NoLineBreak(b[k])
    ensures forall k :: 0 <= k < |a + b| ==> EventStream.NoLineBreak((a + b)[k])
  {
  }

  lemma RetryTextFramable(r: int)
    ensures EventStream.NoLineBreak("retry: " + Text.IntToString(r))
  {
    var t := Text.IntToString(r);
    var n := Text.NatToString(if r < 0 then -r else r);
    assert t == (if r < 0 then "-" else "") + n;
    assert forall j :: 0 <= j < |n| ==> Text.IsDigit(n[j]);
    assert forall j :: 0 <= j < |t| ==> t[j] == '-' || Text.IsDigit(t[j]);
  }

  /** A client cuts a framable event into its lines and one blank line. */
  lemma LinesOfSse(e: StreamEvent)
    requires Framable(e)
    ensures EventStream.Lines(ToSse(e)) == SseLines(e) + [""]
  {
    var ls := SseLines(e);
    SseLinesFramable(e);
    var s := ToSse(e);
    assert s[0] == ls[0][0] by {
      if |ls| > 1 { Text.JoinPrepend(ls[0], ls[1..], "\n"); assert [ls[0]] + ls[1..] == ls; }
    }
    EventStream.LinesOfFrame(ls);
  }

  /** The reading of the optional `id:` and `event:` lines. */
  lemma FoldHead(e: StreamEvent)
    requires e.id.Some? ==> '\0' !in e.id.value
    ensures EventStream.Fold(EventStream.Initial, HeadLines(e))
         == EventStream.Initial.(lastId := e.id.UnwrapOr(""), eventType := if e.event != Message then EventName(e.event) else "")
  {
    var p0 := EventStream.Initial;
    var idL := if e.id.Some? && e.id.value != "" then ["id: " + e.id.value] else [];
    var evL := if e.event != Message then ["event: " + EventName(e.event)] else [];
    assert HeadLines(e) == idL + evL;
    EventStream.FoldAppend(p0, idL, evL);
    var p1 := p0.(lastId := e.id.UnwrapOr(""));
    if e.id.Some? && e.id.value != "" {
      FieldStep(p0, "id: ", "id", e.id.value);
    }
    assert EventStream.Fold(p0, idL) == p1;
    if e.event != Message {
      var name := EventName(e.event);
      FieldStep(p1, "event: ", "event", name);
      assert EventStream.Field(p1, "event", name) == p1.(eventType := name);
    }
  }

  function HeadLines(e: StreamEvent): seq<string>
  {
    (if e.id.Some? && e.id.value != "" then ["id: " + e.id.value] else [])
    + (if e.event != Message then ["event: " + EventName(e.event)] else [])
  }

  /** The reading of the optional `retry:` line. */
  lemma FoldRetry(p: EventStream.Parser, retry: Option<int>)
    ensures EventStream.Fold(p, if retry.Some? then ["retry: " + Text.IntToString(retry.value)] else [])
         == p.(reconnectMs := if retry.Some? && retry.value >= 0 then Some(retry.value) else p.reconnectMs)
  {
    if retry.Some? {
      var r := retry.value;
      FieldStep(p, "retry: ", "retry", Text.IntToString(r));
      if r >= 0 {
        Text.ParseNatToString(r);
      } else {
        assert Text.IntToString(r)[0] == '-';
      }
    }
  }

  /**
   * Read back by a client (section 9.2.6 of the WHATWG HTML Living
   * Standard), a serialised event is exactly one dispatched event with the
   * event's type name, its data text and its id ("" when it has none); the
   * reconnection time is the retry value when that is non-negative.
   */
  lemma ToSseReadsBack(e: StreamEvent)
    requires Framable(e)
    ensures EventStream.Parse(ToSse(e)) == ReadBack(e)
  {
    LinesOfSse(e);
    FoldSse(e);
  }

  /** The lines of an event, then a blank line, are read as that one event. */
  lemma FoldSse(e: StreamEvent)
    requires e.id.Some? ==> '\0' !in e.id.value
    ensures EventStream.Fold(EventStream.Initial, SseLines(e) + [""]) == ReadBack(e)
  {
    var rtL := if e.retry.Some? then ["retry: " + Text.IntToString(e.retry.value)] else [];
    var tail := ["data: " + DataText(e.data), ""];
    assert SseLines(e) + [""] == HeadLines(e) + rtL + tail;
    var p0 := EventStream.Initial;
    EventStream.FoldAppend(p0, HeadLines(e) + rtL, tail);
    EventStream.FoldAppend(p0, HeadLines(e), rtL);
    FoldHead(e);
    FoldRetry(EventStream.Fold(p0, HeadLines(e)), e.retry);
    FoldData(EventStream.Fold(p0, HeadLines(e) + rtL), DataText(e.data));
  }

  /** A `data:` line and a blank line dispatch one event carrying that data. */
  lemma FoldData(p: EventStream.Parser, text: string)
    requires p.data == ""
    ensures EventStream.Fold(p, ["data: " + text, ""])
         == p.(eventType := "", events := p.events + [EventStream.Event(if p.eventType == "" then "message" else p.eventType, text, p.lastId)])
  {
    FieldStep(p, "data: ", "data", text);
    var p1 := p.(data := text + "\n");
    assert EventStream.Fold(p, ["data: " + text]) == p1;
    assert EventStream.DropFinalLf(p1.data) == text;
    EventStream.FoldOne(p1, "");
    EventStream.FoldAppend(p, ["data: " + text], [""]);
    assert ["data: " + text] + [""] == ["data: " + text, ""];
  }

  lemma LinesOfCutData()
    ensures EventStream.Lines("data: a\nb\n\n") == ["data: a", "b", ""]
  {
    var s := "data: a\nb\n\n";
    assert s[0] != '\U{feff}';
    assert s == "data: a" + "\n" + "b\n\n";
    EventStream.LinesOfPiece("data: a", "b\n\n", "");
    assert "" + "data: a" == "data: a";
    assert "b\n\n" == "b" + "\n" + "\n";
    EventStream.LinesOfPiece("b", "\n", "");
    assert "" + "b" == "b";
    assert "\n" == "" + "\n" + "";
    EventStream.LinesOfPiece("", "", "");
    assert "" + "" == "";
    assert EventStream.LinesFrom("", "") == [];
  }

  /**
   * String data is written verbatim, so a line break inside it ends the data
   * line early: the client reads "a" for the data "a\nb" and drops "b" as an
   * unknown field.
   */
  lemma StringDataIsNotSplit()
    ensures ToSse(StreamEvent(Message, Json.Str("a\nb"), None, None)) == "data: a\nb\n\n"
    ensures EventStream.Parse("data: a\nb\n\n").events == [EventStream.Event("message", "a", "")]
  {
    var e := StreamEvent(Message, Json.Str("a\nb"), None, None);
    assert "data: " + "a\nb" == "data: a\nb";
    assert SseLines(e) == ["data: a\nb"];
    assert "data: a\nb" + "\n\n" == "data: a\nb\n\n";
    LinesOfCutData();
    FoldCutData();
  }

  lemma FoldCutDataLine()
    ensures EventStream.Fold(EventStream.Initial, ["data: a"]) == EventStream.Initial.(data := "a\n")
  {
    assert "data: " + "a" == "data: a";
    FieldStep(EventStream.Initial, "data: ", "data", "a");
  }

  lemma FoldCutDataRest(p: EventStream.Parser)
    requires p.data == "a\n" && p.eventType == "" && p.lastId == "" && p.events == []
    ensures EventStream.Fold(p, ["b", ""]).events == [EventStream.Event("message", "a", "")]
  {
    assert EventStream.FieldOf("b") == ("b", "");
    EventStream.FoldOne(p, "b");
    EventStream.FoldOne(p, "");
    assert "a\n"[..1] == "a";
    EventStream.FoldAppend(p, ["b"], [""]);
    assert ["b"] + [""] == ["b", ""];
  }

  lemma FoldCutData()
    ensures EventStream.Fold(EventStream.Initial, ["data: a", "b", ""]).events == [EventStream.Event("message", "a", "")]
  {
    FoldCutDataLine();
    FoldCutDataRest(EventStream.Initial.(data := "a\n"));
    EventStream.FoldAppend(EventStream.Initial, ["data: a"], ["b", ""]);
    assert ["data: a"] + ["b", ""] == ["data: a", "b", ""];
  }

  // ---- ChunkAggregator ----

  const DefaultMaxBufferSize := 10000

  /** The aggregator's fields taken together. */
  datatype Aggregate = Aggregate(buffer: seq<Json.Value>, totalSize: int, toolCalls: seq<Json.Value>, metadata: Json.Fields)

  const EmptyAggregate := Aggregate([], 0, [], [])

  /** The state `add_chunk` leaves behind and, when it raised, the exception's text. */
  datatype Added = Added(agg: Aggregate, raised: Option<string>)

  /** `len(v)` added to the size counter: the size invariant the aggregator keeps. */
  predicate Sized(a: Aggregate)
  {
    a.totalSize == Json.SumSizes(a.buffer)
  }

  /** The text-content branch of one choice: buffer a truthy `content`, then count its length. */
  function AddContent(a: Aggregate, delta: Json.Value): Added
  {
    match Json.In("content", delta)
    case Failure(e) => Added(a, Some(e))
    case Success(has) =>
      if !has then Added(a, None)
      else
        match Json.Index(delta, "content")
        case Failure(e) => Added(a, Some(e))
        case Success(c) =>
          if !Json.Truthy(c) then Added(a, None)
          else
            var buffered := Aggregate(a.buffer + [c], a.totalSize, a.toolCalls, a.metadata);
            match Json.Len(c)
            case Failure(e) => Added(buffered, Some(e))
            case Success(n) => Added(Aggregate(buffered.buffer, a.totalSize + n, a.toolCalls, a.metadata), None)
  }

  /** The tool-call branch of one choice: extend by a truthy `tool_calls`. */
  function AddToolCalls(a: Aggregate, delta: Json.Value): Added
  {
    match Json.In("tool_calls", delta)
    case Failure(e) => Added(a, Some(e))
    case Success(has) =>
      if !has then Added(a, None)
      else
        match Json.Index(delta, "tool_calls")
        case Failure(e) => Added(a, Some(e))
        case Success(t) =>
          if !Json.Truthy(t) then Added(a, None)
          else
            match Json.Iterate(t)
            case Failure(e) => Added(a, Some(e))
            case Success(items) => Added(Aggregate(a.buffer, a.totalSize, a.toolCalls + items, a.metadata), None)
  }

  function AddChoice(a: Aggregate, choice: Json.Value): Added
  {
    match Json.GetOr(choice, "delta", Json.Obj([]))
    case Failure(e) => Added(a, Some(e))
    case Success(delta) =>
      var r := AddContent(a, delta);
      if r.raised.Some? then r else AddToolCalls(r.agg, delta)
  }

  /** The loop over `chunk['choices']`, stopping at the first choice that raises. */
  function AddChoices(a: Aggregate, choices: seq<Json.Value>): Added
    decreases |choices|
  {
    if |choices| == 0 then Added(a, None)
    else
      var r := AddChoice(a, choices[0]);
      if r.raised.Some? then r else AddChoices(r.agg, choices[1..])
  }

  /** `id` and `model` of the chunk, last write wins. */
  function RecordMetadata(m: Json.Fields, chunk: Json.Fields): Json.Fields
  {
    var m1 := if "id" in Json.Keys(chunk) then Json.Put(m, "id", Json.Get(chunk, "id").value) else m;
    if "model" in Json.Keys(chunk) then Json.Put(m1, "model", Json.Get(chunk, "model").value) else m1
  }

  /** `add_chunk` on the aggregator's fields: the choices first, then the metadata; nothing after an exception. */
  function Absorb(a: Aggregate, chunk: Json.Fields): Added
  {
    var r :=
      if "choices" !in Json.Keys(chunk) then Added(a, None)
      else
        match Json.Iterate(Json.Get(chunk, "choices").value)
        case Failure(e) => Added(a, Some(e))
        case Success(choices) => AddChoices(a, choices);
    if r.raised.Some? then r
    else Added(Aggregate(r.agg.buffer, r.agg.totalSize, r.agg.toolCalls, RecordMetadata(r.agg.metadata, chunk)), None)
  }

  /** How `a` grew into `b`: the buffer and the tool calls only get longer. */
  predicate Extends(a: Aggregate, b: Aggregate)
  {
    a.buffer <= b.buffer && a.toolCalls <= b.toolCalls
  }

  lemma SumSizesAppend(vs: seq<Json.Value>, v: Json.Value)
    ensures Json.SumSizes(vs + [v]) == Json.SumSizes(vs) + Json.SizeOf(v)
  {
    assert (vs + [v])[..|vs|] == vs;
  }

  lemma AddContentKeepsSize(a: Aggregate, delta: Json.Value)
    requires Sized(a)
    ensures Sized(AddContent(a, delta).agg) && Extends(a, AddContent(a, delta).agg)
  {
    match Json.Index(delta, "content")
    case Failure(_) =>
    case Success(c) =>
      SumSizesAppend(a.buffer, c);
  }

  lemma AddChoiceKeepsSize(a: Aggregate, choice: Json.Value)
    requires Sized(a)
    ensures Sized(AddChoice(a, choice).agg) && Extends(a, AddChoice(a, choice).agg)
  {
    match Json.GetOr(choice, "delta", Json.Obj([]))
    case Failure(_) =>
    case Success(delta) =>
      AddContentKeepsSize(a, delta);
  }

  lemma {:induction false} AddChoicesKeepsSize(a: Aggregate, choices: seq<Json.Value>)
    requires Sized(a)
    ensures Sized(AddChoices(a, choices).agg) && Extends(a, AddChoices(a, choices).agg)
    decreases |choices|
  {
    if |choices| > 0 {
      AddChoiceKeepsSize(a, choices[0]);
      var r := AddChoice(a, choices[0]);
      if r.raised.None? {
        AddChoicesKeepsSize(r.agg, choices[1..]);
      }
    }
  }

  /**
   * Whatever the chunk, and even when `add_chunk` raises half-way, the size
   * counter is the sum of the lengths of the buffered contents (a content
   * without a length is buffered before `len` raises and adds nothing), and
   * the buffer and the tool calls are only extended.
   */
  lemma AddChunkKeepsSize(a: Aggregate, chunk: Json.Fields)
    requires Sized(a)
    ensures Sized(Absorb(a, chunk).agg) && Extends(a, Absorb(a, chunk).agg)
  {
    if "choices" in Json.Keys(chunk) {
      match Json.Iterate(Json.Get(chunk, "choices").value)
      case Failure(_) =>
      case Success(choices) => AddChoicesKeepsSize(a, choices);
    }
  }

  // ---- the aggregator on chunks of the documented shape ----

  /** A delta as a streaming chat completion sends it: `content` a string or null, `tool_calls` a list or null. */
  predicate WellShapedDelta(d: Json.Value)
  {
    d.Obj?
    && (match Json.Get(d.fields, "content") case Some(c) => c.Null? || c.Str? case None => true)
    && (match Json.Get(d.fields, "tool_calls") case Some(t) => t.Null? || t.Arr? case None => true)
  }

  predicate WellShapedChoice(c: Json.Value)
  {
    c.Obj? && WellShapedDelta(DeltaOf(c))
  }

  /** `choice.get('delta', {})` of a choice that is a dict. */
  function DeltaOf(c: Json.Value): Json.Value
  {
    if c.Obj? then Json.Get(c.fields, "delta").UnwrapOr(Json.Obj([])) else Json.Obj([])
  }

  predicate WellShapedChunk(chunk: Json.Fields)
  {
    match Json.Get(chunk, "choices")
    case None => true
    case Some(cs) => cs.Arr? && forall k :: 0 <= k < |cs.items| ==> WellShapedChoice(cs.items[k])
  }

  function ChoicesOf(chunk: Json.Fields): seq<Json.Value>
  {
    match Json.Get(chunk, "choices")
    case Some(Arr(items)) => items
    case _ => []
  }

  /** The content of a choice when it is a non-empty string. */
  function ChoiceText(c: Json.Value): seq<Json.Value>
  {
    var d := DeltaOf(c);
    if d.Obj? then
      match Json.Get(d.fields, "content")
      case Some(Str(t)) => if t != "" then [Json.Str(t)] else []
      case _ => []
    else []
  }

  /** The tool-call fragments of a choice. */
  function ChoiceCalls(c: Json.Value): seq<Json.Value>
  {
    var d := DeltaOf(c);
    if d.Obj? then
      match Json.Get(d.fields, "tool_calls")
      case Some(Arr(items)) => items
      case _ => []
    else []
  }

  /** `f` applied to each choice, the results concatenated in order. */
  function FlatMap(f: Json.Value -> seq<Json.Value>, cs: seq<Json.Value>): seq<Json.Value>
  {
    if |cs| == 0 then [] else f(cs[0]) + FlatMap(f, cs[1..])
  }

  /** The non-empty text contents of the choices, in order. */
  function Texts(cs: seq<Json.Value>): seq<Json.Value>
  {
    FlatMap(ChoiceText, cs)
  }

  /** The tool-call fragments of the choices, in order. */
  function Calls(cs: seq<Json.Value>): seq<Json.Value>
  {
    FlatMap(ChoiceCalls, cs)
  }

  /** Texts `t` and tool calls `c` appended, the size counting the texts' lengths. */
  function Grown(a: Aggregate, t: seq<Json.Value>, c: seq<Json.Value>): Aggregate
  {
    Aggregate(a.buffer + t, a.totalSize + Json.SumSizes(t), a.toolCalls + c, a.metadata)
  }

  /** The choices `cs` taken one at a time, `text` and `calls` saying what each contributes. */
  function GrownBy(a: Aggregate, text: Json.Value -> seq<Json.Value>, calls: Json.Value -> seq<Json.Value>, cs: seq<Json.Value>): Aggregate
    decreases |cs|
  {
    if |cs| == 0 then a else GrownBy(Grown(a, text(cs[0]), calls(cs[0])), text, calls, cs[1..])
  }

  lemma AddChoiceWellShaped(a: Aggregate, c: Json.Value)
    requires WellShapedChoice(c)
    ensures AddChoice(a, c) == Added(Grown(a, ChoiceText(c), ChoiceCalls(c)), None)
  {
    var d := DeltaOf(c);
    assert Json.GetOr(c, "delta", Json.Obj([])) == Success(d);
    match Json.Get(d.fields, "content")
    case None =>
    case Some(v) =>
      assert Json.Index(d, "content") == Success(v);
      if v.Str? && v.s != "" {
        assert ChoiceText(c) == [v];
        assert Json.SumSizes([v]) == |v.s| by {
          assert [v][..0] == [];
        }
      }
    match Json.Get(d.fields, "tool_calls")
    case None =>
    case Some(t) =>
      assert Json.Index(d, "tool_calls") == Success(t);
  }

  lemma {:induction false} AddChoicesWellShaped(a: Aggregate, cs: seq<Json.Value>)
    requires forall k :: 0 <= k < |cs| ==> WellShapedChoice(cs[k])
    ensures AddChoices(a, cs) == Added(GrownBy(a, ChoiceText, ChoiceCalls, cs), None)
    decreases |cs|
  {
    if |cs| > 0 {
      AddChoiceWellShaped(a, cs[0]);
      AddChoicesWellShaped(Grown(a, ChoiceText(cs[0]), ChoiceCalls(cs[0])), cs[1..]);
    }
  }

  /** Taking the choices one at a time appends all their texts and tool calls, in order. */
  lemma GrownTwice(a: Aggregate, t1: seq<Json.Value>, c1: seq<Json.Value>, t2: seq<Json.Value>, c2: seq<Json.Value>)
    ensures Grown(Grown(a, t1, c1), t2, c2) == Grown(a, t1 + t2, c1 + c2)
  {
    SumSizesConcat(t1, t2);
    assert a.buffer + t1 + t2 == a.buffer + (t1 + t2);
    assert a.toolCalls + c1 + c2 == a.toolCalls + (c1 + c2);
  }

  lemma {:induction false} GrownByAppends(a: Aggregate, text: Json.Value -> seq<Json.Value>, calls: Json.Value -> seq<Json.Value>, cs: seq<Json.Value>)
    ensures GrownBy(a, text, calls, cs) == Grown(a, FlatMap(text, cs), FlatMap(calls, cs))
    decreases |cs|
  {
    if |cs| == 0 {
      assert a.buffer + [] == a.buffer && a.toolCalls + [] == a.toolCalls;
    } else {
      var t, c := text(cs[0]), calls(cs[0]);
      GrownByAppends(Grown(a, t, c), text, calls, cs[1..]);
      GrownTwice(a, t, c, FlatMap(text, cs[1..]), FlatMap(calls, cs[1..]));
    }
  }

  lemma {:induction false} SumSizesConcat(a: seq<Json.Value>, b: seq<Json.Value>)
    ensures Json.SumSizes(a + b) == Json.SumSizes(a) + Json.SumSizes(b)
    decreases |b|
  {
    if |b| == 0 {
      assert a + b == a;
    } else {
      assert (a + b)[..|a + b| - 1] == a + b[..|b| - 1];
      SumSizesConcat(a, b[..|b| - 1]);
    }
  }

  /**
   * On a chunk of the documented shape `add_chunk` does not raise: it
   * appends the non-empty contents in order (an empty or missing content
   * leaves buffer and size alone), adds their lengths to the size, extends
   * the tool calls in order, and records `id` and `model`.
   */
  lemma AddChunkWellShaped(a: Aggregate, chunk: Json.Fields)
    requires WellShapedChunk(chunk)
    ensures var cs := ChoicesOf(chunk);
      Absorb(a, chunk) == Added(Aggregate(a.buffer + Texts(cs), a.totalSize + Json.SumSizes(Texts(cs)),
                                          a.toolCalls + Calls(cs), RecordMetadata(a.metadata, chunk)), None)
  {
    var cs := ChoicesOf(chunk);
    if "choices" in Json.Keys(chunk) {
      assert Json.Iterate(Json.Get(chunk, "choices").value) == Success(cs);
      AddChoicesWellShaped(a, cs);
      GrownByAppends(a, ChoiceText, ChoiceCalls, cs);
    } else {
      assert cs == [];
      assert a.buffer + [] == a.buffer && a.toolCalls + [] == a.toolCalls;
    }
  }

  /** `id` and `model` are last-write-wins; no other metadata key changes. */
  lemma RecordMetadataLastWins(m: Json.Fields, chunk: Json.Fields, k: string)
    ensures Json.Get(RecordMetadata(m, chunk), k)
         == if (k == "id" || k == "model") && k in Json.Keys(chunk) then Json.Get(chunk, k) else Json.Get(m, k)
  {
    var m1 := if "id" in Json.Keys(chunk) then Json.Put(m, "id", Json.Get(chunk, "id").value) else m;
    if "id" in Json.Keys(chunk) {
      if k == "id" { Json.GetPutSame(m, "id", Json.Get(chunk, "id").value); }
      else { Json.GetPutOther(m, "id", Json.Get(chunk, "id").value, k); }
    }
    if "model" in Json.Keys(chunk) {
      if k == "model" { Json.GetPutSame(m1, "model", Json.Get(chunk, "model").value); }
      else { Json.GetPutOther(m1, "model", Json.Get(chunk, "model").value, k); }
    }
  }

  /** The loop of `add_chunk` over the choices, on the aggregator's fields taken as one value. */
  method AddChunkTo(a: Aggregate, chunk: Json.Fields) returns (r: Added)
    ensures r == Absorb(a, chunk)
  {
    if "choices" in Json.Keys(chunk) {
      var choices := Json.Iterate(Json.Get(chunk, "choices").value);
      if choices.Failure? {
        return Added(a, Some(choices.error));
      }
      var cur := a;
      var i := 0;
      while i < |choices.value|
        invariant 0 <= i <= |choices.value|
        invariant AddChoices(a, choices.value) == AddChoices(cur, choices.value[i..])
      {
        var step := AddChoice(cur, choices.value[i]);
        assert choices.value[i..][1..] == choices.value[i + 1..];
        if step.raised.Some? {
          return step;
        }
        cur := step.agg;
        i := i + 1;
      }
      return Added(Aggregate(cur.buffer, cur.totalSize, cur.toolCalls, RecordMetadata(cur.metadata, chunk)), None);
    }
    return Added(Aggregate(a.buffer, a.totalSize, a.toolCalls, RecordMetadata(a.metadata, chunk)), None);
  }

  class ChunkAggregator {
    var buffer: seq<Json.Value>
    const maxBufferSize: int
    var totalSize: int
    var toolCalls: seq<Json.Value>
    var metadata: Json.Fields

    function State(): Aggregate
      reads this
    {
      Aggregate(buffer, totalSize, toolCalls, metadata)
    }

    ghost predicate Valid()
      reads this
    {
      Sized(State())
    }

    constructor(maxBufferSize: int)
      ensures Valid() && State() == EmptyAggregate && this.maxBufferSize == maxBufferSize
    {
      buffer, totalSize, toolCalls, metadata := [], 0, [], [];
      this.maxBufferSize := maxBufferSize;
    }

    /** Fullness is reported, never enforced: `AddChunk` takes chunks whatever the size. */
    predicate IsFull()
      reads this
    {
      totalSize >= maxBufferSize
    }

    method AddChunk(chunk: Json.Fields) returns (raised: Option<string>)
      requires Valid()
      modifies this
      ensures Valid()
      ensures Added(State(), raised) == Absorb(old(State()), chunk)
    {
      var r := AddChunkTo(State(), chunk);
      AddChunkKeepsSize(State(), chunk);
      buffer, totalSize, toolCalls, metadata := r.agg.buffer, r.agg.totalSize, r.agg.toolCalls, r.agg.metadata;
      raised := r.raised;
    }

    /** `''.join(buffer)`: the buffered contents in arrival order, or the error of the first non-string. */
    function GetAggregated(): (r: Result<string, string>)
      reads this
      ensures r.Success? <==> Json.AllStr(buffer)
      ensures r.Success? ==> r.value == Text.Concat(Json.Strs(buffer))
    {
      Json.JoinStr(buffer)
    }

    /** The tool calls gathered so far, in arrival order. */
    function GetToolCalls(): (r: seq<Json.Value>)
      reads this
      ensures |r| == |toolCalls| && forall i :: 0 <= i < |r| ==> r[i] == toolCalls[i]
    {
      toolCalls
    }

    method Clear()
      modifies this
      ensures Valid() && State() == EmptyAggregate
      ensures !IsFull() <==> maxBufferSize > 0
    {
      buffer, toolCalls, totalSize, metadata := [], [], 0, [];
    }
  }

  // ---- SSEStreamer.stream_response ----

  const DefaultRetryMs := 3000
  const DefaultPingIntervalSeconds := 30
  const DefaultMaxRetries := 3

  /** The streamer's aggregator, event id and error count. */
  datatype StreamerState = StreamerState(agg: Aggregate, eventId: nat, errorCount: nat)

  function InitEvent(retryMs: int): StreamEvent
  {
    StreamEvent(Message, Json.Obj([("type", Json.Str("init")), ("retry", Json.Int(retryMs))]), None, Some(retryMs))
  }

  function DeltaEvent(chunk: Json.Fields, id: nat): StreamEvent
  {
    StreamEvent(Delta, Json.Obj(chunk), Some(Text.NatToString(id)), None)
  }

  function RecoverableEvent(message: string, attempt: int): StreamEvent
  {
    StreamEvent(Error, Json.Obj([("error", Json.Str(message)), ("recoverable", Json.Bool(true)), ("attempt", Json.Int(attempt))]), None, None)
  }

  function FatalEvent(message: string): StreamEvent
  {
    StreamEvent(Error, Json.Obj([("error", Json.Str(message)), ("recoverable", Json.Bool(false))]), None, None)
  }

  function CompleteEvent(content: string, a: Aggregate, id: nat): StreamEvent
  {
    StreamEvent(Complete, Json.Obj([("content", Json.Str(content)), ("tool_calls", Json.Arr(a.toolCalls)), ("metadata", Json.Obj(a.metadata))]),
                Some(Text.NatToString(id)), None)
  }

  /** The state after some chunks, the events they produced, and whether a fatal error ended the loop. */
  datatype Streamed = Streamed(state: StreamerState, events: seq<StreamEvent>, stopped: bool)

  /**
   * One chunk: a chunk the aggregator takes becomes a delta event with the
   * current id, which then advances, and the error count returns to 0; a
   * chunk that raises counts one more error, which is recoverable while the
   * count is at most `maxRetries` and fatal after that.
   */
  function ChunkStep(maxRetries: int, s: StreamerState, chunk: Json.Fields): Streamed
  {
    var r := Absorb(s.agg, chunk);
    match r.raised
    case None => Streamed(StreamerState(r.agg, s.eventId + 1, 0), [DeltaEvent(chunk, s.eventId)], false)
    case Some(message) =>
      var n := s.errorCount + 1;
      if n <= maxRetries then Streamed(StreamerState(r.agg, s.eventId, n), [RecoverableEvent(message, n)], false)
      else Streamed(StreamerState(r.agg, s.eventId, n), [FatalEvent(message)], true)
  }

  function Prepended(evs: seq<StreamEvent>, r: Streamed): Streamed
  {
    Streamed(r.state, evs + r.events, r.stopped)
  }

  /** The loop over the chunks, left at the first fatal error. */
  function ChunkEvents(maxRetries: int, s: StreamerState, chunks: seq<Json.Fields>): Streamed
    decreases |chunks|
  {
    if |chunks| == 0 then Streamed(s, [], false)
    else
      var r := ChunkStep(maxRetries, s, chunks[0]);
      if r.stopped then r else Prepended(r.events, ChunkEvents(maxRetries, r.state, chunks[1..]))
  }

  /** The closing complete event, or the exception `''.join` raises on a non-string content. */
  function Completion(s: StreamerState, includeAggregation: bool): (seq<StreamEvent>, Option<string>)
  {
    if !includeAggregation then ([], None)
    else
      match Json.JoinStr(s.agg.buffer)
      case Failure(e) => ([], Some(e))
      case Success(content) => ([CompleteEvent(content, s.agg, s.eventId)], None)
  }

  /** Everything one call of `stream_response` yields, the state it leaves, and what it raises. */
  datatype Transcript = Transcript(state: StreamerState, events: seq<StreamEvent>, raised: Option<string>)

  function StreamTranscript(retryMs: int, maxRetries: int, s: StreamerState, chunks: seq<Json.Fields>, includeAggregation: bool): Transcript
  {
    var r := ChunkEvents(maxRetries, s, chunks);
    var (tail, raised) := Completion(r.state, includeAggregation);
    Transcript(r.state, [InitEvent(retryMs)] + r.events + tail, raised)
  }

  /** The delta events among `evs`, in order. */
  function Deltas(evs: seq<StreamEvent>): seq<StreamEvent>
  {
    if |evs| == 0 then [] else (if evs[0].event == Delta then [evs[0]] else []) + Deltas(evs[1..])
  }

  lemma {:induction false} DeltasAppend(a: seq<StreamEvent>, b: seq<StreamEvent>)
    ensures Deltas(a + b) == Deltas(a) + Deltas(b)
    decreases |a|
  {
    if |a| == 0 {
      assert a + b == b;
    } else {
      assert (a + b)[1..] == a[1..] + b;
      DeltasAppend(a[1..], b);
    }
  }

  /**
   * Delta events carry consecutive ids starting at the streamer's current
   * id, and the id afterwards is one past the last delta's: errors consume
   * no id.
   */
  lemma ChunkStepIds(maxRetries: int, s: StreamerState, chunk: Json.Fields)
    ensures var step := ChunkStep(maxRetries, s, chunk);
      step.state.eventId == s.eventId + |Deltas(step.events)|
      && forall k :: 0 <= k < |Deltas(step.events)| ==> Deltas(step.events)[k].id == Some(Text.NatToString(s.eventId + k))
  {
    var step := ChunkStep(maxRetries, s, chunk);
    assert |step.events| == 1 && step.events[1..] == [];
  }

  lemma {:induction false} DeltaIdsConsecutive(maxRetries: int, s: StreamerState, chunks: seq<Json.Fields>)
    ensures var r := ChunkEvents(maxRetries, s, chunks);
      r.state.eventId == s.eventId + |Deltas(r.events)|
      && forall k :: 0 <= k < |Deltas(r.events)| ==> Deltas(r.events)[k].id == Some(Text.NatToString(s.eventId + k))
    decreases |chunks|
  {
    if |chunks| > 0 {
      var step := ChunkStep(maxRetries, s, chunks[0]);
      ChunkStepIds(maxRetries, s, chunks[0]);
      if !step.stopped {
        var rest := ChunkEvents(maxRetries, step.state, chunks[1..]);
        DeltaIdsConsecutive(maxRetries, step.state, chunks[1..]);
        DeltasAppend(step.events, rest.events);
      }
    }
  }

  /** An error event that tells the client the stream goes on, numbering attempts 1 to `maxRetries`. */
  ghost predicate IsRecoverable(e: StreamEvent, maxRetries: int)
  {
    exists message: string, n: int :: 1 <= n <= maxRetries && e == RecoverableEvent(message, n)
  }

  ghost predicate IsFatal(e: StreamEvent)
  {
    exists message: string :: e == FatalEvent(message)
  }

  /** The error events of `evs` are recoverable, except a fatal last one when `stopped`. */
  ghost predicate ErrorsFollowPolicy(evs: seq<StreamEvent>, stopped: bool, maxRetries: int)
  {
    (forall k :: 0 <= k < |evs| && evs[k].event == Error ==>
       if stopped && k == |evs| - 1 then IsFatal(evs[k]) else IsRecoverable(evs[k], maxRetries))
    && (stopped ==> |evs| > 0 && IsFatal(evs[|evs| - 1]))
  }

  lemma ChunkStepPolicy(maxRetries: int, s: StreamerState, chunk: Json.Fields)
    ensures var r := ChunkStep(maxRetries, s, chunk); |r.events| == 1 && ErrorsFollowPolicy(r.events, r.stopped, maxRetries)
  {
    var r := Absorb(s.agg, chunk);
    if r.raised.Some? {
      var n := s.errorCount + 1;
      if n <= maxRetries {
        assert 1 <= n <= maxRetries && RecoverableEvent(r.raised.value, n) == RecoverableEvent(r.raised.value, n);
      } else {
        assert FatalEvent(r.raised.value) == FatalEvent(r.raised.value);
      }
    }
  }

  lemma PolicyPrepend(x: StreamEvent, rest: seq<StreamEvent>, stopped: bool, maxRetries: int)
    requires ErrorsFollowPolicy([x], false, maxRetries)
    requires ErrorsFollowPolicy(rest, stopped, maxRetries)
    ensures ErrorsFollowPolicy([x] + rest, stopped, maxRetries)
  {
    var all := [x] + rest;
    forall k | 0 <= k < |all| && all[k].event == Error
      ensures if stopped && k == |all| - 1 then IsFatal(all[k]) else IsRecoverable(all[k], maxRetries)
    {
      if k > 0 {
        assert all[k] == rest[k - 1];
      }
    }
  }

  /**
   * Every error event of the loop is recoverable, numbering its attempt
   * between 1 and `maxRetries`, except a fatal one, which is the loop's last
   * event: a fatal error ends the loop.
   */
  lemma {:induction false} ErrorPolicy(maxRetries: int, s: StreamerState, chunks: seq<Json.Fields>)
    ensures var r := ChunkEvents(maxRetries, s, chunks); ErrorsFollowPolicy(r.events, r.stopped, maxRetries)
    decreases |chunks|
  {
    if |chunks| > 0 {
      var step := ChunkStep(maxRetries, s, chunks[0]);
      ChunkStepPolicy(maxRetries, s, chunks[0]);
      if !step.stopped {
        var rest := ChunkEvents(maxRetries, step.state, chunks[1..]);
        ErrorPolicy(maxRetries, step.state, chunks[1..]);
        PolicyPrepend(step.events[0], rest.events, rest.stopped, maxRetries);
        assert step.events == [step.events[0]];
      }
    }
  }

  /**
   * A call of `stream_response` yields the init event first, carrying the
   * retry interval both as `retry:` and in its data; with aggregation on and
   * all contents strings, it closes with a complete event whose id is the
   * next one, one past the last delta's.
   */
  lemma TranscriptShape(retryMs: int, maxRetries: int, s: StreamerState, chunks: seq<Json.Fields>, includeAggregation: bool)
    ensures var t := StreamTranscript(retryMs, maxRetries, s, chunks, includeAggregation);
      var r := ChunkEvents(maxRetries, s, chunks);
      t.events[0] == InitEvent(retryMs) && t.events[0].retry == Some(retryMs)
      && (includeAggregation && t.raised.None? ==>
            t.events[|t.events| - 1].event == Complete
            && t.events[|t.events| - 1].id == Some(Text.NatToString(s.eventId + |Deltas(r.events)|)))
      && (!includeAggregation ==> t.events == [InitEvent(retryMs)] + r.events && t.raised.None?)
  {
    DeltaIdsConsecutive(maxRetries, s, chunks);
  }

  class SSEStreamer {
    const retryMs: int
    const pingIntervalSeconds: int
    const maxRetries: int
    const aggregator: ChunkAggregator
    var eventId: nat
    var errorCount: nat

    function State(): StreamerState
      reads this, aggregator
    {
      StreamerState(aggregator.State(), eventId, errorCount)
    }

    ghost predicate Valid()
      reads this, aggregator
    {
      aggregator.Valid()
    }

    constructor(retryMs: int, pingIntervalSeconds: int, maxRetries: int)
      ensures Valid() && fresh(aggregator)
      ensures State() == StreamerState(EmptyAggregate, 0, 0) && aggregator.maxBufferSize == DefaultMaxBufferSize
      ensures this.retryMs == retryMs && this.pingIntervalSeconds == pingIntervalSeconds && this.maxRetries == maxRetries
    {
      this.retryMs := retryMs;
      this.pingIntervalSeconds := pingIntervalSeconds;
      this.maxRetries := maxRetries;
      aggregator := new ChunkAggregator(DefaultMaxBufferSize);
      eventId, errorCount := 0, 0;
    }

    /** The body of `stream_response`'s loop for one chunk. */
    method Step(chunk: Json.Fields) returns (evs: seq<StreamEvent>, stop: bool)
      requires Valid()
      modifies this, aggregator
      ensures Valid()
      ensures Streamed(State(), evs, stop) == ChunkStep(maxRetries, old(State()), chunk)
    {
      var err := aggregator.AddChunk(chunk);
      stop := false;
      if err.None? {
        evs := [DeltaEvent(chunk, eventId)];
        eventId := eventId + 1;
        errorCount := 0;
      } else {
        errorCount := errorCount + 1;
        if errorCount <= maxRetries {
          evs := [RecoverableEvent(err.value, errorCount)];
        } else {
          evs := [FatalEvent(err.value)];
          stop := true;
        }
      }
    }

    /**
     * `stream_response` over a finite sequence of chunks: the events it
     * yields, in order (each is sent as `ToSse` of it), and the exception
     * that escapes it, if any.
     */
    method StreamResponse(chunks: seq<Json.Fields>, includeAggregation: bool) returns (events: seq<StreamEvent>, raised: Option<string>)
      requires Valid()
      modifies this, aggregator
      ensures Valid()
      ensures Transcript(State(), events, raised) == StreamTranscript(retryMs, maxRetries, old(State()), chunks, includeAggregation)
    {
      ghost var s0 := State();
      var evs: seq<StreamEvent> := [];
      var i := 0;
      var stopped := false;
      while i < |chunks| && !stopped
        invariant 0 <= i <= |chunks|
        invariant Valid()
        invariant ChunkEvents(maxRetries, s0, chunks)
               == if stopped then Streamed(State(), evs, true) else Prepended(evs, ChunkEvents(maxRetries, State(), chunks[i..]))
      {
        ghost var before := State();
        var step, stop := Step(chunks[i]);
        ChunkEventsStep(maxRetries, before, chunks, i, evs);
        evs := evs + step;
        stopped := stop;
        i := i + 1;
      }
      ghost var r := ChunkEvents(maxRetries, s0, chunks);
      assert r == Streamed(State(), evs, stopped) by {
        if !stopped {
          assert chunks[i..] == [];
        }
      }
      events := [InitEvent(retryMs)] + evs;
      raised := None;
      if includeAggregation {
        var content := aggregator.GetAggregated();
        if content.Failure? {
          raised := Some(content.error);
        } else {
          events := events + [CompleteEvent(content.value, aggregator.State(), eventId)];
        }
      }
    }
  }

  /** One more chunk consumed by `stream_response`'s loop. */
  lemma ChunkEventsStep(maxRetries: int, s: StreamerState, chunks: seq<Json.Fields>, i: nat, evs: seq<StreamEvent>)
    requires i < |chunks|
    ensures var step := ChunkStep(maxRetries, s, chunks[i]);
      Prepended(evs, ChunkEvents(maxRetries, s, chunks[i..]))
      == if step.stopped then Streamed(step.state, evs + step.events, true)
         else Prepended(evs + step.events, ChunkEvents(maxRetries, step.state, chunks[i + 1..]))
  {
    assert chunks[i..][0] == chunks[i];
    assert chunks[i..][1..] == chunks[i + 1..];
  }
}
