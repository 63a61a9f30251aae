// How a client reads a text/event-stream, after section 9.2.6 ("Interpreting
// an event stream") of the WHATWG HTML Living Standard: the stream is cut
// into lines, each line is a comment, a field or (when empty) the end of an
// event, and an event is dispatched only when its data buffer is non-empty.
// This is the reference the serialiser in module Streaming is checked against.
module EventStream {
  import opened Wrappers
  import Text

  /** A dispatched event as the client sees it. */
  datatype Event = Event(eventType: string, data: string, lastEventId: string)

  /** The parser's buffers, the stream's reconnection time and the events dispatched so far. */
  datatype Parser = Parser(eventType: string, data: string, lastId: string, reconnectMs: Option<nat>, events: seq<Event>)

  const Initial := Parser("", "", "", None, [])

  predicate NoLineBreak(s: string)
  {
    '\n' !in s && '\r' !in s
  }

  /**
   * The complete lines of `s` (the current line starts with `cur`). A line
   * ends at CRLF, at LF or at CR; text after the last line end is pending
   * and is discarded.
   */
  function LinesFrom(s: string, cur: string): (ls: seq<string>)
    requires NoLineBreak(cur)
    ensures forall k :: 0 <= k < |ls| ==> NoLineBreak(ls[k])
    decreases |s|
  {
    if |s| == 0 then []
    else if s[0] == '\n' then [cur] + LinesFrom(s[1..], "")
    else if s[0] == '\r' then
      if |s| > 1 && s[1] == '\n' then [cur] + LinesFrom(s[2..], "") else [cur] + LinesFrom(s[1..], "")
    else LinesFrom(s[1..], cur + [s[0]])
  }

  /** The lines of a whole stream; one leading BYTE ORDER MARK is skipped. */
  function Lines(s: string): (ls: seq<string>)
    ensures forall k :: 0 <= k < |ls| ==> NoLineBreak(ls[k])
  {
    LinesFrom(if |s| > 0 && s[0] == '\U{feff}' then s[1..] else s, "")
  }

  /** Position of the first `c` in `s`, or `|s|` when there is none. */
  function IndexOf(s: string, c: char): (i: nat)
    ensures i <= |s| && (i < |s| ==> s[i] == c)
    ensures forall j :: 0 <= j < i ==> s[j] != c
  {
    if |s| == 0 then 0 else if s[0] == c then 0 else 1 + IndexOf(s[1..], c)
  }

  /**
   * A field line's name and value: the name runs up to the first colon, the
   * value follows it with one leading space removed; a line without a colon
   * is a name with an empty value.
   */
  function FieldOf(line: string): (string, string)
  {
    var i := IndexOf(line, ':');
    if i == |line| then (line, "")
    else
      var v := line[i + 1..];
      (line[..i], if |v| > 0 && v[0] == ' ' then v[1..] else v)
  }

  function DropFinalLf(s: string): string
  {
    if |s| > 0 && s[|s| - 1] == '\n' then s[..|s| - 1] else s
  }

  /** An empty line: dispatch the buffered event unless its data buffer is empty. */
  function Dispatch(p: Parser): Parser
  {
    if p.data == "" then p.(eventType := "")
    else
      var e := Event(if p.eventType == "" then "message" else p.eventType, DropFinalLf(p.data), p.lastId);
      p.(eventType := "", data := "", events := p.events + [e])
  }

  /**
   * One field. `retry` is taken only when its value is a non-empty run of
   * ASCII digits; `id` is ignored when its value holds a NULL; unknown
   * fields are ignored.
   */
  function Field(p: Parser, name: string, value: string): Parser
  {
    if name == "event" then p.(eventType := value)
    else if name == "data" then p.(data := p.data + value + "\n")
    else if name == "id" then (if '\0' in value then p else p.(lastId := value))
    else if name == "retry" then
      (if value != "" && Text.AllDigits(value) then p.(reconnectMs := Some(Text.ParseDigits(value))) else p)
    else p
  }

  function ProcessLine(p: Parser, line: string): Parser
  {
    if line == "" then Dispatch(p)
    else if line[0] == ':' then p
    else
      var (name, value) := FieldOf(line);
      Field(p, name, value)
  }

  function Fold(p: Parser, lines: seq<string>): Parser
    decreases |lines|
  {
    if |lines| == 0 then p else Fold(ProcessLine(p, lines[0]), lines[1..])
  }

  /** What a client makes of a whole stream. */
  function Parse(s: string): Parser
  {
    Fold(Initial, Lines(s))
  }

  // ---- facts used to read back a serialised event ----

  lemma {:induction false} FoldAppend(p: Parser, a: seq<string>, b: seq<string>)
    ensures Fold(p, a + b) == Fold(Fold(p, a), b)
    decreases |a|
  {
    if |a| > 0 {
      assert (a + b)[1..] == a[1..] + b;
      FoldAppend(ProcessLine(p, a[0]), a[1..], b);
    } else {
      assert a + b == b;
    }
  }

  lemma FoldOne(p: Parser, line: string)
    ensures Fold(p, [line]) == ProcessLine(p, line)
  {
    assert [line][1..] == [];
  }

  /** A piece free of line breaks followed by LF completes the current line. */
  lemma {:induction false} LinesOfPiece(piece: string, rest: string, cur: string)
    requires NoLineBreak(cur) && NoLineBreak(piece)
    ensures LinesFrom(piece + "\n" + rest, cur) == [cur + piece] + LinesFrom(rest, "")
    decreases |piece|
  {
    if |piece| == 0 {
      assert (piece + "\n" + rest)[0] == '\n' && (piece + "\n" + rest)[1..] == rest;
      assert cur + piece == cur;
    } else {
      assert (piece + "\n" + rest)[1..] == piece[1..] + "\n" + rest;
      assert cur + [piece[0]] + piece[1..] == cur + piece;
      LinesOfPiece(piece[1..], rest, cur + [piece[0]]);
    }
  }

  /** Lines joined by LF and closed by a blank line read back as those lines and one empty line. */
  lemma {:induction false} LinesOfFrame(ls: seq<string>)
    requires |ls| >= 1
    requires forall k :: 0 <= k < |ls| ==> NoLineBreak(ls[k])
    ensures LinesFrom(Text.Join(ls, "\n") + "\n\n", "") == ls + [""]
  {
    if |ls| == 1 {
      assert Text.Join(ls, "\n") + "\n\n" == ls[0] + "\n" + "\n";
      LinesOfPiece(ls[0], "\n", "");
      LinesOfPiece("", "", "");
      assert "" + ls[0] == ls[0];
    } else {
      Text.JoinPrepend(ls[0], ls[1..], "\n");
      assert [ls[0]] + ls[1..] == ls;
      assert Text.Join(ls, "\n") + "\n\n" == ls[0] + "\n" + (Text.Join(ls[1..], "\n") + "\n\n");
      LinesOfPiece(ls[0], Text.Join(ls[1..], "\n") + "\n\n", "");
      LinesOfFrame(ls[1..]);
      assert "" + ls[0] == ls[0];
    }
  }

  /** `name: value` splits back into `name` and `value` when the name holds no colon. */
  lemma FieldOfLine(name: string, value: string)
    requires ':' !in name
    ensures FieldOf(name + ": " + value) == (name, value)
  {
    var line := name + ": " + value;
    assert line[|name|] == ':';
    assert forall j :: 0 <= j < |name| ==> line[j] == name[j];
    assert IndexOf(line, ':') == |name|;
    assert line[..|name|] == name;
    assert line[|name| + 1..] == " " + value;
  }
}
