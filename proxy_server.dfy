// The conversation store of the first MCP proxy server: a module-level
// dictionary from session id to its message history, and the `ask_poe` tool
// that sends the history plus a new prompt to a bot and records the exchange
// once the whole answer has arrived.
//
// The bot's streamed answer is an input: the partial texts it yields and,
// when the stream fails, the error (already mapped by the server's exception
// handler) raised after those partials. Fresh session ids are inputs.
module ProxyServer {
  import opened Wrappers
  import Text

  datatype Message = Message(role: string, content: string)

  type Sessions = map<string, seq<Message>>

  /** What the exception handler reports for a failure. */
  datatype ErrorInfo = ErrorInfo(error: string, message: string)

  /** The bot's stream: partial texts, then either the end or a failure. */
  datatype BotStream = BotStream(partials: seq<string>, failure: Option<ErrorInfo>)

  /** The dictionary `ask_poe` returns. */
  datatype AskResult =
    | Answer(text: string, sessionId: string)
    | Failed(error: string, message: string, sessionId: string)

  /** The dictionary `clear_session` returns. */
  datatype Status = Status(status: string, message: string)

  function Exchange(userMessage: string, botMessage: string): seq<Message>
  {
    [Message("user", userMessage), Message("assistant", botMessage)]
  }

  ghost predicate OthersUnchanged(before: Sessions, after: Sessions, id: string)
  {
    forall k :: k != id ==> (k in after <==> k in before) && (k in after ==> after[k] == before[k])
  }

  /** `_get_or_create_session`: the store afterwards and the id to use. */
  function GetOrCreate(s: Sessions, id: Option<string>, freshId: string): (Sessions, string)
  {
    if id.Some? && id.value != "" && id.value in s then (s, id.value)
    else (s[freshId := []], freshId)
  }

  /**
   * A known id is returned as it is and nothing changes; otherwise a fresh id
   * mapped to an empty history is returned, even when an unknown id was
   * supplied, which is never reused.
   */
  lemma GetOrCreateCases(s: Sessions, id: Option<string>, freshId: string)
    ensures var (r, sid) := GetOrCreate(s, id, freshId);
      && sid in r
      && (id.Some? && id.value != "" && id.value in s ==> sid == id.value && r == s)
      && (id.None? || id.value == "" || id.value !in s ==> sid == freshId && r[sid] == [] && OthersUnchanged(s, r, sid))
  {
  }

  /** `_update_session`: a missing session is created first, then the exchange appended. */
  function UpdatedStore(s: Sessions, id: string, userMessage: string, botMessage: string): (r: Sessions)
    ensures id in r && OthersUnchanged(s, r, id)
    ensures r[id] == (if id in s then s[id] else []) + [Message("user", userMessage), Message("assistant", botMessage)]
  {
    var history := if id in s then s[id] else [];
    s[id := history + Exchange(userMessage, botMessage)]
  }

  /** `clear_session`: success and removal for a present id; an error and no change otherwise. */
  function Cleared(s: Sessions, id: string): (r: (Sessions, Status))
    ensures id !in r.0 && OthersUnchanged(s, r.0, id)
    ensures r.1.status == "success" <==> id in s
    ensures id !in s ==> r == (s, Status("error", "Session " + id + " not found"))
  {
    if id in s then (s - {id}, Status("success", "Session " + id + " cleared"))
    else (s, Status("error", "Session " + id + " not found"))
  }

  /** The messages `ask_poe` sends: a copy of the stored history, then the prompt. */
  function Sent(s: Sessions, sid: string, prompt: string): seq<Message>
  {
    (if sid in s then s[sid] else []) + [Message("user", prompt)]
  }

  /**
   * `ask_poe`: the store afterwards, the messages sent and the result. The
   * session is looked up or created first; the exchange is stored only after
   * the stream has ended without failure.
   */
  function Ask(s: Sessions, prompt: string, id: Option<string>, freshId: string, stream: BotStream): (Sessions, seq<Message>, AskResult)
  {
    var (t, sid) := GetOrCreate(s, id, freshId);
    var sent := Sent(t, sid, prompt);
    if stream.failure.Some? then
      (t, sent, Failed(stream.failure.value.error, stream.failure.value.message, id.UnwrapOr("")))
    else
      var full := Text.Concat(stream.partials);
      (UpdatedStore(t, sid, prompt, full), sent, Answer(full, sid))
  }

  /**
   * The bot sees the session's whole history followed by the prompt. On
   * success the answer is the partial texts concatenated, and the history
   * grows by exactly the prompt and that answer. On failure the history is
   * untouched, though a session created for the call stays behind, and the
   * result names the supplied id, not the one created.
   */
  lemma AskRecordsExchange(s: Sessions, prompt: string, id: Option<string>, freshId: string, stream: BotStream)
    requires freshId !in s
    ensures var (r, sent, result) := Ask(s, prompt, id, freshId, stream);
      var sid := GetOrCreate(s, id, freshId).1;
      && sent == (if sid in s then s[sid] else []) + [Message("user", prompt)]
      && (stream.failure.None? ==> (result == Answer(Text.Concat(stream.partials), sid)
            && r[sid] == sent + [Message("assistant", Text.Concat(stream.partials))]
            && OthersUnchanged(s, r, sid)))
      && (stream.failure.Some? ==> (result.Failed? && result.sessionId == id.UnwrapOr("")
            && (sid in s ==> r == s) && (sid !in s ==> r == s[sid := []])))
  {
    var (t, sid) := GetOrCreate(s, id, freshId);
    if stream.failure.None? {
      var full := Text.Concat(stream.partials);
      assert Sent(t, sid, prompt) + [Message("assistant", full)] == t[sid] + Exchange(prompt, full);
    }
  }

  class Server {
    /** The module-level `sessions` dictionary. */
    var sessions: Sessions

    constructor ()
      ensures sessions == map[]
    {
      sessions := map[];
    }

    method GetOrCreateSession(id: Option<string>, freshId: string) returns (sid: string)
      modifies this
      ensures (sessions, sid) == GetOrCreate(old(sessions), id, freshId)
    {
      if id.Some? && id.value != "" && id.value in sessions {
        return id.value;
      }
      sid := freshId;
      sessions := sessions[sid := []];
    }

    method UpdateSession(id: string, userMessage: string, botMessage: string)
      modifies this
      ensures sessions == UpdatedStore(old(sessions), id, userMessage, botMessage)
    {
      if id !in sessions {
        sessions := sessions[id := []];
      }
      ghost var history := sessions[id];
      sessions := sessions[id := sessions[id] + [Message("user", userMessage)]];
      sessions := sessions[id := sessions[id] + [Message("assistant", botMessage)]];
      assert sessions[id] == history + Exchange(userMessage, botMessage);
    }

    method ClearSession(id: string) returns (result: Status)
      modifies this
      ensures (sessions, result) == Cleared(old(sessions), id)
    {
      if id in sessions {
        sessions := sessions - {id};
        return Status("success", "Session " + id + " cleared");
      }
      return Status("error", "Session " + id + " not found");
    }

    method AskPoe(prompt: string, id: Option<string>, freshId: string, stream: BotStream)
      returns (sent: seq<Message>, result: AskResult)
      modifies this
      ensures (sessions, sent, result) == Ask(old(sessions), prompt, id, freshId, stream)
    {
      var sid := GetOrCreateSession(id, freshId);
      ghost var afterLookup := sessions;
      var messages: seq<Message> := [];
      if sid in sessions {
        messages := sessions[sid];
      }
      messages := messages + [Message("user", prompt)];
      sent := messages;
      assert sent == Sent(sessions, sid, prompt);
      var fullResponse := "";
      var i := 0;
      while i < |stream.partials|
        invariant 0 <= i <= |stream.partials|
        invariant fullResponse == Text.Concat(stream.partials[..i])
        invariant sessions == afterLookup
      {
        Text.ConcatAppend(stream.partials[..i], stream.partials[i]);
        assert stream.partials[..i + 1] == stream.partials[..i] + [stream.partials[i]];
        fullResponse := fullResponse + stream.partials[i];
        i := i + 1;
      }
      assert stream.partials[..i] == stream.partials;
      if stream.failure.Some? {
        return sent, Failed(stream.failure.value.error, stream.failure.value.message, id.UnwrapOr(""));
      }
      UpdateSession(sid, prompt, fullResponse);
      result := Answer(fullResponse, sid);
    }
  }
}
