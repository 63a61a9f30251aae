// The session store of the second-generation POE client: a dictionary from
// session id to its message dictionaries and last access time. Unlike the
// first store, lookups never check expiry; only the sweep removes sessions.
//
// Time is an integer number of milliseconds passed in by the caller (the
// event loop's clock); a fresh session id (a random UUID) is an input.
module SessionV2 {
  import Session

  /** A `{"role": ..., "content": ...}` message dictionary. */
  datatype Message = Message(role: string, content: string)

  datatype SessionData = SessionData(messages: seq<Message>, lastAccessMs: int)

  type Sessions = map<string, SessionData>

  /** The sweep's test: strictly more than the expiry time since the last access. */
  predicate Stale(session: SessionData, expirySeconds: int, nowMs: int)
  {
    nowMs - session.lastAccessMs > expirySeconds * 1000
  }

  ghost predicate OthersUnchanged(before: Sessions, after: Sessions, id: string)
  {
    forall k :: k != id ==> (k in after <==> k in before) && (k in after ==> after[k] == before[k])
  }

  /** `get_or_create_session`: the store afterwards and the id returned. */
  function GetOrCreate(s: Sessions, id: string, freshId: string, nowMs: int): (Sessions, string)
  {
    if id != "" && id in s then (s[id := s[id].(lastAccessMs := nowMs)], id)
    else (s[freshId := SessionData([], nowMs)], freshId)
  }

  /**
   * A known id is returned touched, however long ago it was last used; any
   * other id, the empty one included, gets a new session with no messages.
   * Only the returned session changes.
   */
  lemma GetOrCreateCases(s: Sessions, id: string, freshId: string, nowMs: int)
    ensures var (r, sid) := GetOrCreate(s, id, freshId, nowMs);
      && sid in r && r[sid].lastAccessMs == nowMs && OthersUnchanged(s, r, sid)
      && (id != "" && id in s ==> sid == id && r[sid].messages == s[id].messages)
      && (id == "" || id !in s ==> sid == freshId && r[sid].messages == [])
  {
  }

  /** `get_messages`: the store afterwards and the messages returned. */
  function MessagesOf(s: Sessions, id: string, nowMs: int): (r: (Sessions, seq<Message>))
    ensures id in s ==> r.1 == s[id].messages && id in r.0 && r.0[id].lastAccessMs == nowMs && OthersUnchanged(s, r.0, id)
    ensures id !in s ==> r == (s, [])
  {
    if id in s then (s[id := s[id].(lastAccessMs := nowMs)], s[id].messages) else (s, [])
  }

  function Exchange(userMessage: string, botMessage: string): seq<Message>
  {
    [Message("user", userMessage), Message("assistant", botMessage)]
  }

  /** `update_session`: the store afterwards and whether the session was found. */
  function Updated(s: Sessions, id: string, userMessage: string, botMessage: string, nowMs: int): (Sessions, bool)
  {
    if id in s then (s[id := SessionData(s[id].messages + Exchange(userMessage, botMessage), nowMs)], true)
    else (s, false)
  }

  /**
   * An update succeeds iff the id is present, with no expiry check; it
   * appends the user message, then the assistant message, and touches the
   * session; an unknown id changes nothing.
   */
  lemma UpdateCases(s: Sessions, id: string, userMessage: string, botMessage: string, nowMs: int)
    ensures var (r, ok) := Updated(s, id, userMessage, botMessage, nowMs);
      && (ok <==> id in s)
      && (ok ==> (r[id].messages == s[id].messages + [Message("user", userMessage), Message("assistant", botMessage)]
                  && r[id].lastAccessMs == nowMs && OthersUnchanged(s, r, id)))
      && (!ok ==> r == s)
  {
  }

  function Survivors(s: Sessions, expirySeconds: int, nowMs: int): Sessions
  {
    map k | k in s && !Stale(s[k], expirySeconds, nowMs) :: s[k]
  }

  function StaleIds(s: Sessions, expirySeconds: int, nowMs: int): set<string>
  {
    set k | k in s && Stale(s[k], expirySeconds, nowMs)
  }

  /**
   * The sweep keeps exactly the sessions used within the expiry time,
   * unchanged; the count it reports plus the survivors is the old size.
   */
  lemma SweepPartition(s: Sessions, expirySeconds: int, nowMs: int)
    ensures forall k :: k in Survivors(s, expirySeconds, nowMs) <==> k in s && nowMs - s[k].lastAccessMs <= expirySeconds * 1000
    ensures forall k :: k in Survivors(s, expirySeconds, nowMs) ==> Survivors(s, expirySeconds, nowMs)[k] == s[k]
    ensures |Survivors(s, expirySeconds, nowMs)| + |StaleIds(s, expirySeconds, nowMs)| == |s|
  {
    var keep, gone := Survivors(s, expirySeconds, nowMs).Keys, StaleIds(s, expirySeconds, nowMs);
    assert keep + gone == s.Keys;
    assert keep * gone == {};
    assert |keep + gone| == |keep| + |gone| - |keep * gone|;
    assert |s.Keys| == |s|;
  }

  /** Sweeping twice at the same time removes nothing more. */
  lemma SweepIdempotent(s: Sessions, expirySeconds: int, nowMs: int)
    ensures Survivors(Survivors(s, expirySeconds, nowMs), expirySeconds, nowMs) == Survivors(s, expirySeconds, nowMs)
    ensures StaleIds(Survivors(s, expirySeconds, nowMs), expirySeconds, nowMs) == {}
  {
  }

  lemma {:induction false} DistinctCount(ids: seq<string>)
    requires forall i, j :: 0 <= i < j < |ids| ==> ids[i] != ids[j]
    ensures |set k | k in ids| == |ids|
  {
    if |ids| > 0 {
      var front := ids[..|ids| - 1];
      DistinctCount(front);
      assert (set k | k in ids) == (set k | k in front) + {ids[|ids| - 1]};
    }
  }

  class SessionManager {
    var sessions: Sessions
    const expiryMinutes: int
    const expirySeconds: int

    constructor (expiryMinutes: int)
      ensures sessions == map[] && this.expiryMinutes == expiryMinutes
      ensures expirySeconds == expiryMinutes * 60
    {
      sessions := map[];
      this.expiryMinutes := expiryMinutes;
      expirySeconds := expiryMinutes * 60;
    }

    method GetOrCreateSession(id: string, freshId: string, nowMs: int) returns (sid: string)
      modifies this
      ensures (sessions, sid) == GetOrCreate(old(sessions), id, freshId, nowMs)
    {
      if id != "" && id in sessions {
        sessions := sessions[id := sessions[id].(lastAccessMs := nowMs)];
        return id;
      }
      sid := freshId;
      sessions := sessions[sid := SessionData([], nowMs)];
    }

    method GetMessages(id: string, nowMs: int) returns (messages: seq<Message>)
      modifies this
      ensures (sessions, messages) == MessagesOf(old(sessions), id, nowMs)
    {
      if id in sessions {
        sessions := sessions[id := sessions[id].(lastAccessMs := nowMs)];
        return sessions[id].messages;
      }
      return [];
    }

    method UpdateSession(id: string, userMessage: string, botMessage: string, nowMs: int) returns (updated: bool)
      modifies this
      ensures (sessions, updated) == Updated(old(sessions), id, userMessage, botMessage, nowMs)
    {
      if id in sessions {
        var messages := sessions[id].messages + [Message("user", userMessage)];
        messages := messages + [Message("assistant", botMessage)];
        assert messages == old(sessions)[id].messages + Exchange(userMessage, botMessage);
        sessions := sessions[id := SessionData(messages, nowMs)];
        return true;
      }
      return false;
    }

    method DeleteSession(id: string) returns (deleted: bool)
      modifies this
      ensures (sessions, deleted) == Session.Deleted(old(sessions), id)
    {
      if id in sessions {
        sessions := sessions - {id};
        return true;
      }
      return false;
    }

    /** Collects the stale ids in one pass over the store, then deletes them. */
    method CleanupExpiredSessions(nowMs: int) returns (count: nat)
      modifies this
      ensures sessions == Survivors(old(sessions), expirySeconds, nowMs)
      ensures count == |StaleIds(old(sessions), expirySeconds, nowMs)|
    {
      var expired: seq<string> := [];
      var pending := sessions.Keys;
      while pending != {}
        invariant pending <= sessions.Keys
        invariant forall k :: k in expired <==> k in sessions && k !in pending && Stale(sessions[k], expirySeconds, nowMs)
        invariant forall i, j :: 0 <= i < j < |expired| ==> expired[i] != expired[j]
        decreases pending
      {
        var id :| id in pending;
        if nowMs - sessions[id].lastAccessMs > expirySeconds * 1000 {
          expired := expired + [id];
        }
        pending := pending - {id};
      }
      assert (set k | k in expired) == StaleIds(sessions, expirySeconds, nowMs);
      DistinctCount(expired);
      ghost var before := sessions;
      var i := 0;
      while i < |expired|
        invariant 0 <= i <= |expired|
        invariant sessions == map k | k in before && k !in expired[..i] :: before[k]
      {
        sessions := sessions - {expired[i]};
        assert expired[..i + 1] == expired[..i] + [expired[i]];
        i := i + 1;
      }
      assert expired[..i] == expired;
      return |expired|;
    }
  }
}
