// The session store of the POE client: a dictionary from session id to a
// record of messages and access times, with a time-to-live measured from the
// last access.
//
// Time is an integer number of milliseconds passed in by the caller, one
// parameter per clock reading the operation takes, in the order it takes
// them. A fresh session id (a random UUID in the program) is an input.
module Session {
  import opened Wrappers

  /** A protocol message of the conversation. */
  datatype Message = Message(role: string, content: string)

  datatype SessionData = SessionData(messages: seq<Message>, createdAtMs: int, lastAccessedMs: int)

  type Sessions = map<string, SessionData>

  const MsPerMinute := 60000

  /**
   * `_is_session_expired`: an unknown id counts as expired; a known one once
   * the clock is strictly past its last access plus the expiry time.
   */
  predicate Expired(s: Sessions, id: string, expiryMinutes: int, nowMs: int)
  {
    id !in s || nowMs > s[id].lastAccessedMs + expiryMinutes * MsPerMinute
  }

  /** A session is still alive exactly up to its deadline, inclusive. */
  lemma ExpiryIsStrict(s: Sessions, id: string, expiryMinutes: int)
    requires id in s
    ensures !Expired(s, id, expiryMinutes, s[id].lastAccessedMs + expiryMinutes * MsPerMinute)
    ensures Expired(s, id, expiryMinutes, s[id].lastAccessedMs + expiryMinutes * MsPerMinute + 1)
    ensures forall nowMs :: Expired(s, id, expiryMinutes, nowMs) <==> nowMs > s[id].lastAccessedMs + expiryMinutes * MsPerMinute
  {
  }

  /** Nothing but `id` differs between the two stores. */
  ghost predicate OthersUnchanged(before: Sessions, after: Sessions, id: string)
  {
    forall k :: k != id ==> (k in after <==> k in before) && (k in after ==> after[k] == before[k])
  }

  /** Every session was created no later than its last access, which is not in the future. */
  ghost predicate Timely(s: Sessions, nowMs: int)
  {
    forall k :: k in s ==> s[k].createdAtMs <= s[k].lastAccessedMs <= nowMs
  }

  /**
   * `create_session`: a fresh id with no messages. The creation time and the
   * last access come from two separate clock readings.
   */
  function Created(s: Sessions, freshId: string, createdMs: int, accessedMs: int): (r: Sessions)
    ensures freshId in r && r[freshId] == SessionData([], createdMs, accessedMs)
    ensures OthersUnchanged(s, r, freshId)
  {
    s[freshId := SessionData([], createdMs, accessedMs)]
  }

  function Touched(s: Sessions, id: string, nowMs: int): Sessions
    requires id in s
  {
    s[id := s[id].(lastAccessedMs := nowMs)]
  }

  /**
   * `delete_session`: true iff the id was present; afterwards it is absent
   * and every other entry is kept. Both session stores delete this way.
   */
  function Deleted<V>(s: map<string, V>, id: string): (r: (map<string, V>, bool))
    ensures r.1 <==> id in s
    ensures id !in r.0
    ensures forall k :: k != id ==> (k in r.0 <==> k in s) && (k in r.0 ==> r.0[k] == s[k])
  {
    if id in s then (s - {id}, true) else (s, false)
  }

  /**
   * `get_session`: the last access is set to one clock reading (`touchMs`),
   * then the expiry check reads the clock again (`checkMs`). The session is
   * found exactly when the second reading is within the expiry time of the
   * first; otherwise it is deleted and None returned.
   */
  function Lookup(s: Sessions, id: string, expiryMinutes: int, touchMs: int, checkMs: int): (r: (Sessions, Option<SessionData>))
    ensures r.1.Some? <==> id in s && checkMs <= touchMs + expiryMinutes * MsPerMinute
    ensures id !in s ==> r == (s, None)
    ensures r.1.Some? ==> (r.0 == Touched(s, id, touchMs) && r.1.value == r.0[id]
                           && r.1.value == s[id].(lastAccessedMs := touchMs))
    ensures id in s && r.1.None? ==> r.0 == s - {id}
  {
    if id !in s then (s, None)
    else
      var t := Touched(s, id, touchMs);
      if Expired(t, id, expiryMinutes, checkMs) then (Deleted(t, id).0, None)
      else (t, Some(t[id]))
  }

  /**
   * With no expiry time, any tick of the clock between the touch and the
   * check expires the session: it is deleted and not found.
   */
  lemma ZeroExpiryLosesSessions(s: Sessions, id: string, touchMs: int, checkMs: int)
    requires id in s && touchMs < checkMs
    ensures Lookup(s, id, 0, touchMs, checkMs) == (s - {id}, None)
  {
  }

  /**
   * `get_or_create_session`: the expiry check reads the clock (`checkMs`)
   * before the touch does (`touchMs`); a new session takes the two readings
   * of `create_session`.
   */
  function GetOrCreate(s: Sessions, id: Option<string>, freshId: string, expiryMinutes: int,
                       checkMs: int, touchMs: int, createdMs: int, accessedMs: int): (Sessions, string)
  {
    if id.Some? && id.value != "" && id.value in s then
      if Expired(s, id.value, expiryMinutes, checkMs) then
        (Created(Deleted(s, id.value).0, freshId, createdMs, accessedMs), freshId)
      else (Touched(s, id.value, touchMs), id.value)
    else (Created(s, freshId, createdMs, accessedMs), freshId)
  }

  /**
   * A known, unexpired id comes back unchanged and touched; a known expired
   * id is deleted and a new one made; a missing, empty or unknown id gets a
   * new one. Only the sessions involved change.
   */
  lemma GetOrCreateCases(s: Sessions, id: Option<string>, freshId: string, expiryMinutes: int,
                         checkMs: int, touchMs: int, createdMs: int, accessedMs: int)
    requires freshId !in s
    ensures var (r, sid) := GetOrCreate(s, id, freshId, expiryMinutes, checkMs, touchMs, createdMs, accessedMs);
      && sid in r
      && (id.Some? && id.value in s && !Expired(s, id.value, expiryMinutes, checkMs) && id.value != "" ==>
            sid == id.value && r[sid] == s[sid].(lastAccessedMs := touchMs) && OthersUnchanged(s, r, sid))
      && (id.Some? && id.value in s && Expired(s, id.value, expiryMinutes, checkMs) && id.value != "" ==>
            sid == freshId && id.value !in r && r[sid] == SessionData([], createdMs, accessedMs)
            && r.Keys == s.Keys - {id.value} + {freshId}
            && (forall k :: k in s && k != id.value && k != freshId ==> r[k] == s[k]))
      && (id.None? || id.value == "" || id.value !in s ==>
            sid == freshId && r[sid] == SessionData([], createdMs, accessedMs) && OthersUnchanged(s, r, sid))
  {
    var (r, sid) := GetOrCreate(s, id, freshId, expiryMinutes, checkMs, touchMs, createdMs, accessedMs);
    if id.Some? && id.value in s && Expired(s, id.value, expiryMinutes, checkMs) && id.value != "" {
      assert r == Created(s - {id.value}, freshId, createdMs, accessedMs);
      assert r.Keys == s.Keys - {id.value} + {freshId};
    }
  }

  /** The two messages one exchange adds. */
  function Exchange(userMessage: string, botMessage: string): seq<Message>
  {
    [Message("user", userMessage), Message("assistant", botMessage)]
  }

  /**
   * `update_session`: through `get_session` (readings `touchMs` and
   * `checkMs`), then the exchange is appended and the last access set to a
   * third reading, `endMs`.
   */
  function Updated(s: Sessions, id: string, userMessage: string, botMessage: string, expiryMinutes: int,
                   touchMs: int, checkMs: int, endMs: int): (Sessions, bool)
  {
    var (t, found) := Lookup(s, id, expiryMinutes, touchMs, checkMs);
    if found.None? then (t, false)
    else (t[id := found.value.(messages := found.value.messages + Exchange(userMessage, botMessage), lastAccessedMs := endMs)], true)
  }

  /**
   * An update succeeds iff the session exists and the check reading is
   * within the expiry time of the touch; it then appends exactly a user
   * message and an assistant message and nothing else changes. A session
   * that fails the check is deleted; an unknown id changes nothing.
   */
  lemma UpdateAppendsExchange(s: Sessions, id: string, userMessage: string, botMessage: string, expiryMinutes: int,
                              touchMs: int, checkMs: int, endMs: int)
    ensures var (r, ok) := Updated(s, id, userMessage, botMessage, expiryMinutes, touchMs, checkMs, endMs);
      && (ok <==> id in s && checkMs <= touchMs + expiryMinutes * MsPerMinute)
      && (ok ==> (r[id].messages == s[id].messages + [Message("user", userMessage), Message("assistant", botMessage)]
                  && r[id].createdAtMs == s[id].createdAtMs && r[id].lastAccessedMs == endMs
                  && OthersUnchanged(s, r, id)))
      && (id in s && !ok ==> r == s - {id})
      && (id !in s ==> r == s)
  {
    var (t, found) := Lookup(s, id, expiryMinutes, touchMs, checkMs);
    if found.Some? {
      assert OthersUnchanged(s, t, id);
    }
  }

  /**
   * `get_messages`: the messages of a session that passes `get_session`'s
   * check, else []; a session that fails it is deleted.
   */
  function MessagesOf(s: Sessions, id: string, expiryMinutes: int, touchMs: int, checkMs: int): (r: (Sessions, seq<Message>))
    ensures id !in s ==> r == (s, [])
    ensures id in s && checkMs <= touchMs + expiryMinutes * MsPerMinute ==> r == (Touched(s, id, touchMs), s[id].messages)
    ensures id in s && checkMs > touchMs + expiryMinutes * MsPerMinute ==> r == (s - {id}, [])
  {
    var (t, found) := Lookup(s, id, expiryMinutes, touchMs, checkMs);
    if found.None? then (t, []) else (t, found.value.messages)
  }

  /**
   * `cleanup_expired_sessions`: the sessions that survive. Each session is
   * checked against its own clock reading, `checkAt(k)`.
   */
  function Survivors(s: Sessions, expiryMinutes: int, checkAt: string -> int): Sessions
  {
    map k | k in s && !Expired(s, k, expiryMinutes, checkAt(k)) :: s[k]
  }

  function ExpiredIds(s: Sessions, expiryMinutes: int, checkAt: string -> int): set<string>
  {
    set k | k in s && Expired(s, k, expiryMinutes, checkAt(k))
  }

  /** The sweep keeps exactly the unexpired sessions, unchanged, and removes the rest. */
  lemma SweepPartition(s: Sessions, expiryMinutes: int, checkAt: string -> int)
    ensures Survivors(s, expiryMinutes, checkAt).Keys + ExpiredIds(s, expiryMinutes, checkAt) == s.Keys
    ensures Survivors(s, expiryMinutes, checkAt).Keys * ExpiredIds(s, expiryMinutes, checkAt) == {}
    ensures forall k :: k in Survivors(s, expiryMinutes, checkAt) ==>
      Survivors(s, expiryMinutes, checkAt)[k] == s[k] && !Expired(s, k, expiryMinutes, checkAt(k))
    ensures |Survivors(s, expiryMinutes, checkAt)| + |ExpiredIds(s, expiryMinutes, checkAt)| == |s|
  {
    var keep, gone := Survivors(s, expiryMinutes, checkAt).Keys, ExpiredIds(s, expiryMinutes, checkAt);
    assert keep + gone == s.Keys;
    assert keep * gone == {};
    assert |keep + gone| == |keep| + |gone| - |keep * gone|;
    assert |s.Keys| == |s|;
  }

  /**
   * Every operation keeps each session's creation no later than its last
   * access and no access in the future, given a clock that does not go back
   * (readings `t1 <= t2 <= t3`, in the order each operation takes them).
   */
  lemma OperationsKeepTimely(s: Sessions, id: string, freshId: string, userMessage: string, botMessage: string,
                             expiryMinutes: int, beforeMs: int, t1: int, t2: int, t3: int, checkAt: string -> int)
    requires Timely(s, beforeMs) && beforeMs <= t1 <= t2 <= t3
    ensures Timely(Created(s, freshId, t1, t2), t2)
    ensures Timely(Lookup(s, id, expiryMinutes, t1, t2).0, t2)
    ensures Timely(GetOrCreate(s, Some(id), freshId, expiryMinutes, t1, t2, t2, t3).0, t3)
    ensures Timely(Updated(s, id, userMessage, botMessage, expiryMinutes, t1, t2, t3).0, t3)
    ensures Timely(Survivors(s, expiryMinutes, checkAt), beforeMs)
  {
    if id in s {
      assert Timely(Touched(s, id, t1), t1);
      assert Timely(Touched(s, id, t2), t2);
      assert Timely(Deleted(s, id).0, beforeMs);
      assert Timely(Created(Deleted(s, id).0, freshId, t2, t3), t3);
    }
  }

  /** Distinct ids: as many as the list is long. */
  lemma {:induction false} DistinctCount(ids: seq<string>)
    requires forall i, j :: 0 <= i < j < |ids| ==> ids[i] != ids[j]
    ensures |set k | k in ids| == |ids|
  {
    if |ids| > 0 {
      var last := ids[|ids| - 1];
      var front := ids[..|ids| - 1];
      DistinctCount(front);
      assert (set k | k in ids) == (set k | k in front) + {last};
      assert last !in (set k | k in front);
    }
  }

  class SessionManager {
    var sessions: Sessions
    const expiryMinutes: int

    constructor (expiryMinutes: int)
      ensures sessions == map[] && this.expiryMinutes == expiryMinutes
    {
      sessions := map[];
      this.expiryMinutes := expiryMinutes;
    }

    /** Reads the clock twice: `createdMs`, then `accessedMs`. */
    method CreateSession(freshId: string, createdMs: int, accessedMs: int) returns (id: string)
      modifies this
      ensures id == freshId && sessions == Created(old(sessions), freshId, createdMs, accessedMs)
    {
      id := freshId;
      sessions := sessions[id := SessionData([], createdMs, accessedMs)];
    }

    method DeleteSession(id: string) returns (deleted: bool)
      modifies this
      ensures (sessions, deleted) == Deleted(old(sessions), id)
    {
      if id !in sessions {
        return false;
      }
      sessions := sessions - {id};
      return true;
    }

    /** Reads the clock to touch the session (`touchMs`), then to check it (`checkMs`). */
    method GetSession(id: string, touchMs: int, checkMs: int) returns (session: Option<SessionData>)
      modifies this
      ensures (sessions, session) == Lookup(old(sessions), id, expiryMinutes, touchMs, checkMs)
    {
      if id !in sessions {
        return None;
      }
      sessions := sessions[id := sessions[id].(lastAccessedMs := touchMs)];
      if Expired(sessions, id, expiryMinutes, checkMs) {
        var _ := DeleteSession(id);
        return None;
      }
      return Some(sessions[id]);
    }

    method GetOrCreateSession(id: Option<string>, freshId: string, checkMs: int, touchMs: int, createdMs: int, accessedMs: int)
      returns (sid: string)
      modifies this
      ensures (sessions, sid) == GetOrCreate(old(sessions), id, freshId, expiryMinutes, checkMs, touchMs, createdMs, accessedMs)
    {
      if id.Some? && id.value != "" && id.value in sessions {
        if Expired(sessions, id.value, expiryMinutes, checkMs) {
          var _ := DeleteSession(id.value);
          sid := CreateSession(freshId, createdMs, accessedMs);
          return;
        }
        sessions := sessions[id.value := sessions[id.value].(lastAccessedMs := touchMs)];
        return id.value;
      }
      sid := CreateSession(freshId, createdMs, accessedMs);
    }

    method UpdateSession(id: string, userMessage: string, botMessage: string, touchMs: int, checkMs: int, endMs: int)
      returns (updated: bool)
      modifies this
      ensures (sessions, updated) == Updated(old(sessions), id, userMessage, botMessage, expiryMinutes, touchMs, checkMs, endMs)
    {
      var session := GetSession(id, touchMs, checkMs);
      if session.None? {
        return false;
      }
      var messages := session.value.messages + [Message("user", userMessage)];
      messages := messages + [Message("assistant", botMessage)];
      assert messages == session.value.messages + Exchange(userMessage, botMessage);
      sessions := sessions[id := session.value.(messages := messages, lastAccessedMs := endMs)];
      return true;
    }

    method GetMessages(id: string, touchMs: int, checkMs: int) returns (messages: seq<Message>)
      modifies this
      ensures (sessions, messages) == MessagesOf(old(sessions), id, expiryMinutes, touchMs, checkMs)
    {
      var session := GetSession(id, touchMs, checkMs);
      if session.None? {
        return [];
      }
      return session.value.messages;
    }

    /**
     * Collects the expired ids in one pass, each checked at its own clock
     * reading, then deletes them in a second.
     */
    method CleanupExpiredSessions(checkAt: string -> int) returns (count: nat)
      modifies this
      ensures sessions == Survivors(old(sessions), expiryMinutes, checkAt)
      ensures count == |ExpiredIds(old(sessions), expiryMinutes, checkAt)|
    {
      var expired: seq<string> := [];
      var pending := sessions.Keys;
      while pending != {}
        invariant pending <= sessions.Keys
        invariant forall k :: k in expired <==> k in sessions && k !in pending && Expired(sessions, k, expiryMinutes, checkAt(k))
        invariant forall i, j :: 0 <= i < j < |expired| ==> expired[i] != expired[j]
        decreases pending
      {
        var id :| id in pending;
        if Expired(sessions, id, expiryMinutes, checkAt(id)) {
          expired := expired + [id];
        }
        pending := pending - {id};
      }
      assert (set k | k in expired) == ExpiredIds(sessions, expiryMinutes, checkAt);
      DistinctCount(expired);
      ghost var before := sessions;
      var i := 0;
      while i < |expired|
        invariant 0 <= i <= |expired|
        invariant sessions == map k | k in before && k !in expired[..i] :: before[k]
      {
        var _ := DeleteSession(expired[i]);
        assert expired[..i + 1] == expired[..i] + [expired[i]];
        i := i + 1;
      }
      assert expired[..i] == expired;
      return |expired|;
    }
  }
}
