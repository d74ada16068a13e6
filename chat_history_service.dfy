/**
 * `lib/chat-history-service.ts` and the two chat tables it manages. The
 * tables are fields of a `ChatDb` object; each SQL statement is a method
 * that changes them, and each query is a function giving the rows the SQL
 * selects. A `Fault` names the statement of the table setup that throws,
 * and the boolean `...Fail` parameters stand for the call's own statement
 * throwing; a throwing statement changes nothing, but statements run
 * before it keep their effect.
 */
module ChatHistoryService {
  import opened Options
  import opened Ordering

  /** A `chat_sessions` row; `userId` is `NULL` when absent. */
  datatype SessionRow = SessionRow(id: string, userId: Option<string>, createdAt: int, updatedAt: int)

  /** A `chat_messages` row. */
  datatype MessageRow = MessageRow(id: string, sessionId: string, role: string, content: string, createdAt: int)

  /** An entry of the session list (`ChatSession`). */
  datatype SessionSummary = SessionSummary(id: string, createdAt: int, updatedAt: int, preview: string, messageCount: nat)

  const ANONYMOUS := "anonymous"
  const NEW_CONVERSATION := "New conversation"
  const SESSION_LIST_LIMIT := 20

  /** `CHECK (role IN ('user', 'assistant'))`. */
  predicate AllowedRole(role: string)
  {
    role == "user" || role == "assistant"
  }

  function SessionIds(rows: seq<SessionRow>): set<string>
  {
    set r | r in rows :: r.id
  }

  function MessageIds(rows: seq<MessageRow>): set<string>
  {
    set r | r in rows :: r.id
  }

  /** `PRIMARY KEY`: no two rows share an id. */
  predicate UniqueSessionIds(rows: seq<SessionRow>)
  {
    forall i, j :: 0 <= i < j < |rows| ==> rows[i].id != rows[j].id
  }

  predicate UniqueMessageIds(rows: seq<MessageRow>)
  {
    forall i, j :: 0 <= i < j < |rows| ==> rows[i].id != rows[j].id
  }

  /** `userId || "anonymous"`: never empty, and either the caller's own id or the anonymous one. */
  function Identifier(userId: Option<string>): (r: string)
    ensures r != ""
    ensures userId == Some(r) || r == ANONYMOUS
    ensures Truthy(userId) ==> userId == Some(r)
  {
    if Truthy(userId) then userId.value else ANONYMOUS
  }

  /**
   * No id, an empty id and the id "anonymous" all select the same
   * sessions: a user whose id is "anonymous" shares the anonymous list.
   */
  lemma AnonymousIdentifiers()
    ensures Identifier(None) == Identifier(Some("")) == Identifier(Some(ANONYMOUS)) == ANONYMOUS
  {
  }

  /** Distinct non-empty ids select distinct identifiers. */
  lemma {:induction false} IdentifierInjective(a: string, b: string)
    requires a != "" && b != "" && a != b
    ensures Identifier(Some(a)) != Identifier(Some(b))
  {
  }

  /** `cs.user_id IS NULL OR cs.user_id = identifier`. */
  predicate VisibleTo(identifier: string, row: SessionRow)
  {
    row.userId.None? || row.userId.value == identifier
  }

  function CreatedAt(m: MessageRow): int { m.createdAt }
  function NewestUpdatedFirst(r: SessionRow): int { -r.updatedAt }
  function NewestCreatedFirst(r: SessionRow): int { -r.createdAt }

  /** `WHERE session_id = sid`. */
  function InSession(sid: string): MessageRow -> bool
  {
    (m: MessageRow) => m.sessionId == sid
  }

  /** `WHERE session_id = sid AND role = 'user'`. */
  function UserInSession(sid: string): MessageRow -> bool
  {
    (m: MessageRow) => m.sessionId == sid && m.role == "user"
  }

  /** `WHERE user_id IS NULL OR user_id = identifier`. */
  function Visible(identifier: string): SessionRow -> bool
  {
    (r: SessionRow) => VisibleTo(identifier, r)
  }

  /** `WHERE user_id = uid`. */
  function OwnedBy(uid: string): SessionRow -> bool
  {
    (r: SessionRow) => r.userId == Some(uid)
  }

  /** The earliest user message of a session, or "New conversation". */
  function Preview(messages: seq<MessageRow>, sid: string): string
  {
    var firsts := SortBy(Filter(messages, UserInSession(sid)), CreatedAt);
    if |firsts| == 0 || firsts[0].content == "" then NEW_CONVERSATION else firsts[0].content
  }

  /** `COUNT(*) FROM chat_messages WHERE session_id = sid`. */
  function MessageCount(messages: seq<MessageRow>, sid: string): nat
  {
    |Filter(messages, InSession(sid))|
  }

  function Summary(messages: seq<MessageRow>, row: SessionRow): SessionSummary
  {
    SessionSummary(row.id, row.createdAt, row.updatedAt, Preview(messages, row.id), MessageCount(messages, row.id))
  }

  /** The visible sessions, newest `updated_at` first. */
  function VisibleByRecency(sessions: seq<SessionRow>, identifier: string): seq<SessionRow>
  {
    SortBy(Filter(sessions, Visible(identifier)), NewestUpdatedFirst)
  }

  function Min(a: int, b: int): int { if a <= b then a else b }

  /** `WHERE ... ORDER BY cs.updated_at DESC LIMIT 20` over the session table. */
  function RecentVisible(sessions: seq<SessionRow>, identifier: string): (rows: seq<SessionRow>)
    ensures |rows| == Min(SESSION_LIST_LIMIT, |Filter(sessions, Visible(identifier))|)
    ensures forall i, j :: 0 <= i < j < |rows| ==> rows[i].updatedAt >= rows[j].updatedAt
    ensures forall i :: 0 <= i < |rows| ==> rows[i] in sessions && VisibleTo(identifier, rows[i])
    ensures |rows| <= |VisibleByRecency(sessions, identifier)| && rows == VisibleByRecency(sessions, identifier)[..|rows|]
    ensures |VisibleByRecency(sessions, identifier)| <= SESSION_LIST_LIMIT ==> rows == VisibleByRecency(sessions, identifier)
  {
    var all := VisibleByRecency(sessions, identifier);
    RecentRowsOrdered(all);
    RecentRowsVisible(sessions, identifier);
    Take(all, SESSION_LIST_LIMIT)
  }

  /** The first `SESSION_LIST_LIMIT` of a list sorted newest first are newest first. */
  lemma {:induction false} RecentRowsOrdered(all: seq<SessionRow>)
    requires SortedBy(all, NewestUpdatedFirst)
    ensures var rows := Take(all, SESSION_LIST_LIMIT);
      forall i, j :: 0 <= i < j < |rows| ==> rows[i].updatedAt >= rows[j].updatedAt
  {
    var rows := Take(all, SESSION_LIST_LIMIT);
    TakeSorted(all, NewestUpdatedFirst, SESSION_LIST_LIMIT);
    forall i, j | 0 <= i < j < |rows|
      ensures rows[i].updatedAt >= rows[j].updatedAt
    {
      assert NewestUpdatedFirst(rows[i]) <= NewestUpdatedFirst(rows[j]);
    }
  }

  /** Every listed session is a visible row of the table. */
  lemma {:induction false} RecentRowsVisible(sessions: seq<SessionRow>, identifier: string)
    ensures var rows := Take(VisibleByRecency(sessions, identifier), SESSION_LIST_LIMIT);
      forall i :: 0 <= i < |rows| ==> rows[i] in sessions && VisibleTo(identifier, rows[i])
  {
    var rows := Take(VisibleByRecency(sessions, identifier), SESSION_LIST_LIMIT);
    forall i | 0 <= i < |rows|
      ensures rows[i] in sessions && VisibleTo(identifier, rows[i])
    {
      SelectedMember(sessions, Visible(identifier), NewestUpdatedFirst, i);
    }
  }

  /**
   * Of the visible sessions, only those no more recently updated than
   * every listed one are left out of the list.
   */
  lemma {:induction false} RecentVisibleKeepsNewest(sessions: seq<SessionRow>, identifier: string)
    ensures multiset(RecentVisible(sessions, identifier)) <= multiset(Filter(sessions, Visible(identifier)))
    ensures var rows := RecentVisible(sessions, identifier);
      forall x :: x in multiset(Filter(sessions, Visible(identifier))) - multiset(rows) ==>
        forall i :: 0 <= i < |rows| ==> x.updatedAt <= rows[i].updatedAt
  {
    var all := VisibleByRecency(sessions, identifier);
    TakeKeepsFirst(all, NewestUpdatedFirst, SESSION_LIST_LIMIT);
  }

  /** The session-list query of `getChatSessions`: one summary per listed session, in the list's order. */
  function SessionsQuery(sessions: seq<SessionRow>, messages: seq<MessageRow>, identifier: string): (r: seq<SessionSummary>)
    ensures |r| == |RecentVisible(sessions, identifier)|
    ensures forall i :: 0 <= i < |r| ==> r[i] == Summary(messages, RecentVisible(sessions, identifier)[i])
    ensures |r| <= SESSION_LIST_LIMIT
    ensures forall i, j :: 0 <= i < j < |r| ==> r[i].updatedAt >= r[j].updatedAt
    ensures forall i :: 0 <= i < |r| ==> exists row :: row in sessions && VisibleTo(identifier, row) && r[i] == Summary(messages, row)
  {
    var rows := RecentVisible(sessions, identifier);
    seq(|rows|, i requires 0 <= i < |rows| => Summary(messages, rows[i]))
  }

  /** The message query of `getChatMessages`: one session's messages, oldest first. */
  function MessagesQuery(messages: seq<MessageRow>, sid: string): (r: seq<MessageRow>)
    ensures multiset(r) == multiset(Filter(messages, InSession(sid)))
    ensures forall k :: 0 <= k < |r| ==> r[k].sessionId == sid && r[k] in messages
    ensures forall m :: m in messages && m.sessionId == sid ==> m in r
    ensures forall i, j :: 0 <= i < j < |r| ==> r[i].createdAt <= r[j].createdAt
  {
    var r := SortBy(Filter(messages, InSession(sid)), CreatedAt);
    forall k | 0 <= k < |r| ensures r[k].sessionId == sid && r[k] in messages {
      assert r[k] in multiset(Filter(messages, InSession(sid)));
    }
    forall m | m in messages && m.sessionId == sid ensures m in r {
      assert m in multiset(Filter(messages, InSession(sid)));
    }
    r
  }

  /** `UPDATE chat_sessions SET updated_at = now WHERE id = sid`. */
  function Touch(sessions: seq<SessionRow>, sid: string, now: int): (r: seq<SessionRow>)
    ensures |r| == |sessions|
    ensures forall i :: 0 <= i < |r| ==> r[i].id == sessions[i].id && r[i].userId == sessions[i].userId && r[i].createdAt == sessions[i].createdAt
    ensures forall i :: 0 <= i < |r| ==> r[i].updatedAt == if sessions[i].id == sid then now else sessions[i].updatedAt
  {
    seq(|sessions|, i requires 0 <= i < |sessions| =>
      if sessions[i].id == sid then sessions[i].(updatedAt := now) else sessions[i])
  }

  /** `SELECT id FROM chat_sessions WHERE user_id = uid ORDER BY created_at DESC LIMIT 1`. */
  function LatestFor(sessions: seq<SessionRow>, uid: string): (r: Option<SessionRow>)
    ensures r.None? <==> forall row :: row in sessions ==> row.userId != Some(uid)
    ensures r.Some? ==> r.value in sessions && r.value.userId == Some(uid)
    ensures r.Some? ==> forall row :: row in sessions && row.userId == Some(uid) ==> row.createdAt <= r.value.createdAt
  {
    var mine := SortBy(Filter(sessions, OwnedBy(uid)), NewestCreatedFirst);
    if |mine| == 0 then
      forall row | row in sessions && row.userId == Some(uid) ensures false {
        SelectedComplete(sessions, OwnedBy(uid), NewestCreatedFirst, row);
      }
      None
    else
      SelectedMember(sessions, OwnedBy(uid), NewestCreatedFirst, 0);
      forall row | row in sessions && row.userId == Some(uid)
        ensures row.createdAt <= mine[0].createdAt
      {
        SelectedComplete(sessions, OwnedBy(uid), NewestCreatedFirst, row);
        var k :| 0 <= k < |mine| && mine[k] == row;
        assert NewestCreatedFirst(mine[0]) <= NewestCreatedFirst(mine[k]);
      }
      Some(mine[0])
  }

  /**
   * Where `ensureChatTablesExist` throws: nowhere, at an existence probe,
   * or at one of the two `CREATE TABLE` statements. The foreign-key and
   * index statements catch their own errors, so they never make it throw.
   */
  datatype Fault = NoFault | ProbeFails | CreateSessionsFails | CreateMessagesFails

  /** The setup throws at a probe always, and at a `CREATE TABLE` only when that table is missing, since it is sent only then. */
  predicate SetupThrows(fault: Fault, sessionsTable: bool, messagesTable: bool)
  {
    fault == ProbeFails || (fault == CreateSessionsFails && !sessionsTable) || (fault == CreateMessagesFails && !messagesTable)
  }

  /** Whether `chat_sessions` exists after the setup: it is created unless the setup throws before or at its creation. */
  function SessionsTableAfter(fault: Fault, sessionsTable: bool): bool
  {
    sessionsTable || (fault != ProbeFails && fault != CreateSessionsFails)
  }

  /** Whether `chat_messages` exists after the setup: it is created exactly when the setup completes. */
  function MessagesTableAfter(fault: Fault, sessionsTable: bool, messagesTable: bool): bool
  {
    messagesTable || !SetupThrows(fault, sessionsTable, messagesTable)
  }

  /**
   * Once a setup has completed, the only fault left that makes it throw is
   * a failing probe, and whatever it meets the tables stay.
   */
  lemma {:induction false} SetupAfterSuccess(first: Fault, second: Fault, sessionsTable: bool, messagesTable: bool)
    requires !SetupThrows(first, sessionsTable, messagesTable)
    ensures var st := SessionsTableAfter(first, sessionsTable);
      var mt := MessagesTableAfter(first, sessionsTable, messagesTable);
      && st && mt
      && (SetupThrows(second, st, mt) <==> second == ProbeFails)
      && SessionsTableAfter(second, st) && MessagesTableAfter(second, st, mt)
  {
  }

  /** A setup that throws creating a missing `chat_messages` has still created `chat_sessions`. */
  lemma {:induction false} FailedSetupKeepsSessions(sessionsTable: bool)
    ensures SetupThrows(CreateMessagesFails, sessionsTable, false)
    ensures SessionsTableAfter(CreateMessagesFails, sessionsTable) && !MessagesTableAfter(CreateMessagesFails, sessionsTable, false)
  {
  }

  class ChatDb {
    var sessionsTable: bool
    var messagesTable: bool
    var sessions: seq<SessionRow>
    var messages: seq<MessageRow>

    /** Missing tables hold no rows; ids are keys; only user and assistant messages are stored. */
    ghost predicate Valid()
      reads this
    {
      (!sessionsTable ==> sessions == []) && (!messagesTable ==> messages == [])
      && UniqueSessionIds(sessions) && UniqueMessageIds(messages)
      && forall k :: 0 <= k < |messages| ==> AllowedRole(messages[k].role)
    }

    /** A database before any table was created. */
    constructor ()
      ensures Valid()
      ensures !sessionsTable && !messagesTable && sessions == [] && messages == []
    {
      sessionsTable := false;
      messagesTable := false;
      sessions := [];
      messages := [];
    }

    /**
     * `ensureChatTablesExist`: create whichever table is missing, sessions
     * first; a failure is rethrown, and a table created before it stays.
     */
    method EnsureChatTablesExist(fault: Fault) returns (ok: bool)
      requires Valid()
      modifies this
      ensures Valid()
      ensures ok == !SetupThrows(fault, old(sessionsTable), old(messagesTable))
      ensures sessionsTable == SessionsTableAfter(fault, old(sessionsTable))
      ensures messagesTable == MessagesTableAfter(fault, old(sessionsTable), old(messagesTable))
      ensures ok ==> sessionsTable && messagesTable
      ensures sessions == old(sessions) && messages == old(messages)
    {
      if fault == ProbeFails {
        return false;
      }
      if !sessionsTable {
        if fault == CreateSessionsFails {
          return false;
        }
        sessionsTable := true;
      }
      if !messagesTable {
        if fault == CreateMessagesFails {
          return false;
        }
        messagesTable := true;
      }
      return true;
    }

    /** `INSERT INTO chat_sessions`: refused on a missing table or a duplicate id. */
    method InsertSession(row: SessionRow, fail: bool) returns (ok: bool)
      requires Valid()
      modifies this
      ensures Valid()
      ensures ok <==> !fail && sessionsTable && row.id !in SessionIds(old(sessions))
      ensures sessions == if ok then old(sessions) + [row] else old(sessions)
      ensures messages == old(messages) && sessionsTable == old(sessionsTable) && messagesTable == old(messagesTable)
    {
      if fail || !sessionsTable || row.id in SessionIds(sessions) {
        return false;
      }
      forall i | 0 <= i < |sessions| ensures sessions[i].id != row.id {
        assert sessions[i] in sessions;
      }
      sessions := sessions + [row];
      return true;
    }

    /** `INSERT INTO chat_messages`: refused on a missing table, a duplicate id or a role the CHECK rejects. */
    method InsertMessage(row: MessageRow, fail: bool) returns (ok: bool)
      requires Valid()
      modifies this
      ensures Valid()
      ensures ok <==> !fail && messagesTable && AllowedRole(row.role) && row.id !in MessageIds(old(messages))
      ensures messages == if ok then old(messages) + [row] else old(messages)
      ensures sessions == old(sessions) && sessionsTable == old(sessionsTable) && messagesTable == old(messagesTable)
    {
      if fail || !messagesTable || !AllowedRole(row.role) || row.id in MessageIds(messages) {
        return false;
      }
      forall i | 0 <= i < |messages| ensures messages[i].id != row.id {
        assert messages[i] in messages;
      }
      messages := messages + [row];
      return true;
    }

    /** `getChatSessions`: the visible sessions, newest first, at most 20; a failure gives `[]`. */
    method GetChatSessions(userId: Option<string>, fault: Fault, queryFail: bool) returns (r: seq<SessionSummary>)
      requires Valid()
      modifies this
      ensures Valid()
      ensures sessions == old(sessions) && messages == old(messages)
      ensures sessionsTable == SessionsTableAfter(fault, old(sessionsTable))
      ensures messagesTable == MessagesTableAfter(fault, old(sessionsTable), old(messagesTable))
      ensures r == if SetupThrows(fault, old(sessionsTable), old(messagesTable)) || queryFail then []
                   else SessionsQuery(sessions, messages, Identifier(userId))
    {
      var ok := EnsureChatTablesExist(fault);
      if !ok || queryFail {
        return [];
      }
      r := SessionsQuery(sessions, messages, Identifier(userId));
    }

    /** `getChatMessages`: the session's messages, oldest first; a failure gives `[]`. */
    method GetChatMessages(sessionId: string, fault: Fault, queryFail: bool) returns (r: seq<MessageRow>)
      requires Valid()
      modifies this
      ensures Valid()
      ensures sessions == old(sessions) && messages == old(messages)
      ensures sessionsTable == SessionsTableAfter(fault, old(sessionsTable))
      ensures messagesTable == MessagesTableAfter(fault, old(sessionsTable), old(messagesTable))
      ensures r == if SetupThrows(fault, old(sessionsTable), old(messagesTable)) || queryFail then []
                   else MessagesQuery(messages, sessionId)
    {
      var ok := EnsureChatTablesExist(fault);
      if !ok || queryFail {
        return [];
      }
      r := MessagesQuery(messages, sessionId);
    }

    /**
     * `createChatSession`: insert a session under `freshId`; when that
     * fails the caller still gets an id, `fallbackId`, which names no
     * stored session. Both ids stand for `nanoid()`; `insertFail` for the
     * insert throwing.
     */
    method CreateChatSession(userId: Option<string>, freshId: string, fallbackId: string, now: int,
                             fault: Fault, insertFail: bool)
      returns (id: string)
      requires Valid()
      requires fallbackId !in SessionIds(sessions) && fallbackId != freshId
      modifies this
      ensures Valid()
      ensures messages == old(messages)
      ensures sessionsTable == SessionsTableAfter(fault, old(sessionsTable))
      ensures messagesTable == MessagesTableAfter(fault, old(sessionsTable), old(messagesTable))
      ensures var row := SessionRow(freshId, if Truthy(userId) then userId else None, now, now);
        if !SetupThrows(fault, old(sessionsTable), old(messagesTable)) && !insertFail && freshId !in SessionIds(old(sessions))
        then id == freshId && sessions == old(sessions) + [row]
        else id == fallbackId && sessions == old(sessions)
      ensures id in SessionIds(sessions) <==> id == freshId
    {
      var ok := EnsureChatTablesExist(fault);
      if !ok {
        return fallbackId;
      }
      var row := SessionRow(freshId, if Truthy(userId) then userId else None, now, now);
      ok := InsertSession(row, insertFail);
      if !ok {
        return fallbackId;
      }
      assert row in sessions;
      return freshId;
    }

    /** `updateChatSessionTimestamp`: only the named session's `updated_at` changes. */
    method UpdateChatSessionTimestamp(sessionId: string, now: int, fault: Fault, updateFail: bool) returns (ok: bool)
      requires Valid()
      modifies this
      ensures Valid()
      ensures ok == (!SetupThrows(fault, old(sessionsTable), old(messagesTable)) && !updateFail)
      ensures sessions == if ok then Touch(old(sessions), sessionId, now) else old(sessions)
      ensures messages == old(messages)
      ensures sessionsTable == SessionsTableAfter(fault, old(sessionsTable))
      ensures messagesTable == MessagesTableAfter(fault, old(sessionsTable), old(messagesTable))
    {
      ok := EnsureChatTablesExist(fault);
      if !ok || updateFail {
        return false;
      }
      sessions := Touch(sessions, sessionId, now);
    }
  }

  /** A session with no user is listed for every caller while at most 20 sessions are visible. */
  lemma {:induction false} AnonymousSessionsListedForAll(sessions: seq<SessionRow>, messages: seq<MessageRow>, identifier: string, row: SessionRow)
    requires row in sessions && row.userId.None?
    requires |Filter(sessions, Visible(identifier))| <= SESSION_LIST_LIMIT
    ensures Summary(messages, row) in SessionsQuery(sessions, messages, identifier)
  {
    assert Visible(identifier)(row);
    SelectedComplete(sessions, Visible(identifier), NewestUpdatedFirst, row);
    var rows := RecentVisible(sessions, identifier);
    assert rows == VisibleByRecency(sessions, identifier);
    var k :| 0 <= k < |rows| && rows[k] == row;
    assert SessionsQuery(sessions, messages, identifier)[k] == Summary(messages, row);
  }

  /** A session owned by someone else is never listed. */
  lemma {:induction false} OthersSessionsHidden(sessions: seq<SessionRow>, messages: seq<MessageRow>, userId: Option<string>, row: SessionRow)
    requires UniqueSessionIds(sessions)
    requires row in sessions && row.userId.Some? && row.userId.value != Identifier(userId)
    ensures forall s :: s in SessionsQuery(sessions, messages, Identifier(userId)) ==> s.id != row.id
  {
    forall s | s in SessionsQuery(sessions, messages, Identifier(userId)) ensures s.id != row.id {
      var q := SessionsQuery(sessions, messages, Identifier(userId));
      var i :| 0 <= i < |q| && q[i] == s;
      var other :| other in sessions && VisibleTo(Identifier(userId), other) && s == Summary(messages, other);
      var a :| 0 <= a < |sessions| && sessions[a] == row;
      var b :| 0 <= b < |sessions| && sessions[b] == other;
      assert a != b;
    }
  }

  /** The preview counts the earliest user message; assistant messages never become a preview. */
  lemma {:induction false} PreviewIsUserText(messages: seq<MessageRow>, sid: string)
    ensures Preview(messages, sid) == NEW_CONVERSATION
      || exists m :: m in messages && m.sessionId == sid && m.role == "user" && m.content == Preview(messages, sid)
  {
    var firsts := SortBy(Filter(messages, UserInSession(sid)), CreatedAt);
    if |firsts| > 0 && firsts[0].content != "" {
      assert firsts[0] in multiset(Filter(messages, UserInSession(sid)));
    }
  }
}
