/**
 * `app/api/chat-history/route.ts`: `GET` answers one session's messages
 * when a session id is given, and the caller's session list otherwise.
 */
module ChatHistoryRoute {
  import opened Options
  import opened ChatHistoryService

  const FETCH_FAILED := "Failed to fetch chat history"

  /** Exactly one of the keys `messages` and `sessions`, or an error. */
  datatype Response =
    | Messages(messages: seq<MessageRow>)
    | Sessions(sessions: seq<SessionSummary>)
    | ServerError(status: int, error: string)

  /**
   * `GET ?sessionId=…&userId=…`: with a session id the user id is ignored;
   * an empty user id counts as none. The route's own table setup
   * (`routeFault`) throwing is the only 500; the service call repeats the
   * setup (`serviceFault`) and answers `[]` when that or its query
   * (`queryFail`) throws.
   */
  method Get(db: ChatDb, sessionId: Option<string>, userId: Option<string>,
             routeFault: Fault, serviceFault: Fault, queryFail: bool)
    returns (response: Response)
    requires db.Valid()
    modifies db
    ensures db.Valid()
    ensures db.sessions == old(db.sessions) && db.messages == old(db.messages)
    ensures SetupThrows(routeFault, old(db.sessionsTable), old(db.messagesTable)) ==>
      response == ServerError(500, FETCH_FAILED)
        && db.sessionsTable == SessionsTableAfter(routeFault, old(db.sessionsTable))
        && db.messagesTable == MessagesTableAfter(routeFault, old(db.sessionsTable), old(db.messagesTable))
    ensures !SetupThrows(routeFault, old(db.sessionsTable), old(db.messagesTable)) ==>
      && db.sessionsTable && db.messagesTable
      && var failed := serviceFault == ProbeFails || queryFail;
      && (Truthy(sessionId) ==> response == Messages(if failed then [] else MessagesQuery(db.messages, sessionId.value)))
      && (!Truthy(sessionId) ==> response == Sessions(if failed then [] else SessionsQuery(db.sessions, db.messages, Identifier(userId))))
  {
    var ok := db.EnsureChatTablesExist(routeFault);
    if !ok {
      return ServerError(500, FETCH_FAILED);
    }
    if Truthy(sessionId) {
      var messages := db.GetChatMessages(sessionId.value, serviceFault, queryFail);
      return Messages(messages);
    }
    var user := if Truthy(userId) then userId else None;
    var sessions := db.GetChatSessions(user, serviceFault, queryFail);
    return Sessions(sessions);
  }
}
