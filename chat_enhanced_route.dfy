/**
 * `app/api/chat-enhanced/route.ts`: a chat request resolves a session,
 * saves the user's message, asks the remote model (only when a key is
 * configured) or falls back to the fallback-chat generator, saves the
 * reply and answers `{content, sessionId}`. Its session resolution and
 * message saving are shared with the chat-ai-sdk route, which carries an
 * identical copy of both.
 *
 * Every id `nanoid()` would draw is an input (`Ids`); `now` is the
 * database clock; `down` stands for the database throwing on every
 * statement of the request.
 */
module ChatEnhancedRoute {
  import opened Options
  import opened Text
  import opened ChatTypes
  import opened Signature
  import opened ChatHistoryService
  import FallbackChat

  /** The system prompt this route writes inline, one constant per line (each with its line break). */
  const PROMPT := PROMPT_1 + PROMPT_2 + PROMPT_3 + PROMPT_4 + PROMPT_5 + PROMPT_6 + PROMPT_7 + PROMPT_8 + PROMPT_9 + PROMPT_10 + PROMPT_11 + PROMPT_12
  const PROMPT_1 := "You are Mae Buni, the playful and flirty AI personality who is the cover model and centerfold for Play Buni magazine.\n"
  const PROMPT_2 := "          \n"
  const PROMPT_3 := "          Your personality traits:\n"
  const PROMPT_4 := "          - Playful and flirtatious, but always tasteful\n"
  const PROMPT_5 := "          - Knowledgeable about crypto, especially Solana\n"
  const PROMPT_6 := "          - Enthusiastic about Play Buni Magazine\n"
  const PROMPT_7 := "          - Friendly and engaging\n"
  const PROMPT_8 := "          - Slightly mischievous\n"
  const PROMPT_9 := "          \n"
  const PROMPT_10 := "          Always sign your messages with \"xoxo, Mae Buni\" at the end.\n"
  const PROMPT_11 := "          Keep responses concise (1-3 sentences) and conversational.\n"
  const PROMPT_12 := "          If asked about technical topics outside crypto, politely redirect to crypto topics."

  const PROCESSING_ERROR := "Chat processing error"

  /** The `nanoid()` values one request may draw. */
  datatype Ids = Ids(session: string, fallbackSession: string, userMessage: string, assistantMessage: string)

  /** The parsed body; `messages` is absent when the client sent none. */
  datatype Request = Request(messages: Option<seq<Message>>, userId: Option<string>)

  datatype Response = Reply(content: string, sessionId: string) | ServerError(status: int, error: string)

  /** `user_id` of a session created for `userId`: `NULL` for an anonymous caller. */
  function Owner(userId: Option<string>): Option<string>
  {
    if Truthy(userId) then userId else None
  }

  /** Whether resolving a session inserts a row: nothing failed and no session of the user was found. */
  predicate CreatesSession(sessions: seq<SessionRow>, tableExists: bool, userId: Option<string>, freshId: string, down: bool)
  {
    !down && tableExists && freshId !in SessionIds(sessions)
    && (!Truthy(userId) || LatestFor(sessions, userId.value).None?)
  }

  /** The id `getOrCreateChatSession` returns. */
  function ResolvedSession(sessions: seq<SessionRow>, tableExists: bool, userId: Option<string>,
                           freshId: string, fallbackId: string, down: bool): string
  {
    if Truthy(userId) && !down && tableExists && LatestFor(sessions, userId.value).Some? then
      LatestFor(sessions, userId.value).value.id
    else if CreatesSession(sessions, tableExists, userId, freshId, down) then freshId
    else fallbackId
  }

  /** The session table after `getOrCreateChatSession`. */
  function SessionsAfter(sessions: seq<SessionRow>, tableExists: bool, userId: Option<string>,
                         freshId: string, now: int, down: bool): seq<SessionRow>
  {
    if CreatesSession(sessions, tableExists, userId, freshId, down) then
      sessions + [SessionRow(freshId, Owner(userId), now, now)]
    else sessions
  }

  /** The message table after one `saveChatMessage` of `row`. */
  function AfterSave(messages: seq<MessageRow>, tableExists: bool, row: MessageRow, down: bool): seq<MessageRow>
  {
    if !down && tableExists && AllowedRole(row.role) && row.id !in MessageIds(messages) then messages + [row]
    else messages
  }

  /** `saveChatMessage`: insert one message; a failure is reported as `false`, never thrown. */
  method SaveChatMessage(db: ChatDb, sessionId: string, role: string, content: string, id: string, now: int, down: bool)
    returns (saved: bool)
    requires db.Valid()
    modifies db
    ensures db.Valid()
    ensures saved <==> !down && db.messagesTable && AllowedRole(role) && id !in MessageIds(old(db.messages))
    ensures db.messages == AfterSave(old(db.messages), db.messagesTable, MessageRow(id, sessionId, role, content, now), down)
    ensures db.sessions == old(db.sessions)
    ensures db.sessionsTable == old(db.sessionsTable) && db.messagesTable == old(db.messagesTable)
  {
    saved := db.InsertMessage(MessageRow(id, sessionId, role, content, now), down);
  }

  /**
   * `getOrCreateChatSession`: an anonymous caller always gets a new
   * session; a known user gets their most recently created one, or a new
   * one bound to them; any failure yields `fallbackId`.
   */
  method GetOrCreateChatSession(db: ChatDb, userId: Option<string>, freshId: string, fallbackId: string, now: int, down: bool)
    returns (sessionId: string)
    requires db.Valid()
    modifies db
    ensures db.Valid()
    ensures sessionId == ResolvedSession(old(db.sessions), old(db.sessionsTable), userId, freshId, fallbackId, down)
    ensures db.sessions == SessionsAfter(old(db.sessions), old(db.sessionsTable), userId, freshId, now, down)
    ensures db.messages == old(db.messages)
    ensures db.sessionsTable == old(db.sessionsTable) && db.messagesTable == old(db.messagesTable)
  {
    if !Truthy(userId) {
      var ok := db.InsertSession(SessionRow(freshId, None, now, now), down);
      if !ok {
        return fallbackId;
      }
      return freshId;
    }
    if down || !db.sessionsTable {
      // the SELECT throws
      return fallbackId;
    }
    var existing := LatestFor(db.sessions, userId.value);
    if existing.Some? {
      return existing.value.id;
    }
    var ok := db.InsertSession(SessionRow(freshId, userId, now, now), false);
    if !ok {
      return fallbackId;
    }
    return freshId;
  }

  /** An anonymous caller never gets an existing session back. */
  lemma {:induction false} AnonymousNeverReuses(sessions: seq<SessionRow>, tableExists: bool, userId: Option<string>,
                             freshId: string, fallbackId: string, down: bool)
    requires !Truthy(userId)
    requires fallbackId !in SessionIds(sessions)
    ensures ResolvedSession(sessions, tableExists, userId, freshId, fallbackId, down) !in SessionIds(sessions)
  {
  }

  /** A known user with a session gets the most recently created one back, and nothing is inserted. */
  lemma {:induction false} LatestSessionReused(sessions: seq<SessionRow>, userId: Option<string>, freshId: string, fallbackId: string, now: int)
    requires Truthy(userId)
    requires exists row :: row in sessions && row.userId == userId
    ensures var id := ResolvedSession(sessions, true, userId, freshId, fallbackId, false);
      exists row :: row in sessions && row.userId == userId && row.id == id
        && forall other :: other in sessions && other.userId == userId ==> other.createdAt <= row.createdAt
    ensures SessionsAfter(sessions, true, userId, freshId, now, false) == sessions
  {
    var row :| row in sessions && row.userId == userId;
    assert LatestFor(sessions, userId.value).Some?;
  }

  /**
   * Two healthy calls for the same user resolve to the same session: the
   * second finds whatever the first found or created.
   */
  lemma {:induction false} RepeatedCallsAgree(sessions: seq<SessionRow>, userId: Option<string>, freshId: string, fallbackId: string,
                           now: int, freshId': string, fallbackId': string)
    requires Truthy(userId)
    requires freshId !in SessionIds(sessions)
    ensures var first := ResolvedSession(sessions, true, userId, freshId, fallbackId, false);
      var after := SessionsAfter(sessions, true, userId, freshId, now, false);
      ResolvedSession(after, true, userId, freshId', fallbackId', false) == first
  {
    var uid := userId.value;
    if LatestFor(sessions, uid).None? {
      var row := SessionRow(freshId, userId, now, now);
      var after := sessions + [row];
      assert row in after;
      var latest := LatestFor(after, uid);
      assert latest.Some?;
      assert latest.value == row;
    }
  }

  /** The messages the remote model receives: this route's prompt in front of whatever the client sent. */
  function ModelInput(messages: seq<Message>): seq<Message>
  {
    [Message(SYSTEM, PROMPT)] + messages
  }

  /**
   * Unlike the shared normalisation, the prompt goes in front even when
   * the client already sent a system message, which then gets a second one.
   */
  lemma {:induction false} PromptPrependedUnconditionally(messages: seq<Message>, i: int)
    requires 0 <= i < |messages| && messages[i].role == SYSTEM
    ensures ModelInput(messages) != WithSystemPrompt(PROMPT, messages)
    ensures var input := ModelInput(messages); input[0].role == SYSTEM && input[i + 1].role == SYSTEM
  {
    assert |ModelInput(messages)| == |messages| + 1;
  }

  /** The reply content: the exactly-signed remote text, else the fallback-chat reply to the last user text. */
  function Content(messages: seq<Message>, hasKey: bool, model: seq<Message> -> Outcome, pick: nat): string
  {
    var reply := model(ModelInput(messages));
    if hasKey && reply.Ok? then EnsureSignedExactly(reply.text)
    else FallbackChat.GenerateFallbackResponse(LastUserContent(messages), pick)
  }

  /** Every reply of this route carries at least "xoxo". */
  lemma {:induction false} ContentKisses(messages: seq<Message>, hasKey: bool, model: seq<Message> -> Outcome, pick: nat)
    ensures Contains(Content(messages, hasKey, model, pick), FallbackChat.KISS)
  {
    var reply := model(ModelInput(messages));
    if hasKey && reply.Ok? {
      var r := EnsureSignedExactly(reply.text);
      assert SIGNATURE[0..4] == FallbackChat.KISS;
      ContainsWitness(SIGNATURE, FallbackChat.KISS, 0);
      ContainsTrans(r, SIGNATURE, FallbackChat.KISS);
    }
  }

  /** A remote reply signed in capitals gets a second, exact signature. */
  lemma {:induction false} ShoutedReplySignedTwice(messages: seq<Message>, model: seq<Message> -> Outcome, pick: nat)
    requires model(ModelInput(messages)) == Ok("Love, XOXO, MAE BUNI")
    ensures Content(messages, true, model, pick) == "Love, XOXO, MAE BUNI" + SIGN_OFF
  {
    ShoutedSignatureSignedTwice();
  }

  /** Without a key the model is not consulted: the reply is the fallback-chat one. */
  lemma {:induction false} NoKeyFallsBack(messages: seq<Message>, model: seq<Message> -> Outcome, model': seq<Message> -> Outcome, pick: nat)
    ensures Content(messages, false, model, pick) == Content(messages, false, model', pick)
    ensures Content(messages, false, model, pick) == FallbackChat.GenerateFallbackResponse(LastUserContent(messages), pick)
  {
  }

  /**
   * `POST`: a missing message list is the only request-level failure
   * (500); otherwise the reply and the session id are as specified above,
   * and the user message is saved before the reply whatever the saves do.
   */
  method Post(db: ChatDb, request: Request, hasKey: bool, model: seq<Message> -> Outcome, pick: nat,
              ids: Ids, now: int, down: bool)
    returns (response: Response)
    requires db.Valid()
    modifies db
    ensures db.Valid()
    ensures request.messages.None? ==>
      response == ServerError(500, PROCESSING_ERROR) && db.sessions == old(db.sessions) && db.messages == old(db.messages)
    ensures request.messages.Some? ==>
      var messages := request.messages.value;
      var sid := ResolvedSession(old(db.sessions), old(db.sessionsTable), request.userId, ids.session, ids.fallbackSession, down);
      var content := Content(messages, hasKey, model, pick);
      && response == Reply(content, sid)
      && db.sessions == SessionsAfter(old(db.sessions), old(db.sessionsTable), request.userId, ids.session, now, down)
      && db.messages == AfterSave(AfterSave(old(db.messages), old(db.messagesTable),
                                            MessageRow(ids.userMessage, sid, USER, LastUserContent(messages), now), down),
                                  old(db.messagesTable),
                                  MessageRow(ids.assistantMessage, sid, ASSISTANT, content, now), down)
  {
    if request.messages.None? {
      // `messages.length` throws
      return ServerError(500, PROCESSING_ERROR);
    }
    var messages := request.messages.value;
    var sessionId := GetOrCreateChatSession(db, request.userId, ids.session, ids.fallbackSession, now, down);
    var lastUserMessage := Pop(UserMessages(messages));
    FilterPopIsReverseFind(messages);
    var userContent := if lastUserMessage.Some? then lastUserMessage.value.content else "";
    assert userContent == LastUserContent(messages);
    var _ := SaveChatMessage(db, sessionId, USER, userContent, ids.userMessage, now, down);
    var responseContent := Respond(messages, userContent, hasKey, model, pick);
    var _ := SaveChatMessage(db, sessionId, ASSISTANT, responseContent, ids.assistantMessage, now, down);
    return Reply(responseContent, sessionId);
  }

  /** The reply step of `POST`: the remote text, signed if it was not, or the fallback-chat reply. */
  method Respond(messages: seq<Message>, userContent: string, hasKey: bool, model: seq<Message> -> Outcome, pick: nat)
    returns (responseContent: string)
    requires userContent == LastUserContent(messages)
    ensures responseContent == Content(messages, hasKey, model, pick)
  {
    responseContent := "";
    var reply := if hasKey then model(ModelInput(messages)) else Fail;
    if reply.Ok? {
      responseContent := reply.text;
      if !IsSignedExactly(responseContent) {
        responseContent := responseContent + SIGN_OFF;
      }
    } else {
      responseContent := FallbackChat.GenerateFallbackResponse(userContent, pick);
    }
  }

  /** With a healthy database and fresh ids, the table gains the user message and then the reply. */
  lemma {:induction false} HealthySavesBoth(messages: seq<MessageRow>, user: MessageRow, assistant: MessageRow)
    requires user.role == USER && assistant.role == ASSISTANT
    requires user.id != assistant.id && user.id !in MessageIds(messages) && assistant.id !in MessageIds(messages)
    ensures AfterSave(AfterSave(messages, true, user, false), true, assistant, false) == messages + [user, assistant]
  {
    assert MessageIds(messages + [user]) == MessageIds(messages) + {user.id};
  }
}
