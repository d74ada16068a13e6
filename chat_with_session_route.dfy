/**
 * `app/api/chat-with-session/route.ts`: like the chat-ai-sdk route, but the
 * client names the session. Nothing resolves or creates a session here;
 * both messages are written under the given id.
 */
module ChatWithSessionRoute {
  import opened Options
  import opened ChatTypes
  import opened ChatHistoryService
  import ChatEnhancedRoute
  import ChatAiSdkRoute
  import LocalChat
  import AiSdkService

  const SESSION_REQUIRED := "Session ID is required"

  /** The parsed body: the message list and the client's session id, either of which may be missing. */
  datatype Request = Request(messages: Option<seq<Message>>, sessionId: Option<string>)

  datatype Response =
    | Reply(content: string, sessionId: string, model: string)
    | BadRequest(status: int, error: string)
    | ServerError(status: int, error: string)

  /**
   * `POST`: a missing or empty session id is answered 400 before anything
   * else happens; a missing message list 500; otherwise the reply echoes
   * the session id.
   */
  method Post(db: ChatDb, request: Request, model: seq<Message> -> Outcome, pick: nat,
              ids: ChatEnhancedRoute.Ids, now: int, down: bool)
    returns (response: Response)
    requires db.Valid()
    modifies db
    ensures db.Valid()
    ensures db.sessions == old(db.sessions)
    ensures !Truthy(request.sessionId) ==>
      response == BadRequest(400, SESSION_REQUIRED) && db.messages == old(db.messages)
    ensures Truthy(request.sessionId) && request.messages.None? ==>
      response == ServerError(500, ChatEnhancedRoute.PROCESSING_ERROR) && db.messages == old(db.messages)
    ensures Truthy(request.sessionId) && request.messages.Some? ==>
      var messages := request.messages.value;
      var sid := request.sessionId.value;
      var content := ChatAiSdkRoute.Content(messages, model, pick);
      && response == Reply(content, sid, ChatAiSdkRoute.GROK_3)
      && db.messages == ChatEnhancedRoute.AfterSave(
           ChatEnhancedRoute.AfterSave(old(db.messages), old(db.messagesTable),
                                       MessageRow(ids.userMessage, sid, USER, LastUserContent(messages), now), down),
           old(db.messagesTable),
           MessageRow(ids.assistantMessage, sid, ASSISTANT, content, now), down)
  {
    if !Truthy(request.sessionId) {
      return BadRequest(400, SESSION_REQUIRED);
    }
    var sessionId := request.sessionId.value;
    if request.messages.None? {
      return ServerError(500, ChatEnhancedRoute.PROCESSING_ERROR);
    }
    var messages := request.messages.value;
    var lastUserMessage := Pop(UserMessages(messages));
    FilterPopIsReverseFind(messages);
    var userContent := if lastUserMessage.Some? then lastUserMessage.value.content else "";
    var _ := ChatEnhancedRoute.SaveChatMessage(db, sessionId, USER, userContent, ids.userMessage, now, down);
    var responseContent := "";
    var reply := AiSdkService.GenerateAIResponse(messages, model);
    if reply.Ok? {
      responseContent := reply.text;
    } else {
      responseContent := LocalChat.GenerateResponse(userContent, pick);
    }
    var _ := ChatEnhancedRoute.SaveChatMessage(db, sessionId, ASSISTANT, responseContent, ids.assistantMessage, now, down);
    return Reply(responseContent, sessionId, ChatAiSdkRoute.GROK_3);
  }
}
