/**
 * `app/api/chat-ai-sdk/route.ts`: the same session resolution and
 * message saving as the chat-enhanced route (its two helpers are
 * identical copies, modelled once in `ChatEnhancedRoute`), with the reply
 * coming from `generateAIResponse` and, when that throws, from the
 * local-chat generator. The answer always names the model "grok-3".
 */
module ChatAiSdkRoute {
  import opened Options
  import opened Text
  import opened ChatTypes
  import opened Signature
  import opened ChatHistoryService
  import ChatEnhancedRoute
  import LocalChat
  import AiSdkService

  const GROK_3 := "grok-3"

  datatype Response = Reply(content: string, sessionId: string, model: string) | ServerError(status: int, error: string)

  /**
   * The reply content shared with the chat-with-session route: the
   * normalised remote reply, else the local-chat reply to the last user text.
   */
  function Content(messages: seq<Message>, model: seq<Message> -> Outcome, pick: nat): string
  {
    var reply := model(WithSystemPrompt(AiSdkService.SYSTEM_PROMPT, messages));
    if reply.Ok? then EnsureSigned(reply.text) else LocalChat.GenerateResponse(LastUserContent(messages), pick)
  }

  /** Whichever way it was produced, the content passes the case-insensitive signature test. */
  lemma {:induction false} ContentSigned(messages: seq<Message>, model: seq<Message> -> Outcome, pick: nat)
    ensures IsSigned(Content(messages, model, pick))
  {
    var reply := model(WithSystemPrompt(AiSdkService.SYSTEM_PROMPT, messages));
    if reply.Fail? {
      var r := LocalChat.GenerateResponse(LastUserContent(messages), pick);
      EndsWithContains(r, SIGNATURE);
      ExactlySignedIsSigned(r);
    }
  }

  /** `POST`: 500 without a message list; otherwise `{content, sessionId, model: "grok-3"}`. */
  method Post(db: ChatDb, request: ChatEnhancedRoute.Request, model: seq<Message> -> Outcome, pick: nat, ids: ChatEnhancedRoute.Ids, now: int, down: bool)
    returns (response: Response)
    requires db.Valid()
    modifies db
    ensures db.Valid()
    ensures request.messages.None? ==>
      response == ServerError(500, ChatEnhancedRoute.PROCESSING_ERROR) && db.sessions == old(db.sessions) && db.messages == old(db.messages)
    ensures request.messages.Some? ==>
      var messages := request.messages.value;
      var sid := ChatEnhancedRoute.ResolvedSession(old(db.sessions), old(db.sessionsTable), request.userId, ids.session, ids.fallbackSession, down);
      var content := Content(messages, model, pick);
      && response == Reply(content, sid, GROK_3)
      && db.sessions == ChatEnhancedRoute.SessionsAfter(old(db.sessions), old(db.sessionsTable), request.userId, ids.session, now, down)
      && db.messages == ChatEnhancedRoute.AfterSave(ChatEnhancedRoute.AfterSave(old(db.messages), old(db.messagesTable),
                                            MessageRow(ids.userMessage, sid, USER, LastUserContent(messages), now), down),
                                  old(db.messagesTable),
                                  MessageRow(ids.assistantMessage, sid, ASSISTANT, content, now), down)
  {
    if request.messages.None? {
      return ServerError(500, ChatEnhancedRoute.PROCESSING_ERROR);
    }
    var messages := request.messages.value;
    var sessionId := ChatEnhancedRoute.GetOrCreateChatSession(db, request.userId, ids.session, ids.fallbackSession, now, down);
    var lastUserMessage := Pop(UserMessages(messages));
    FilterPopIsReverseFind(messages);
    var userContent := if lastUserMessage.Some? then lastUserMessage.value.content else "";
    var _ := ChatEnhancedRoute.SaveChatMessage(db, sessionId, USER, userContent, ids.userMessage, now, down);
    var responseContent := "";
    var reply := AiSdkService.GenerateAIResponse(messages, model);
    if reply.Ok? {
      responseContent := reply.text;
    } else {
      responseContent := LocalChat.GenerateResponse(userContent, pick);
    }
    var _ := ChatEnhancedRoute.SaveChatMessage(db, sessionId, ASSISTANT, responseContent, ids.assistantMessage, now, down);
    return Reply(responseContent, sessionId, GROK_3);
  }
}
