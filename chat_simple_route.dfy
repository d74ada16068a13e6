/**
 * `app/api/chat-simple/route.ts`: the remote reply normalised inline
 * (system prompt when none is present, case-insensitive signature), the
 * local-chat reply with `isUsingFallback` when the remote call throws, and
 * a fresh session id on every call. Nothing is stored.
 */
module ChatSimpleRoute {
  import opened Options
  import opened ChatTypes
  import opened Signature
  import LocalChat
  import AiSdkService
  import ChatAiSdkRoute

  /** The route's own prompt; its text is the same as the AI SDK service's. */
  const SYSTEM_PROMPT := AiSdkService.SYSTEM_PROMPT

  const PROCESSING_ERROR := "Chat processing error"

  /** What a failed request is answered as if the user had written. */
  const GREETING := "Hello"

  /** Both answers have status 200; a request-level failure is told apart only by `error`. */
  datatype Response =
    | Reply(content: string, sessionId: string, isUsingFallback: bool)
    | ErrorEnvelope(content: string, error: string, isUsingFallback: bool)

  /**
   * `POST`: the content is the one the AI SDK route computes, and the
   * fallback flag is set exactly when the remote call failed.
   */
  method Post(messages: Option<seq<Message>>, model: seq<Message> -> Outcome, pick: nat, freshId: string)
    returns (response: Response)
    ensures messages.None? ==>
      response == ErrorEnvelope(LocalChat.GenerateResponse(GREETING, pick), PROCESSING_ERROR, true)
    ensures messages.Some? ==>
      var reply := model(WithSystemPrompt(SYSTEM_PROMPT, messages.value));
      response == Reply(ChatAiSdkRoute.Content(messages.value, model, pick), freshId, reply.Fail?)
  {
    if messages.None? {
      return ErrorEnvelope(LocalChat.GenerateResponse(GREETING, pick), PROCESSING_ERROR, true);
    }
    var ms := messages.value;
    var lastUserMessage := Pop(UserMessages(ms));
    FilterPopIsReverseFind(ms);
    var userContent := if lastUserMessage.Some? then lastUserMessage.value.content else "";
    var responseContent := "";
    var isUsingFallback := false;
    var formattedMessages := ms;
    if !HasSystem(formattedMessages) {
      formattedMessages := [Message(SYSTEM, SYSTEM_PROMPT)] + formattedMessages;
    }
    var reply := model(formattedMessages);
    if reply.Ok? {
      responseContent := reply.text;
      if !IsSigned(responseContent) {
        responseContent := responseContent + SIGN_OFF;
      }
    } else {
      responseContent := LocalChat.GenerateResponse(userContent, pick);
      isUsingFallback := true;
    }
    return Reply(responseContent, freshId, isUsingFallback);
  }

  /** The error envelope carries a reply from the greeting pool. */
  lemma {:induction false} ErrorEnvelopeGreets(pick: nat)
    ensures LocalChat.GenerateResponse(GREETING, pick) in LocalChat.Pool(LocalChat.Greeting)
  {
    LocalChat.HelloIsGreeting();
  }
}
