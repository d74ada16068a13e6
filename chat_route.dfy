/**
 * `app/api/chat/route.ts`: `generateAIResponse` when a key is configured,
 * the local-chat reply otherwise or when it throws, and a fresh session id
 * on every call. The parsed `userId` plays no part in the answer.
 */
module ChatRoute {
  import opened Options
  import opened Text
  import opened ChatTypes
  import opened Signature
  import LocalChat
  import AiSdkService

  const PROCESSING_ERROR := "Chat processing error"
  const GREETING := "Hello"

  datatype Request = Request(messages: Option<seq<Message>>, userId: Option<string>)

  datatype Response =
    | Reply(content: string, sessionId: string, isUsingFallback: bool)
    | ServerError(status: int, error: string, fallbackContent: string)

  /**
   * `POST`: the fallback flag is set exactly when there is no key or the
   * remote call failed; remote content is normalised and therefore signed.
   */
  method Post(request: Request, hasKey: bool, model: seq<Message> -> Outcome, pick: nat, freshId: string)
    returns (response: Response)
    ensures request.messages.None? ==>
      response == ServerError(500, PROCESSING_ERROR, LocalChat.GenerateResponse(GREETING, pick))
    ensures request.messages.Some? ==>
      var ms := request.messages.value;
      var reply := model(WithSystemPrompt(AiSdkService.SYSTEM_PROMPT, ms));
      && response.Reply? && response.sessionId == freshId
      && (response.isUsingFallback <==> !hasKey || reply.Fail?)
      && (response.isUsingFallback ==> response.content == LocalChat.GenerateResponse(LastUserContent(ms), pick))
      && (!response.isUsingFallback ==> response.content == EnsureSigned(reply.text))
    ensures response.Reply? ==> IsSigned(response.content)
  {
    if request.messages.None? {
      return ServerError(500, PROCESSING_ERROR, LocalChat.GenerateResponse(GREETING, pick));
    }
    var ms := request.messages.value;
    var lastUserMessage := Pop(UserMessages(ms));
    FilterPopIsReverseFind(ms);
    var userContent := if lastUserMessage.Some? then lastUserMessage.value.content else "";
    var responseContent := "";
    var isUsingFallback := false;
    var reply := Fail;
    if hasKey {
      reply := AiSdkService.GenerateAIResponse(ms, model);
    }
    if reply.Ok? {
      responseContent := reply.text;
    } else {
      responseContent := LocalChat.GenerateResponse(userContent, pick);
      LocalChat.ReplySigned(userContent, pick);
      ExactlySignedIsSigned(responseContent);
      isUsingFallback := true;
    }
    return Reply(responseContent, freshId, isUsingFallback);
  }
}
