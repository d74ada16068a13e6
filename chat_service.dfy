/**
 * `lib/chat-service.ts`: the client asks the chat-ai-sdk route and, on any
 * failure, answers locally with the local-chat reply to the last user
 * message. `api` stands for the `fetch` of that route.
 */
module ChatService {
  import opened Text
  import opened ChatTypes
  import LocalChat

  datatype Reply = Reply(content: string, isLocal: bool)

  /** `getChatResponse`: the local reply to the last user message; no request is made. */
  function GetChatResponse(messages: seq<Message>, pick: nat): (r: string)
    ensures r in LocalChat.Pool(LocalChat.Classify(LastUserContent(messages)))
    ensures EndsWith(r, SIGNATURE)
  {
    LocalChat.GenerateResponse(LastUserContent(messages), pick)
  }

  /** `sendChatMessage`: the route's content when it answered with an ok status, else the local reply. */
  function SendChatMessage(messages: seq<Message>, api: seq<Message> -> ApiReply, pick: nat): (r: Reply)
    ensures r.isLocal <==> !IsOk(api(messages))
    ensures !r.isLocal ==> r.content == api(messages).body.content
    ensures r.isLocal ==> r.content == GetChatResponse(messages, pick)
  {
    var response := api(messages);
    if IsOk(response) then Reply(response.body.content, false)
    else Reply(GetChatResponse(messages, pick), true)
  }

  /** A local answer is signed and does not depend on what the route did. */
  lemma {:induction false} LocalReplyIndependentOfApi(messages: seq<Message>, api: seq<Message> -> ApiReply, api': seq<Message> -> ApiReply, pick: nat)
    requires !IsOk(api(messages)) && !IsOk(api'(messages))
    ensures SendChatMessage(messages, api, pick) == SendChatMessage(messages, api', pick)
    ensures EndsWith(SendChatMessage(messages, api, pick).content, SIGNATURE)
  {
  }
}
