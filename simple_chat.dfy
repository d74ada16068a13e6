/**
 * `components/simple-chat.tsx`: a chat page that posts the transcript to
 * `/api/chat-simple` and appends whatever comes back. The request is the
 * oracle `api`; `Threw` stands for a failed `fetch` or an unreadable body.
 */
module SimpleChat {
  import opened Options
  import opened Text
  import opened ChatTypes
  import opened StreamingChatService
  import StreamingChat

  const APOLOGY := "I'm having trouble connecting right now, but I'd love to chat more soon! xoxo, Mae Buni"

  /** The assistant text a submission appends for the server's answer. */
  function ReplyText(reply: ApiReply): string
  {
    if reply.Responded? then reply.body.content else APOLOGY
  }

  /** `data.isUsingFallback || false`, and `true` when the request threw. */
  function FallbackFlag(reply: ApiReply): bool
  {
    if reply.Responded? then reply.body.isUsingFallback.GetOr(false) else true
  }

  /** The transcript after a submission of `text` answered by `reply`. */
  function AfterSubmit(messages: seq<ClientMessage>, text: string, reply: ApiReply,
                       userId: string, assistantId: string, now: int, later: int): seq<ClientMessage>
  {
    messages + [CreateMessage(USER, text, userId, now)] + [CreateMessage(ASSISTANT, ReplyText(reply), assistantId, later)]
  }

  class SimpleChat {
    var messages: seq<ClientMessage>
    var input: string
    var isLoading: bool
    var isUsingFallback: bool

    constructor (greetingId: string, now: int)
      ensures messages == StreamingChat.Welcome(greetingId, now) && input == ""
      ensures !isLoading && !isUsingFallback
    {
      messages := StreamingChat.Welcome(greetingId, now);
      input := "";
      isLoading := false;
      isUsingFallback := false;
    }

    /** `handleTextareaChange`. */
    method SetInput(text: string)
      modifies this
      ensures input == text
      ensures messages == old(messages) && isLoading == old(isLoading) && isUsingFallback == old(isUsingFallback)
    {
      input := text;
    }

    /**
     * `handleSubmit`: ignored while the trimmed input is empty or a request
     * is in flight; otherwise the whole prior transcript plus the new user
     * message goes to the server, and exactly one assistant message follows
     * the user message.
     */
    method HandleSubmit(api: seq<Message> -> ApiReply, userId: string, assistantId: string, now: int, later: int)
      modifies this
      ensures IsBlank(old(input)) || old(isLoading) ==>
        messages == old(messages) && input == old(input) && isLoading == old(isLoading)
        && isUsingFallback == old(isUsingFallback)
      ensures !(IsBlank(old(input)) || old(isLoading)) ==>
        var reply := api(AsMessages(old(messages) + [CreateMessage(USER, old(input), userId, now)]));
        && messages == AfterSubmit(old(messages), old(input), reply, userId, assistantId, now, later)
        && input == "" && !isLoading
        && isUsingFallback == FallbackFlag(reply)
    {
      if IsBlank(input) || isLoading {
        return;
      }
      var userMessage := CreateMessage(USER, input, userId, now);
      var history := messages;
      messages := messages + [userMessage];
      input := "";
      isLoading := true;
      var response := api(AsMessages(history + [userMessage]));
      if response.Responded? {
        var assistantMessage := CreateMessage(ASSISTANT, response.body.content, assistantId, later);
        messages := messages + [assistantMessage];
        isUsingFallback := response.body.isUsingFallback.GetOr(false);
      } else {
        var fallbackMessage := CreateMessage(ASSISTANT, APOLOGY, assistantId, later);
        messages := messages + [fallbackMessage];
        isUsingFallback := true;
      }
      // finally
      isLoading := false;
    }
  }

  /** The apology a failed request appends is signed. */
  lemma ApologySigned()
    ensures EndsWith(APOLOGY, SIGNATURE)
  {
    assert APOLOGY == "I'm having trouble connecting right now, but I'd love to chat more soon! " + SIGNATURE;
    EndsWithAppend("I'm having trouble connecting right now, but I'd love to chat more soon! ", SIGNATURE);
  }

  /** The request is the prior transcript, as role/content pairs, followed by the new user text. */
  lemma {:induction false} RequestCarriesTranscript(messages: seq<ClientMessage>, text: string, userId: string, now: int)
    ensures AsMessages(messages + [CreateMessage(USER, text, userId, now)]) == AsMessages(messages) + [Message(USER, text)]
    ensures LastUserContent(AsMessages(messages + [CreateMessage(USER, text, userId, now)])) == text
  {
    var r := AsMessages(messages + [CreateMessage(USER, text, userId, now)]);
    assert r == AsMessages(messages) + [Message(USER, text)];
    assert LastUserAt(r, |messages|);
  }

  /**
   * A submission adds exactly the user message and one assistant message:
   * the server's text when it answered, the signed apology when it did not.
   * The fallback flag is raised exactly when the request threw or the
   * server said so.
   */
  lemma {:induction false} SubmitAppendsPair(messages: seq<ClientMessage>, text: string, reply: ApiReply,
                          userId: string, assistantId: string, now: int, later: int)
    ensures var r := AfterSubmit(messages, text, reply, userId, assistantId, now, later);
      && |r| == |messages| + 2 && r[..|messages|] == messages
      && r[|messages|].role == USER && r[|messages|].content == text
      && r[|messages| + 1].role == ASSISTANT
      && (reply.Responded? ==> r[|messages| + 1].content == reply.body.content)
      && (reply.Threw? ==> EndsWith(r[|messages| + 1].content, SIGNATURE))
    ensures FallbackFlag(reply) <==> reply.Threw? || reply.body.isUsingFallback == Some(true)
  {
    ApologySigned();
  }
}
