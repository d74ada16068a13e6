/**
 * `lib/streaming-chat-service.ts`: despite the name, one `POST /api/chat`
 * whose whole content is handed to `onChunk` as a single chunk; on any
 * failure the local-chat reply is the chunk and `onError` follows. The
 * callbacks are modelled as the trace of events they receive.
 */
module StreamingChatService {
  import opened Options
  import opened Text
  import opened ChatTypes
  import LocalChat

  /** A transcript entry of the chat components. */
  datatype ClientMessage = ClientMessage(id: string, role: string, content: string, timestamp: int)

  /** A call of `onChunk` or of `onError`. */
  datatype Event = Chunk(text: string) | Error

  datatype StreamResult = StreamResult(sessionId: Option<string>, isUsingFallback: Option<bool>)

  /** `createMessage`; `id` and `now` stand for `nanoid()` and `new Date()`. */
  function CreateMessage(role: string, content: string, id: string, now: int): (m: ClientMessage)
    ensures m.role == role && m.content == content && m.id == id && m.timestamp == now
  {
    ClientMessage(id, role, content, now)
  }

  /** `messages.map((m) => ({role: m.role, content: m.content}))`. */
  function AsMessages(ms: seq<ClientMessage>): (r: seq<Message>)
    ensures |r| == |ms|
    ensures forall k :: 0 <= k < |ms| ==> r[k] == Message(ms[k].role, ms[k].content)
  {
    seq(|ms|, k requires 0 <= k < |ms| => Message(ms[k].role, ms[k].content))
  }

  function ChunkCount(events: seq<Event>): nat
  {
    if |events| == 0 then 0 else (if events[0].Chunk? then 1 else 0) + ChunkCount(events[1..])
  }

  function ErrorCount(events: seq<Event>): nat
  {
    if |events| == 0 then 0 else (if events[0].Error? then 1 else 0) + ErrorCount(events[1..])
  }

  lemma {:induction false} CountsOfOneChunk(text: string)
    ensures ChunkCount([Chunk(text)]) == 1 && ErrorCount([Chunk(text)]) == 0
  {
    assert [Chunk(text)][1..] == [];
  }

  lemma {:induction false} CountsOfChunkThenError(text: string)
    ensures ChunkCount([Chunk(text), Error]) == 1 && ErrorCount([Chunk(text), Error]) == 1
  {
    assert [Chunk(text), Error][1..] == [Error];
    assert [Error][1..] == [];
  }

  /**
   * `streamChatResponse`: exactly one chunk either way; a non-2xx status
   * or a thrown error gives the local reply, one error report and
   * `{isUsingFallback: true}` with no session id.
   */
  method StreamChatResponse(messages: seq<ClientMessage>, api: seq<Message> -> ApiReply, pick: nat)
    returns (events: seq<Event>, result: StreamResult)
    ensures ChunkCount(events) == 1
    ensures ErrorCount(events) == if IsOk(api(AsMessages(messages))) then 0 else 1
    ensures var reply := api(AsMessages(messages));
      if IsOk(reply) then
        events == [Chunk(reply.body.content)] && result == StreamResult(reply.body.sessionId, reply.body.isUsingFallback)
      else
        && events == [Chunk(LocalChat.GenerateResponse(LastUserContent(AsMessages(messages)), pick)), Error]
        && result == StreamResult(None, Some(true))
  {
    events := [];
    var formattedMessages := AsMessages(messages);
    var response := api(formattedMessages);
    if IsOk(response) {
      events := events + [Chunk(response.body.content)];
      CountsOfOneChunk(response.body.content);
      result := StreamResult(response.body.sessionId, response.body.isUsingFallback);
      return;
    }
    var userContent := LastUserContent(AsMessages(messages));
    var fallbackContent := LocalChat.GenerateResponse(userContent, pick);
    events := events + [Chunk(fallbackContent)];
    events := events + [Error];
    CountsOfChunkThenError(fallbackContent);
    result := StreamResult(None, Some(true));
  }
}
