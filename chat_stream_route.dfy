/**
 * `app/api/chat-stream/route.ts`: despite its name the route never calls a
 * model; it answers the local-chat reply as plain text and reports the
 * session id in a header.
 */
module ChatStreamRoute {
  import opened Options
  import opened Text
  import opened ChatTypes
  import LocalChat

  const PROCESSING_ERROR := "Chat processing error"
  const SESSION_HEADER := "X-Session-Id"
  const CONTENT_TYPE_HEADER := "Content-Type"
  const PLAIN_TEXT := "text/plain; charset=utf-8"

  datatype Request = Request(messages: Option<seq<Message>>, userId: Option<string>, sessionId: Option<string>)

  datatype Response = Stream(body: string, headers: map<string, string>) | ServerError(status: int, error: string)

  /**
   * `existingSessionId || nanoid()`: the client's session is kept when it
   * names one, and a fresh id is minted only when it does not.
   */
  function SessionId(request: Request, freshId: string): (r: string)
    ensures freshId != "" ==> r != ""
    ensures request.sessionId == Some(r) || r == freshId
    ensures Truthy(request.sessionId) ==> request.sessionId == Some(r)
  {
    if Truthy(request.sessionId) then request.sessionId.value else freshId
  }

  /**
   * A client that sends back the id it was given in the header stays in
   * that session, whatever fresh id the next request would have drawn.
   */
  lemma {:induction false} SessionIdEchoed(request: Request, freshId: string, next: Request, nextFreshId: string)
    requires freshId != ""
    requires next.sessionId == Some(SessionId(request, freshId))
    ensures SessionId(next, nextFreshId) == SessionId(request, freshId)
  {
  }

  /** `POST`. */
  function Post(request: Request, freshId: string, pick: nat): (r: Response)
    ensures r.ServerError? <==> request.messages.None?
    ensures r.ServerError? ==> r.status == 500
    ensures r.Stream? ==>
      && SESSION_HEADER in r.headers && r.headers[SESSION_HEADER] == SessionId(request, freshId)
      && CONTENT_TYPE_HEADER in r.headers && r.headers[CONTENT_TYPE_HEADER] == PLAIN_TEXT
      && r.body in LocalChat.Pool(LocalChat.Classify(LastUserContent(request.messages.value)))
      && EndsWith(r.body, SIGNATURE)
  {
    match request.messages
    case None => ServerError(500, PROCESSING_ERROR)
    case Some(ms) =>
      Stream(LocalChat.GenerateResponse(LastUserContent(ms), pick),
             map[CONTENT_TYPE_HEADER := PLAIN_TEXT,
                 "Cache-Control" := "no-cache, no-transform",
                 "X-Content-Type-Options" := "nosniff",
                 SESSION_HEADER := SessionId(request, freshId)])
  }
}
