/**
 * `middleware.ts`: a `POST` to exactly `/api/chat` is rewritten to
 * `/api/chat-with-session`; every other request passes through.
 */
module Middleware {

  const CHAT_PATH := "/api/chat"
  const SESSION_CHAT_PATH := "/api/chat-with-session"

  /** A request URL, split into what the rewrite keeps and what it changes. */
  datatype Url = Url(origin: string, pathname: string, search: string)

  datatype Action = Rewrite(url: Url) | Next

  /** `middleware(request)`. */
  function Middleware(httpMethod: string, url: Url): (a: Action)
    ensures a.Rewrite? <==> httpMethod == "POST" && url.pathname == CHAT_PATH
    ensures a.Rewrite? ==> a.url.pathname == SESSION_CHAT_PATH && a.url.origin == url.origin && a.url.search == url.search
  {
    if httpMethod == "POST" && url.pathname == CHAT_PATH then Rewrite(url.(pathname := SESSION_CHAT_PATH)) else Next
  }

  /** A rewritten request is not rewritten again. */
  lemma {:induction false} RewriteIsFinal(httpMethod: string, url: Url)
    requires Middleware(httpMethod, url).Rewrite?
    ensures Middleware(httpMethod, Middleware(httpMethod, url).url) == Next
  {
    assert |SESSION_CHAT_PATH| != |CHAT_PATH|;
  }
}
