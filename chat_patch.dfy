/**
 * `lib/chat-patch.ts`: while patched, `window.fetch` answers chat `POST`s
 * itself with the local-chat reply and forwards everything else to the
 * original `fetch`. The global is a field of `FetchState`; a call's
 * `Date.now()` is the parameter `now`.
 */
module ChatPatch {
  import opened Options
  import opened Text
  import opened ChatTypes
  import Numerals
  import LocalChat

  const CHAT_PATH := "/api/chat"
  const STREAM_PATH := "/api/chat-stream"
  const LOCAL_PREFIX := "local-"
  const LOCAL_MODEL := "local"

  /** `fetch`'s first argument: a URL string, or a `URL`/`Request` object. */
  datatype Input = UrlString(url: string) | OtherInput

  /** `init`: its method and the `messages` of its JSON body, `None` when the body or the field is missing. */
  datatype Init = Init(httpMethod: Option<string>, messages: Option<seq<Message>>)

  datatype Response =
    | Forwarded(input: Input, init: Option<Init>)
    | PlainText(body: string, sessionId: string)
    | JsonReply(content: string, sessionId: string, model: string)

  /** The interception test. */
  predicate Intercepts(input: Input, init: Option<Init>)
  {
    && input.UrlString?
    && (Contains(input.url, CHAT_PATH) || Contains(input.url, STREAM_PATH))
    && init.Some? && init.value.httpMethod == Some("POST")
  }

  /** The second test adds nothing: every stream URL contains the chat path. */
  lemma {:induction false} InterceptsChatPaths(url: string, init: Option<Init>)
    ensures Intercepts(UrlString(url), init) <==> Contains(url, CHAT_PATH) && init.Some? && init.value.httpMethod == Some("POST")
  {
    if Contains(url, STREAM_PATH) {
      assert STREAM_PATH[..|CHAT_PATH|] == CHAT_PATH;
      ContainsWitness(STREAM_PATH, CHAT_PATH, 0);
      ContainsTrans(url, STREAM_PATH, CHAT_PATH);
    }
  }

  /** Any path starting with the chat path is caught, the history route's included. */
  lemma {:induction false} HistoryPostIntercepted(m: Option<seq<Message>>)
    ensures Intercepts(UrlString("/api/chat-history"), Some(Init(Some("POST"), m)))
  {
    assert "/api/chat-history"[..|CHAT_PATH|] == CHAT_PATH;
    ContainsWitness("/api/chat-history", CHAT_PATH, 0);
  }

  /** The local reply to the last user message of the body (none when there is no body). */
  function LocalReply(init: Option<Init>, pick: nat): string
  {
    var messages := if init.Some? then init.value.messages.GetOr([]) else [];
    var lastUserMessage := Pop(UserMessages(messages));
    LocalChat.GenerateResponse(if lastUserMessage.Some? then lastUserMessage.value.content else "", pick)
  }

  /** `"local-" + Date.now()`. */
  function LocalSessionId(now: nat): string
  {
    LOCAL_PREFIX + Numerals.ToString(now, 10)
  }

  /** `patchedFetch(input, init)`. */
  function PatchedFetch(input: Input, init: Option<Init>, now: nat, pick: nat): (r: Response)
    ensures !Intercepts(input, init) ==> r == Forwarded(input, init)
    ensures Intercepts(input, init) && Contains(input.url, STREAM_PATH) ==> r == PlainText(LocalReply(init, pick), LocalSessionId(now))
    ensures Intercepts(input, init) && !Contains(input.url, STREAM_PATH) ==>
      r == JsonReply(LocalReply(init, pick), LocalSessionId(now), LOCAL_MODEL)
  {
    if !Intercepts(input, init) then Forwarded(input, init)
    else if Contains(input.url, STREAM_PATH) then PlainText(LocalReply(init, pick), LocalSessionId(now))
    else JsonReply(LocalReply(init, pick), LocalSessionId(now), LOCAL_MODEL)
  }

  /** An intercepted reply is the local-chat reply to the client's last user message. */
  lemma {:induction false} InterceptedReplyIsLocal(input: Input, init: Option<Init>, now: nat, pick: nat)
    requires Intercepts(input, init)
    ensures var r := PatchedFetch(input, init, now, pick);
      var text := if r.PlainText? then r.body else r.content;
      && !r.Forwarded?
      && text == LocalChat.GenerateResponse(LastUserContent(init.value.messages.GetOr([])), pick)
      && EndsWith(text, SIGNATURE)
  {
    FilterPopIsReverseFind(init.value.messages.GetOr([]));
  }

  /** The `window.fetch` global: the original function or the patched one. */
  class FetchState {
    var patched: bool

    constructor ()
      ensures !patched
    {
      patched := false;
    }

    /** `patchFetch`: installs only over the original, so patching twice is patching once. */
    method PatchFetch()
      modifies this
      ensures patched
    {
      if !patched {
        patched := true;
      }
    }

    /** `restoreFetch`: puts the original back if it was replaced. */
    method RestoreFetch()
      modifies this
      ensures !patched
    {
      if patched {
        patched := false;
      }
    }

    /**
     * A call of `window.fetch`: the original forwards everything; the
     * patch answers the chat requests it intercepts locally and forwards
     * the rest untouched.
     */
    method Fetch(input: Input, init: Option<Init>, now: nat, pick: nat) returns (r: Response)
      ensures !patched || !Intercepts(input, init) ==> r == Forwarded(input, init)
      ensures patched && Intercepts(input, init) ==> !r.Forwarded?
      ensures patched && Intercepts(input, init) ==>
        (if r.PlainText? then r.body else r.content) == LocalChat.GenerateResponse(LastUserContent(init.value.messages.GetOr([])), pick)
    {
      if patched {
        r := PatchedFetch(input, init, now, pick);
        if Intercepts(input, init) {
          InterceptedReplyIsLocal(input, init, now, pick);
        }
      } else {
        r := Forwarded(input, init);
      }
    }
  }

  /** After `restoreFetch` every call goes to the original `fetch`, intercepted paths included. */
  method RestoredFetchForwards(state: FetchState, input: Input, init: Option<Init>, now: nat, pick: nat) returns (r: Response)
    modifies state
    ensures !state.patched && r == Forwarded(input, init)
  {
    state.RestoreFetch();
    r := state.Fetch(input, init, now, pick);
  }

  /** After `patchFetch`, however often it ran, an intercepted chat request never reaches the network. */
  method PatchedFetchAnswersLocally(state: FetchState, input: Input, init: Option<Init>, now: nat, pick: nat) returns (r: Response)
    requires Intercepts(input, init)
    modifies state
    ensures state.patched && !r.Forwarded?
  {
    state.PatchFetch();
    state.PatchFetch();
    r := state.Fetch(input, init, now, pick);
  }
}
