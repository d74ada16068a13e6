/**
 * Chat messages as the API routes and services exchange them, and the
 * message-list idioms they share: finding the last user message and
 * putting a system prompt in front when none is present.
 */
module ChatTypes {
  import opened Options

  const USER := "user"
  const ASSISTANT := "assistant"
  const SYSTEM := "system"

  /** The sign-off every reply of Mae Buni carries. */
  const SIGNATURE := "xoxo, Mae Buni"

  /** A `{role, content}` pair; the role is whatever string the client sent. */
  datatype Message = Message(role: string, content: string)

  /** What a call to a remote service produced: its text, or a thrown error. */
  datatype Outcome = Ok(text: string) | Fail

  /** The JSON body a chat API route answers with; absent fields are `None`. */
  datatype ApiBody = ApiBody(content: string, sessionId: Option<string>, isUsingFallback: Option<bool>)

  /** What a client's `fetch` of a chat route produced: a thrown error, or a status and a parsed body. */
  datatype ApiReply = Threw | Responded(status: int, body: ApiBody)

  /** `response.ok`. */
  predicate IsOk(reply: ApiReply)
  {
    reply.Responded? && 200 <= reply.status <= 299
  }

  predicate IsUser(m: Message)
  {
    m.role == USER
  }

  /** Index `i` holds the last user message of `ms`. */
  predicate LastUserAt(ms: seq<Message>, i: int)
  {
    0 <= i < |ms| && IsUser(ms[i]) && forall j :: i < j < |ms| ==> !IsUser(ms[j])
  }

  /** `[...ms].reverse().find((m) => m.role === "user")`. */
  function ReverseFindUser(ms: seq<Message>): (r: Option<Message>)
    ensures r.None? <==> forall j :: 0 <= j < |ms| ==> !IsUser(ms[j])
    ensures r.Some? ==> exists i :: LastUserAt(ms, i) && ms[i] == r.value
  {
    if |ms| == 0 then None
    else if IsUser(ms[|ms| - 1]) then
      assert LastUserAt(ms, |ms| - 1);
      Some(ms[|ms| - 1])
    else
      var r := ReverseFindUser(ms[..|ms| - 1]);
      LastUserExtends(ms, ms[..|ms| - 1]);
      r
  }

  /** A last user message before a trailing non-user message is still the last one. */
  lemma {:induction false} LastUserExtends(ms: seq<Message>, p: seq<Message>)
    requires |ms| > 0 && !IsUser(ms[|ms| - 1]) && p == ms[..|ms| - 1]
    ensures forall i :: LastUserAt(p, i) ==> LastUserAt(ms, i)
    ensures (forall j :: 0 <= j < |p| ==> !IsUser(p[j])) ==> forall j :: 0 <= j < |ms| ==> !IsUser(ms[j])
  {
    assert forall j :: 0 <= j < |p| ==> p[j] == ms[j];
  }

  /** `ms.filter((m) => m.role === "user")`. */
  function UserMessages(ms: seq<Message>): (r: seq<Message>)
    ensures forall k :: 0 <= k < |r| ==> IsUser(r[k]) && r[k] in ms
    ensures forall m :: m in ms && IsUser(m) ==> m in r
    ensures |r| <= |ms|
  {
    if |ms| == 0 then []
    else
      var p := ms[..|ms| - 1];
      assert ms == p + [ms[|ms| - 1]];
      if IsUser(ms[|ms| - 1]) then UserMessages(p) + [ms[|ms| - 1]]
      else UserMessages(p)
  }

  /** The filter keeps order: filtering a concatenation concatenates the filtered parts. */
  lemma {:induction false} UserMessagesAppend(a: seq<Message>, b: seq<Message>)
    ensures UserMessages(a + b) == UserMessages(a) + UserMessages(b)
    decreases |b|
  {
    if |b| == 0 {
      assert a + b == a;
    } else {
      var c := a + b;
      assert c[..|c| - 1] == a + b[..|b| - 1];
      assert c[|c| - 1] == b[|b| - 1];
      UserMessagesAppend(a, b[..|b| - 1]);
    }
  }

  /** `Array.prototype.pop()` on a fresh array: its last element, if any. */
  function Pop<T>(s: seq<T>): Option<T>
  {
    if |s| == 0 then None else Some(s[|s| - 1])
  }

  /** The two idioms the source mixes find the same message. */
  lemma {:induction false} FilterPopIsReverseFind(ms: seq<Message>)
    ensures Pop(UserMessages(ms)) == ReverseFindUser(ms)
  {
    if |ms| > 0 && !IsUser(ms[|ms| - 1]) {
      FilterPopIsReverseFind(ms[..|ms| - 1]);
    }
  }

  /** `lastUserMessage?.content || ""`. */
  function LastUserContent(ms: seq<Message>): (r: string)
    ensures (forall j :: 0 <= j < |ms| ==> !IsUser(ms[j])) ==> r == ""
    ensures forall i :: LastUserAt(ms, i) ==> r == ms[i].content
  {
    match ReverseFindUser(ms)
    case None => ""
    case Some(m) =>
      assert forall i, k :: LastUserAt(ms, i) && LastUserAt(ms, k) ==> i == k;
      m.content
  }

  /** Appending a user message makes it the last one. */
  lemma {:induction false} LastUserOfAppend(ms: seq<Message>, content: string)
    ensures LastUserContent(ms + [Message(USER, content)]) == content
  {
    assert LastUserAt(ms + [Message(USER, content)], |ms|);
  }

  /** `ms.some((m) => m.role === "system")`. */
  predicate HasSystem(ms: seq<Message>)
  {
    exists i :: 0 <= i < |ms| && ms[i].role == SYSTEM
  }

  /** `unshift` of the system prompt when no system message is present. */
  function WithSystemPrompt(prompt: string, ms: seq<Message>): (r: seq<Message>)
    ensures HasSystem(ms) ==> r == ms
    ensures !HasSystem(ms) ==> r == [Message(SYSTEM, prompt)] + ms
    ensures HasSystem(r)
  {
    if HasSystem(ms) then ms
    else
      var r := [Message(SYSTEM, prompt)] + ms;
      assert r[0].role == SYSTEM;
      r
  }

  /** Adding the prompt is idempotent: a second pass adds nothing. */
  lemma {:induction false} WithSystemPromptIdempotent(prompt: string, ms: seq<Message>)
    ensures WithSystemPrompt(prompt, WithSystemPrompt(prompt, ms)) == WithSystemPrompt(prompt, ms)
  {
  }

  /** Prepending never drops or reorders the client's messages. */
  lemma {:induction false} WithSystemPromptKeepsMessages(prompt: string, ms: seq<Message>)
    ensures var r := WithSystemPrompt(prompt, ms); r[|r| - |ms|..] == ms
  {
    var r := WithSystemPrompt(prompt, ms);
    if !HasSystem(ms) {
      assert r[1..] == ms;
    }
  }
}
