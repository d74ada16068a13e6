/**
 * `components/streaming-chat.tsx`: the chat page's state and its event
 * handlers. Submissions are answered locally (the page never calls the
 * API); `now` and `later` stand for `new Date()`/`Date.now()` before and
 * after the simulated delay, and the ids for `nanoid()`.
 */
module StreamingChat {
  import opened Options
  import opened Text
  import opened ChatTypes
  import opened StreamingChatService
  import Numerals
  import LocalChat

  const GREETING := "Hey there! I'm Mae Buni, your digital companion from Play Buni Magazine. What can I help you with today? xoxo, Mae Buni"
  const INTERRUPTED := "\n\n(Message was interrupted) xoxo, Mae Buni"
  const LOCAL_PREFIX := "local-"

  /** The transcript a new chat starts with: one assistant greeting. */
  function Welcome(id: string, now: int): seq<ClientMessage>
  {
    [CreateMessage(ASSISTANT, GREETING, id, now)]
  }

  /** The greeting is signed. */
  lemma GreetingSigned()
    ensures EndsWith(GREETING, SIGNATURE)
  {
    assert GREETING == "Hey there! I'm Mae Buni, your digital companion from Play Buni Magazine. What can I help you with today? " + SIGNATURE;
    EndsWithAppend("Hey there! I'm Mae Buni, your digital companion from Play Buni Magazine. What can I help you with today? ", SIGNATURE);
  }

  /** The transcript after a submission swapped for the last user message and its local reply. */
  function AfterSubmit(messages: seq<ClientMessage>, text: string, userId: string, assistantId: string,
                       now: int, later: int, pick: nat): seq<ClientMessage>
  {
    messages + [CreateMessage(USER, text, userId, now)]
      + [CreateMessage(ASSISTANT, LocalChat.GenerateResponse(text, pick), assistantId, later)]
  }

  class StreamingChat {
    var messages: seq<ClientMessage>
    var input: string
    var isLoading: bool
    var apiError: Option<string>
    var isUsingFallback: bool
    var currentSessionId: Option<string>
    var streamingMessage: string
    var isStreaming: bool

    /** Between events nothing is in flight and the streaming buffer is empty: no handler ever fills it. */
    ghost predicate Valid()
      reads this
    {
      !isLoading && !isStreaming && streamingMessage == ""
    }

    constructor (greetingId: string, now: int)
      ensures Valid()
      ensures messages == Welcome(greetingId, now) && input == ""
      ensures apiError == None && !isUsingFallback && currentSessionId == None
    {
      messages := Welcome(greetingId, now);
      input := "";
      isLoading := false;
      apiError := None;
      isUsingFallback := false;
      currentSessionId := None;
      streamingMessage := "";
      isStreaming := false;
    }

    /** `handleTextareaChange`. */
    method SetInput(text: string)
      modifies this
      ensures input == text
      ensures messages == old(messages) && isLoading == old(isLoading) && isStreaming == old(isStreaming)
      ensures streamingMessage == old(streamingMessage) && apiError == old(apiError)
      ensures isUsingFallback == old(isUsingFallback) && currentSessionId == old(currentSessionId)
    {
      input := text;
    }

    /**
     * `handleSubmit`: ignored while the trimmed input is empty or a
     * request is in flight; otherwise appends the untrimmed user text and
     * its local reply, clears the input and ends with nothing in flight.
     */
    method HandleSubmit(userId: string, assistantId: string, now: int, later: nat, pick: nat)
      modifies this
      ensures IsBlank(old(input)) || old(isLoading) || old(isStreaming) ==>
        && messages == old(messages) && input == old(input) && isLoading == old(isLoading)
        && isStreaming == old(isStreaming) && streamingMessage == old(streamingMessage)
        && apiError == old(apiError) && isUsingFallback == old(isUsingFallback)
        && currentSessionId == old(currentSessionId)
      ensures !(IsBlank(old(input)) || old(isLoading) || old(isStreaming)) ==>
        && messages == AfterSubmit(old(messages), old(input), userId, assistantId, now, later, pick)
        && input == "" && Valid()
        && apiError == None && !isUsingFallback
        && currentSessionId == Some(LOCAL_PREFIX + Numerals.ToString(later, 10))
    {
      if IsBlank(input) || isLoading || isStreaming {
        return;
      }
      Submit(input, userId, assistantId, now, later, pick);
    }

    /**
     * The body of `handleSubmit` once the guard has passed, through its
     * `finally`, for the user text `text` the closure reads as `input`.
     */
    method Submit(text: string, userId: string, assistantId: string, now: int, later: nat, pick: nat)
      modifies this
      ensures messages == AfterSubmit(old(messages), text, userId, assistantId, now, later, pick)
      ensures input == "" && Valid() && apiError == None && !isUsingFallback
      ensures currentSessionId == Some(LOCAL_PREFIX + Numerals.ToString(later, 10))
    {
      apiError := None;
      isUsingFallback := false;
      Exchange(text, userId, assistantId, now, later, pick);
      currentSessionId := Some(LOCAL_PREFIX + Numerals.ToString(later, 10));
      // finally
      isLoading := false;
      isStreaming := false;
      streamingMessage := "";
    }

    /** The user message goes in, the input is cleared, and the local reply follows it. */
    method Exchange(text: string, userId: string, assistantId: string, now: int, later: nat, pick: nat)
      modifies this
      ensures messages == AfterSubmit(old(messages), text, userId, assistantId, now, later, pick)
      ensures input == "" && isLoading
      ensures apiError == old(apiError) && isUsingFallback == old(isUsingFallback)
      ensures currentSessionId == old(currentSessionId)
    {
      var userMessage := CreateMessage(USER, text, userId, now);
      messages := messages + [userMessage];
      input := "";
      isLoading := true;
      var localResponse := LocalChat.GenerateResponse(userMessage.content, pick);
      var assistantMessage := CreateMessage(ASSISTANT, localResponse, assistantId, later);
      messages := messages + [assistantMessage];
      assert messages == old(messages) + [userMessage] + [assistantMessage];
    }

    /**
     * `handleRetry`: drops a trailing assistant message when there are at
     * least two messages, and puts the last user text back into the input.
     */
    method HandleRetry()
      modifies this
      ensures var n := |old(messages)|;
        messages == if n >= 2 && old(messages)[n - 1].role == ASSISTANT then old(messages)[..n - 1] else old(messages)
      ensures var last := ReverseFindUser(AsMessages(old(messages)));
        input == if last.Some? then last.value.content else old(input)
      ensures apiError == None && !isUsingFallback
      ensures isLoading == old(isLoading) && isStreaming == old(isStreaming) && streamingMessage == old(streamingMessage)
      ensures currentSessionId == old(currentSessionId)
    {
      apiError := None;
      isUsingFallback := false;
      var before := messages;
      if |messages| >= 2 && messages[|messages| - 1].role == ASSISTANT {
        messages := messages[..|messages| - 1];
      }
      var lastUserMessage := ReverseFindUser(AsMessages(before));
      if lastUserMessage.Some? {
        input := lastUserMessage.value.content;
      }
    }

    /**
     * The `handleSubmit` call that `handleRetry`'s timer makes 100 ms later.
     * It is the closure of the render in which Retry was clicked, so its
     * guard and its user text read that render's `input`, `isLoading` and
     * `isStreaming` (`staleInput`, `staleLoading`, `staleStreaming`), not
     * the text `handleRetry` has just put back into the input. The state
     * updates it makes are applied to the current state.
     */
    method RetrySubmit(staleInput: string, staleLoading: bool, staleStreaming: bool,
                       userId: string, assistantId: string, now: int, later: nat, pick: nat)
      modifies this
      ensures IsBlank(staleInput) || staleLoading || staleStreaming ==>
        && messages == old(messages) && input == old(input) && isLoading == old(isLoading)
        && isStreaming == old(isStreaming) && streamingMessage == old(streamingMessage)
        && apiError == old(apiError) && isUsingFallback == old(isUsingFallback)
        && currentSessionId == old(currentSessionId)
      ensures !(IsBlank(staleInput) || staleLoading || staleStreaming) ==>
        && messages == AfterSubmit(old(messages), staleInput, userId, assistantId, now, later, pick)
        && input == "" && Valid()
        && apiError == None && !isUsingFallback
        && currentSessionId == Some(LOCAL_PREFIX + Numerals.ToString(later, 10))
    {
      if IsBlank(staleInput) || staleLoading || staleStreaming {
        return;
      }
      Submit(staleInput, userId, assistantId, now, later, pick);
    }

    /**
     * A retry right after a submission: the reply is dropped and the input
     * refilled with the submitted text, but the timer's `handleSubmit` reads
     * the input as the submission left it, empty, so nothing is sent again.
     */
    method RetryAfterSubmit(userId: string, assistantId: string, now: int, later: nat, pick: nat,
                            retryUserId: string, retryAssistantId: string, retryNow: int, retryLater: nat, retryPick: nat)
      requires Valid() && !IsBlank(input)
      modifies this
      ensures messages == old(messages) + [CreateMessage(USER, old(input), userId, now)]
      ensures input == old(input)
      ensures !isLoading && !isStreaming
    {
      ghost var text, before := input, messages;
      HandleSubmit(userId, assistantId, now, later, pick);
      SubmitAppendsPair(before, text, userId, assistantId, now, later, pick);
      RetryUndoesReply(before, text, userId, assistantId, now, later, pick);
      var staleInput, staleLoading, staleStreaming := input, isLoading, isStreaming;
      HandleRetry();
      RetrySubmit(staleInput, staleLoading, staleStreaming, retryUserId, retryAssistantId, retryNow, retryLater, retryPick);
    }

    /** `handleCancelStream`: a non-empty partial reply is kept with an interruption note. */
    method HandleCancelStream(id: string, now: int)
      modifies this
      ensures !isLoading && !isStreaming && streamingMessage == ""
      ensures old(streamingMessage) != "" ==>
        messages == old(messages) + [CreateMessage(ASSISTANT, old(streamingMessage) + INTERRUPTED, id, now)]
      ensures old(streamingMessage) == "" ==> messages == old(messages)
      ensures input == old(input) && apiError == old(apiError) && isUsingFallback == old(isUsingFallback)
      ensures currentSessionId == old(currentSessionId)
    {
      isStreaming := false;
      isLoading := false;
      if streamingMessage != "" {
        var assistantMessage := CreateMessage(ASSISTANT, streamingMessage + INTERRUPTED, id, now);
        messages := messages + [assistantMessage];
        streamingMessage := "";
      }
    }

    /** `handleSelectSession`: the stored transcript replaces the current one wholesale. */
    method HandleSelectSession(sessionId: string, sessionMessages: seq<ClientMessage>)
      modifies this
      ensures currentSessionId == Some(sessionId) && messages == sessionMessages
      ensures input == old(input) && isLoading == old(isLoading) && isStreaming == old(isStreaming)
      ensures streamingMessage == old(streamingMessage) && apiError == old(apiError) && isUsingFallback == old(isUsingFallback)
    {
      currentSessionId := Some(sessionId);
      messages := sessionMessages;
    }

    /** `handleNewChat`: back to the single greeting, with no session. */
    method HandleNewChat(greetingId: string, now: int)
      modifies this
      ensures currentSessionId == None && messages == Welcome(greetingId, now)
      ensures input == old(input) && isLoading == old(isLoading) && isStreaming == old(isStreaming)
      ensures streamingMessage == old(streamingMessage) && apiError == old(apiError) && isUsingFallback == old(isUsingFallback)
    {
      currentSessionId := None;
      messages := Welcome(greetingId, now);
    }
  }

  /** Submitting appends exactly one user message, with the untrimmed text, and then one signed reply. */
  lemma {:induction false} SubmitAppendsPair(messages: seq<ClientMessage>, text: string, userId: string, assistantId: string,
                          now: int, later: int, pick: nat)
    ensures var r := AfterSubmit(messages, text, userId, assistantId, now, later, pick);
      && |r| == |messages| + 2 && r[..|messages|] == messages
      && r[|messages|].role == USER && r[|messages|].content == text
      && r[|messages| + 1].role == ASSISTANT && EndsWith(r[|messages| + 1].content, SIGNATURE)
      && LastUserContent(AsMessages(r)) == text
  {
    var r := AfterSubmit(messages, text, userId, assistantId, now, later, pick);
    assert LastUserAt(AsMessages(r), |messages|);
  }

  /**
   * Retry right after a submission drops the reply and refills the input
   * with that submission's text.
   */
  lemma {:induction false} RetryUndoesReply(messages: seq<ClientMessage>, text: string, userId: string, assistantId: string,
                         now: int, later: int, pick: nat)
    ensures var r := AfterSubmit(messages, text, userId, assistantId, now, later, pick);
      && r[..|r| - 1] == messages + [CreateMessage(USER, text, userId, now)]
      && ReverseFindUser(AsMessages(r)).Some? && ReverseFindUser(AsMessages(r)).value.content == text
  {
    var r := AfterSubmit(messages, text, userId, assistantId, now, later, pick);
    assert LastUserAt(AsMessages(r), |messages|);
  }
}
