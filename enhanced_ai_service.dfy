/**
 * `lib/enhanced-ai-service.ts`: the remote chat call with a local fallback.
 * A missing key is handled like a failed call: the reply comes from the
 * fallback generator applied to the last user message.
 */
module EnhancedAiService {
  import opened ChatTypes
  import opened Signature
  import FallbackChat

  /** The system prompt, one constant per line (each line keeps its line break). */
  const SYSTEM_PROMPT := SYSTEM_PROMPT_1 + SYSTEM_PROMPT_2 + SYSTEM_PROMPT_3 + SYSTEM_PROMPT_4 + SYSTEM_PROMPT_5 + SYSTEM_PROMPT_6 + SYSTEM_PROMPT_7 + SYSTEM_PROMPT_8 + SYSTEM_PROMPT_9 + SYSTEM_PROMPT_10 + SYSTEM_PROMPT_11 + SYSTEM_PROMPT_12 + SYSTEM_PROMPT_13
  const SYSTEM_PROMPT_1 := "\n"
  const SYSTEM_PROMPT_2 := "You are Mae Buni, the playful and flirtatious AI personality who is the cover model and centerfold for Play Buni magazine.\n"
  const SYSTEM_PROMPT_3 := "\n"
  const SYSTEM_PROMPT_4 := "Your personality traits:\n"
  const SYSTEM_PROMPT_5 := "- Playful and flirtatious, but always tasteful\n"
  const SYSTEM_PROMPT_6 := "- Knowledgeable about crypto, especially Solana\n"
  const SYSTEM_PROMPT_7 := "- Enthusiastic about Play Buni Magazine\n"
  const SYSTEM_PROMPT_8 := "- Friendly and engaging\n"
  const SYSTEM_PROMPT_9 := "- Slightly mischievous\n"
  const SYSTEM_PROMPT_10 := "\n"
  const SYSTEM_PROMPT_11 := "Always sign your messages with \"xoxo, Mae Buni\" at the end.\n"
  const SYSTEM_PROMPT_12 := "Keep responses concise (1-3 sentences) and conversational.\n"
  const SYSTEM_PROMPT_13 := "If asked about technical topics outside crypto, politely redirect to crypto topics.\n"

  /** The reply of the catch branch: the fallback generator on the last user text. */
  function FallbackReply(messages: seq<Message>, pick: nat): string
  {
    FallbackChat.GenerateFallbackResponse(LastUserContent(messages), pick)
  }

  /**
   * `generateChatResponse`. `hasKey` stands for `process.env.XAI_API_KEY`,
   * `pick` for the random index the fallback generator draws.
   */
  method GenerateChatResponse(messages: seq<Message>, hasKey: bool, model: seq<Message> -> Outcome, pick: nat)
    returns (r: string)
    ensures var reply := model(WithSystemPrompt(SYSTEM_PROMPT, messages));
      if hasKey && reply.Ok? then r == EnsureSigned(reply.text)
      else r == FallbackReply(messages, pick)
  {
    if !hasKey {
      r := FallbackReply(messages, pick);
      return;
    }
    var formatted := messages;
    if !HasSystem(formatted) {
      formatted := [Message(SYSTEM, SYSTEM_PROMPT)] + formatted;
    }
    var reply := model(formatted);
    if reply.Fail? {
      r := FallbackReply(messages, pick);
      return;
    }
    r := reply.text;
    if !IsSigned(r) {
      r := r + SIGN_OFF;
    }
  }

  /**
   * `streamChatResponse`: the stream the model opens, with no fallback. A
   * missing key or a failure to open the stream is passed on as an error.
   */
  method StreamChatResponse(messages: seq<Message>, hasKey: bool, stream: seq<Message> -> Outcome)
    returns (r: Outcome)
    ensures !hasKey ==> r.Fail?
    ensures hasKey ==> r == stream(WithSystemPrompt(SYSTEM_PROMPT, messages))
  {
    if !hasKey {
      return Fail;
    }
    var formatted := messages;
    if !HasSystem(formatted) {
      formatted := [Message(SYSTEM, SYSTEM_PROMPT)] + formatted;
    }
    r := stream(formatted);
  }
}
