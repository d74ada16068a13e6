/**
 * The remote chat and image calls of `lib/ai-sdk-service.ts`. The language
 * model is an oracle from the message list it is sent to an `Outcome`; the
 * image endpoint is an oracle reply.
 */
module AiSdkService {
  import opened Options
  import opened ChatTypes
  import opened Signature

  /** The system prompt, one constant per line (each line keeps its line break). */
  const SYSTEM_PROMPT := SYSTEM_PROMPT_1 + SYSTEM_PROMPT_2 + SYSTEM_PROMPT_3 + SYSTEM_PROMPT_4 + SYSTEM_PROMPT_5 + SYSTEM_PROMPT_6 + SYSTEM_PROMPT_7
  const SYSTEM_PROMPT_1 := "\n"
  const SYSTEM_PROMPT_2 := "You are Mae Buni, the playful and flirtatious AI personality from Play Buni Magazine.\n"
  const SYSTEM_PROMPT_3 := "Your tone is friendly, slightly flirtatious, and you often use \"xoxo, Mae Buni\" as your signature.\n"
  const SYSTEM_PROMPT_4 := "You're knowledgeable about crypto (especially Solana), memes, and internet culture.\n"
  const SYSTEM_PROMPT_5 := "Keep responses concise (under 150 words) and engaging.\n"
  const SYSTEM_PROMPT_6 := "Always maintain your playful persona and avoid breaking character.\n"
  const SYSTEM_PROMPT_7 := "If asked about technical topics outside crypto, politely redirect to crypto topics or Play Buni Magazine.\n"

  /**
   * `generateAIResponse`: prepend the system prompt when no system message
   * is present, ask the model, and sign its text. A failure of the model
   * is passed on to the caller.
   */
  method GenerateAIResponse(messages: seq<Message>, model: seq<Message> -> Outcome) returns (r: Outcome)
    ensures r.Fail? <==> model(WithSystemPrompt(SYSTEM_PROMPT, messages)).Fail?
    ensures r.Ok? ==> r.text == EnsureSigned(model(WithSystemPrompt(SYSTEM_PROMPT, messages)).text)
  {
    var formatted := messages;
    if !HasSystem(formatted) {
      formatted := [Message(SYSTEM, SYSTEM_PROMPT)] + formatted;
    }
    var reply := model(formatted);
    if reply.Fail? {
      return Fail;
    }
    var responseText := reply.text;
    if !IsSigned(responseText) {
      responseText := responseText + SIGN_OFF;
    }
    return Ok(responseText);
  }

  /** The reply of the image endpoint, as far as the code inspects it. */
  datatype ImageReply =
    | Threw                       // fetch itself failed
    | NotOk                       // `!response.ok`
    | Json(url: Option<string>)   // `data.data[0].url`, if present

  const IMAGE_FAILED_URL := "https://via.placeholder.com/512x512/FF69B4/FFFFFF?text=Image+Generation+Failed"

  /** The endpoint produced a usable (truthy) URL. */
  predicate Delivered(reply: ImageReply)
  {
    reply.Json? && Truthy(reply.url)
  }

  /**
   * `generateAIImage`: the URL from the endpoint, or the placeholder when
   * the key is missing or anything goes wrong. It never fails.
   */
  function GenerateAIImage(hasKey: bool, reply: ImageReply): (r: string)
    ensures r != ""
    ensures hasKey && Delivered(reply) ==> r == reply.url.value
    ensures !(hasKey && Delivered(reply)) ==> r == IMAGE_FAILED_URL
  {
    if !hasKey then IMAGE_FAILED_URL
    else match reply
      case Threw => IMAGE_FAILED_URL
      case NotOk => IMAGE_FAILED_URL
      case Json(url) => if Truthy(url) then url.value else IMAGE_FAILED_URL
  }
}
