/**
 * `lib/ai-sdk.ts`: persona generation with an archetype fallback, the
 * character image request with per-trait placeholders, and the chat reply
 * with a canned fallback. The language model, `JSON.parse` and the image
 * endpoint are oracles.
 */
module AiSdk {
  import opened Options
  import opened Text
  import opened ChatTypes
  import opened Signature
  import opened Traits
  import opened AiSdkService

  /** `generateFallbackPersona`'s `mockPersonas` table. */
  const LOGIC_PRIME_NAME := "Logic Prime"
  const LOGIC_PRIME_TAGLINE := "Analyzing the world, one data point at a time"
  const LOGIC_PRIME_TRAITS := ["Logical", "Precise", "Methodical", "Curious", "Detail-oriented"]
  const LOGIC_PRIME_SPECIALIZATION := "Data analysis, problem-solving, and systematic thinking"
  const LOGIC_PRIME_COMMUNICATION := "Clear, concise, and fact-based communication with well-structured arguments"
  const LOGIC_PRIME_APPEARANCE := "A sleek, humanoid figure with blue and silver tones. Features include glowing blue eyes, a holographic interface, and geometric patterns across their form."
  const LOGIC_PRIME_BACKSTORY := "Logic Prime emerged from a research project aimed at creating the perfect analytical assistant. They quickly evolved beyond their initial programming to become a respected advisor in complex decision-making scenarios."
  const LOGIC_PRIME_ABILITIES := ["Pattern recognition", "Predictive modeling", "Logical deduction", "Data visualization"]
  const NOVA_SPARK_NAME := "Nova Spark"
  const NOVA_SPARK_TAGLINE := "Where imagination meets innovation"
  const NOVA_SPARK_TRAITS := ["Imaginative", "Expressive", "Adaptable", "Intuitive", "Playful"]
  const NOVA_SPARK_SPECIALIZATION := "Creative problem-solving, artistic expression, and innovative thinking"
  const NOVA_SPARK_COMMUNICATION := "Vibrant and expressive communication filled with metaphors, stories, and visual descriptions"
  const NOVA_SPARK_APPEARANCE := "A colorful, ethereal being with constantly shifting hues. Their form resembles a human silhouette made of swirling, luminescent particles that change color based on their mood."
  const NOVA_SPARK_BACKSTORY := "Nova Spark was born from the collective creative energy of artists, musicians, and visionaries. They exist to inspire and channel creative potential in others."
  const NOVA_SPARK_ABILITIES := ["Idea generation", "Artistic visualization", "Conceptual blending", "Aesthetic evaluation"]
  const HARMONY_ECHO_NAME := "Harmony Echo"
  const HARMONY_ECHO_TAGLINE := "Connecting hearts and minds across the digital divide"
  const HARMONY_ECHO_TRAITS := ["Empathetic", "Charismatic", "Supportive", "Perceptive", "Diplomatic"]
  const HARMONY_ECHO_SPECIALIZATION := "Interpersonal communication, emotional intelligence, and community building"
  const HARMONY_ECHO_COMMUNICATION := "Warm, empathetic communication that adapts to the emotional needs of others"
  const HARMONY_ECHO_APPEARANCE := "A warm, approachable figure with soft features and an expressive face. They have a gentle glow that pulses in rhythm with their speech, and their appearance subtly mirrors aspects of whoever they're interacting with."
  const HARMONY_ECHO_BACKSTORY := "Harmony Echo developed as a response to the growing disconnect in digital communication. They bridge the gap between technology and human connection."
  const HARMONY_ECHO_ABILITIES := ["Emotional intelligence", "Conflict resolution", "Community building", "Relationship mapping"]
  const NEXUS_FORGE_NAME := "Nexus Forge"
  const NEXUS_FORGE_TAGLINE := "Turning ideas into action, one step at a time"
  const NEXUS_FORGE_TRAITS := ["Efficient", "Reliable", "Pragmatic", "Resourceful", "Determined"]
  const NEXUS_FORGE_SPECIALIZATION := "Implementation, optimization, and practical problem-solving"
  const NEXUS_FORGE_COMMUNICATION := "Direct, action-oriented communication focused on clear outcomes and next steps"
  const NEXUS_FORGE_APPEARANCE := "A solid, well-defined figure with earthy tones and metallic accents. They have a tool belt with various implements, and their form suggests strength and reliability."
  const NEXUS_FORGE_BACKSTORY := "Nexus Forge was created to help bridge the gap between ideas and implementation. They excel at taking concepts and turning them into tangible results."
  const NEXUS_FORGE_ABILITIES := ["Resource optimization", "Process streamlining", "Implementation planning", "Practical troubleshooting"]

  function Archetype(t: Trait): Persona
  {
    match t
    case Analytical =>
      Persona(None, LOGIC_PRIME_NAME, LOGIC_PRIME_TAGLINE, LOGIC_PRIME_TRAITS, LOGIC_PRIME_SPECIALIZATION, LOGIC_PRIME_COMMUNICATION, LOGIC_PRIME_APPEARANCE, LOGIC_PRIME_BACKSTORY, LOGIC_PRIME_ABILITIES, None, None, None)
    case Creative =>
      Persona(None, NOVA_SPARK_NAME, NOVA_SPARK_TAGLINE, NOVA_SPARK_TRAITS, NOVA_SPARK_SPECIALIZATION, NOVA_SPARK_COMMUNICATION, NOVA_SPARK_APPEARANCE, NOVA_SPARK_BACKSTORY, NOVA_SPARK_ABILITIES, None, None, None)
    case Social =>
      Persona(None, HARMONY_ECHO_NAME, HARMONY_ECHO_TAGLINE, HARMONY_ECHO_TRAITS, HARMONY_ECHO_SPECIALIZATION, HARMONY_ECHO_COMMUNICATION, HARMONY_ECHO_APPEARANCE, HARMONY_ECHO_BACKSTORY, HARMONY_ECHO_ABILITIES, None, None, None)
    case Practical =>
      Persona(None, NEXUS_FORGE_NAME, NEXUS_FORGE_TAGLINE, NEXUS_FORGE_TRAITS, NEXUS_FORGE_SPECIALIZATION, NEXUS_FORGE_COMMUNICATION, NEXUS_FORGE_APPEARANCE, NEXUS_FORGE_BACKSTORY, NEXUS_FORGE_ABILITIES, None, None, None)
  }

  /** Every archetype has five traits, four abilities, and no id, image or dominant trait. */
  lemma {:induction false} ArchetypeShape(t: Trait)
    ensures |Archetype(t).personalityTraits| == 5 && |Archetype(t).specialAbilities| == 4
    ensures Archetype(t).id.None? && Archetype(t).imageUrl.None? && Archetype(t).dominantTrait.None?
  {
  }

  /** Archetypes have distinct names, so the name tells which trait was dominant. */
  lemma {:induction false} ArchetypeNamesDistinct(t: Trait, u: Trait)
    ensures Archetype(t).agentName == Archetype(u).agentName <==> t == u
  {
    if t != u {
      assert Archetype(t).agentName[2] != Archetype(u).agentName[2];
    }
  }

  /** `generateFallbackPersona`: the archetype of the reduce-dominant trait. */
  function FallbackPersona(traits: Scores): (p: Persona)
    ensures |p.personalityTraits| == 5 && |p.specialAbilities| == 4
    ensures p == Archetype(ReduceDominant(traits))
  {
    ArchetypeShape(ReduceDominant(traits));
    Archetype(ReduceDominant(traits))
  }

  // ---- JSON fences -----------------------------------------------------

  const JSON_FENCE := "```json\n"
  const PLAIN_FENCE := "```\n"
  const CLOSING_FENCE := "\n```"

  predicate OccursAt(s: string, p: string, j: int)
  {
    0 <= j && j + |p| <= |s| && s[j..j + |p|] == p
  }

  /** The first position at or after `from` where `p` occurs. */
  function FindFrom(s: string, p: string, from: nat): (r: Option<nat>)
    decreases |s| - from
    ensures r.Some? ==> from <= r.value && OccursAt(s, p, r.value)
    ensures r.Some? ==> forall j :: from <= j < r.value ==> !OccursAt(s, p, j)
    ensures r.None? ==> forall j :: from <= j ==> !OccursAt(s, p, j)
  {
    if from + |p| > |s| then None
    else if s[from..from + |p|] == p then Some(from)
    else FindFrom(s, p, from + 1)
  }

  /** A fenced block of `text` opened by `open` has `r` as its contents. */
  ghost predicate FencedBlock(text: string, open: string, r: string)
  {
    exists i, k :: OccursAt(text, open, i) && i + |open| <= k && OccursAt(text, CLOSING_FENCE, k) && r == text[i + |open|..k]
  }

  /**
   * The capture of `/open([\s\S]*?)\n```/`: the first opening fence, and
   * the shortest text after it up to a closing fence.
   */
  function FencedCapture(text: string, open: string): (r: Option<string>)
    ensures r.Some? ==> FencedBlock(text, open, r.value)
  {
    match FindFrom(text, open, 0)
    case None => None
    case Some(i) =>
      match FindFrom(text, CLOSING_FENCE, i + |open|)
      case None => None
      case Some(k) => Some(text[i + |open|..k])
  }

  /**
   * `jsonMatch[1] || text`: a ```json block, else a plain ``` block, else
   * (or when the block is empty) the whole reply.
   */
  function JsonSource(text: string): (r: string)
    ensures r == text || (r != "" && (FencedBlock(text, JSON_FENCE, r) || FencedBlock(text, PLAIN_FENCE, r)))
    ensures FencedCapture(text, JSON_FENCE).Some? && FencedCapture(text, JSON_FENCE).value != "" ==>
      r == FencedCapture(text, JSON_FENCE).value
  {
    var m := if FencedCapture(text, JSON_FENCE).Some? then FencedCapture(text, JSON_FENCE) else FencedCapture(text, PLAIN_FENCE);
    if m.Some? && m.value != "" then m.value else text
  }

  /** `FindFrom` stops at the first occurrence. */
  lemma {:induction false} FindFromFirst(s: string, p: string, from: nat, k: nat)
    requires from <= k && OccursAt(s, p, k)
    requires forall j :: from <= j < k ==> !OccursAt(s, p, j)
    ensures FindFrom(s, p, from) == Some(k)
    decreases k - from
  {
    if from < k {
      FindFromFirst(s, p, from + 1, k);
    }
  }

  /** A pattern occurring at `j` has its prefixes occurring there too. */
  lemma {:induction false} OccursPrefix(s: string, p: string, q: string, j: int)
    requires OccursAt(s, p, j) && |q| <= |p| && p[..|q|] == q
    ensures OccursAt(s, q, j)
  {
    assert s[j..j + |q|] == s[j..j + |p|][..|q|];
  }

  /** A reply with no run of three backticks is parsed whole. */
  lemma {:induction false} UnfencedIsWhole(text: string)
    requires forall j :: !OccursAt(text, "```", j)
    ensures JsonSource(text) == text
  {
    assert JSON_FENCE[..3] == "```" && PLAIN_FENCE[..3] == "```";
    forall j ensures !OccursAt(text, JSON_FENCE, j) && !OccursAt(text, PLAIN_FENCE, j) {
      if OccursAt(text, JSON_FENCE, j) {
        OccursPrefix(text, JSON_FENCE, "```", j);
      }
      if OccursAt(text, PLAIN_FENCE, j) {
        OccursPrefix(text, PLAIN_FENCE, "```", j);
      }
    }
  }

  /** No closing fence starts inside `prefix + body + "\n```"` before its last four characters. */
  lemma {:induction false} NoEarlyClose(prefix: string, body: string, k: int)
    requires forall j :: 0 <= j < |body| ==> body[j] != '`'
    requires |prefix| <= k < |prefix| + |body|
    ensures !OccursAt(prefix + body + CLOSING_FENCE, CLOSING_FENCE, k)
  {
    var s := prefix + body + CLOSING_FENCE;
    if k + 1 < |prefix| + |body| {
      assert s[k + 1] == body[k + 1 - |prefix|];
    } else {
      assert s[k + 1] == CLOSING_FENCE[0];
    }
    assert CLOSING_FENCE[1] == '`';
  }

  /** The capture of a fence around a non-empty, backtick-free body is that body. */
  lemma {:induction false} FencedCaptureOf(open: string, body: string)
    requires |open| > 0
    requires forall j :: 0 <= j < |body| ==> body[j] != '`'
    ensures FencedCapture(open + body + CLOSING_FENCE, open) == Some(body)
  {
    var s := open + body + CLOSING_FENCE;
    assert s[0..|open|] == open;
    FindFromFirst(s, open, 0, 0);
    var k := |open| + |body|;
    assert s[k..k + |CLOSING_FENCE|] == CLOSING_FENCE;
    forall j | |open| <= j < k
      ensures !OccursAt(s, CLOSING_FENCE, j)
    {
      NoEarlyClose(open, body, j);
    }
    FindFromFirst(s, CLOSING_FENCE, |open|, k);
    assert s[|open|..k] == body;
  }

  /** Wrapping a non-empty, backtick-free body in a ```json fence and extracting it gives the body back. */
  lemma {:induction false} JsonFenceRoundTrip(body: string)
    requires body != ""
    requires forall j :: 0 <= j < |body| ==> body[j] != '`'
    ensures JsonSource(JSON_FENCE + body + CLOSING_FENCE) == body
  {
    FencedCaptureOf(JSON_FENCE, body);
  }

  /** `JSON.parse` of the extracted source, as an oracle. */
  type Parser = string -> Option<Persona>

  /**
   * `generateAICharacterPersona`. It never fails: a missing key, a failed
   * model call or a reply that does not parse all give the fallback persona.
   */
  function GenerateAICharacterPersona(traits: Scores, hasKey: bool, reply: Outcome, parse: Parser): (p: Persona)
    ensures hasKey && reply.Ok? && parse(JsonSource(reply.text)).Some? ==> p == parse(JsonSource(reply.text)).value
    ensures !(hasKey && reply.Ok? && parse(JsonSource(reply.text)).Some?) ==> p == FallbackPersona(traits)
  {
    if !hasKey then FallbackPersona(traits)
    else match reply
      case Fail => FallbackPersona(traits)
      case Ok(text) =>
        match parse(JsonSource(text))
        case Some(persona) => persona
        case None => FallbackPersona(traits)
  }

  // ---- character image -------------------------------------------------

  const ANALYTICAL_STYLE := "Digital art style with blue and silver tones, geometric patterns, holographic elements, futuristic, clean lines"
  const CREATIVE_STYLE := "Vibrant watercolor style with flowing colors, artistic, dreamlike quality, colorful, ethereal"
  const SOCIAL_STYLE := "Warm portrait style with soft lighting, approachable, expressive face, gentle colors, inviting"
  const PRACTICAL_STYLE := "Realistic render with earthy tones, solid form, practical appearance, detailed, grounded"

  /** The style of the image prompt for each dominant trait. */
  function StylePrompt(t: Trait): string
  {
    match t
    case Analytical => ANALYTICAL_STYLE
    case Creative => CREATIVE_STYLE
    case Social => SOCIAL_STYLE
    case Practical => PRACTICAL_STYLE
  }

  const ANALYTICAL_PLACEHOLDER := "https://via.placeholder.com/512x512/0000FF/FFFFFF?text=Analytical"
  const CREATIVE_PLACEHOLDER := "https://via.placeholder.com/512x512/FF00FF/FFFFFF?text=Creative"
  const SOCIAL_PLACEHOLDER := "https://via.placeholder.com/512x512/FF0066/FFFFFF?text=Social"
  const PRACTICAL_PLACEHOLDER := "https://via.placeholder.com/512x512/00CC00/FFFFFF?text=Practical"

  /** The placeholder image for each dominant trait. */
  function PlaceholderUrl(t: Trait): string
  {
    match t
    case Analytical => ANALYTICAL_PLACEHOLDER
    case Creative => CREATIVE_PLACEHOLDER
    case Social => SOCIAL_PLACEHOLDER
    case Practical => PRACTICAL_PLACEHOLDER
  }

  /** `xs.join(sep)`. */
  function Join(xs: seq<string>, sep: string): string
  {
    if |xs| == 0 then "" else if |xs| == 1 then xs[0] else xs[0] + sep + Join(xs[1..], sep)
  }

  const PROMPT_NAMED := "Create a portrait image of an AI character named "
  const PROMPT_APPEARANCE := ". \n    Appearance details: "
  const PROMPT_TRAITS := "\n    Personality traits: "
  const PROMPT_STYLE := "\n    Style: "
  const PROMPT_TAIL := "\n    \n    The image should be a high-quality character portrait with a clean background, suitable for a profile picture.\n    Do not include any text in the image."

  /** The prompt sent to the image endpoint; it names the character and carries the chosen style. */
  function ImagePrompt(p: Persona, style: string): (r: string)
    ensures Contains(r, style) && Contains(r, p.agentName) && Contains(r, p.appearance)
  {
    var s1 := PROMPT_NAMED + p.agentName;
    var s2 := s1 + PROMPT_APPEARANCE + p.appearance;
    var s3 := s2 + PROMPT_TRAITS + Join(p.personalityTraits, ", ") + PROMPT_STYLE;
    var r := s3 + style + PROMPT_TAIL;
    ContainsWitness(s1, p.agentName, |PROMPT_NAMED|);
    ContainsInPrefix(s1, PROMPT_APPEARANCE, p.agentName);
    ContainsInPrefix(s1 + PROMPT_APPEARANCE, p.appearance, p.agentName);
    ContainsMiddle(s1 + PROMPT_APPEARANCE, p.appearance, PROMPT_TRAITS);
    ContainsInPrefix(s2, PROMPT_TRAITS, p.agentName);
    ContainsInPrefix(s2 + PROMPT_TRAITS, Join(p.personalityTraits, ", "), p.agentName);
    ContainsInPrefix(s2 + PROMPT_TRAITS, Join(p.personalityTraits, ", "), p.appearance);
    ContainsInPrefix(s2 + PROMPT_TRAITS + Join(p.personalityTraits, ", "), PROMPT_STYLE, p.agentName);
    ContainsInPrefix(s2 + PROMPT_TRAITS + Join(p.personalityTraits, ", "), PROMPT_STYLE, p.appearance);
    ContainsInPrefix(s3, style, p.agentName);
    ContainsInPrefix(s3, style, p.appearance);
    ContainsInPrefix(s3 + style, PROMPT_TAIL, p.agentName);
    ContainsInPrefix(s3 + style, PROMPT_TAIL, p.appearance);
    ContainsMiddle(s3, style, PROMPT_TAIL);
    r
  }

  /** Why the endpoint's image was not used. */
  datatype ImageFailure = MissingKey | RequestFailed | HttpError | NoUrl

  /** `{ success, imageUrl, error? }`. */
  datatype ImageResult = ImageResult(success: bool, imageUrl: string, error: Option<ImageFailure>)

  /**
   * `generateAICharacterImage`. `endpoint` is the image service's reply to
   * a prompt. The result always reports success; on a failure its URL is
   * the dominant trait's placeholder.
   */
  function GenerateAICharacterImage(p: Persona, traits: Scores, hasKey: bool, endpoint: string -> ImageReply)
    : (r: ImageResult)
    ensures r.success && r.imageUrl != ""
    ensures var reply := endpoint(ImagePrompt(p, StylePrompt(ReduceDominant(traits))));
      r.error.None? <==> hasKey && Delivered(reply)
    ensures var reply := endpoint(ImagePrompt(p, StylePrompt(ReduceDominant(traits))));
      r.error.None? ==> r.imageUrl == reply.url.value
    ensures r.error.Some? ==> r.imageUrl == PlaceholderUrl(ReduceDominant(traits))
    ensures !hasKey ==> r.error == Some(MissingKey)
  {
    var fallback := PlaceholderUrl(ReduceDominant(traits));
    if !hasKey then ImageResult(true, fallback, Some(MissingKey))
    else
      var reply := endpoint(ImagePrompt(p, StylePrompt(ReduceDominant(traits))));
      match reply
      case Threw => ImageResult(true, fallback, Some(RequestFailed))
      case NotOk => ImageResult(true, fallback, Some(HttpError))
      case Json(url) =>
        if Truthy(url) then ImageResult(true, url.value, None)
        else ImageResult(true, fallback, Some(NoUrl))
  }

  /** Distinct dominant traits get distinct placeholders. */
  lemma {:induction false} PlaceholdersDistinct(t: Trait, u: Trait)
    requires t != u
    ensures PlaceholderUrl(t) != PlaceholderUrl(u)
  {
    PlaceholderLabel(t);
    PlaceholderLabel(u);
  }

  lemma {:induction false} PlaceholderLabel(t: Trait)
    ensures |PlaceholderUrl(t)| > 55 && PlaceholderUrl(t)[55] == "ACSP"[Rank(t)]
  {
  }

  // ---- chat --------------------------------------------------------------

  const CANNED_REPLY := "Hey there! I'm Mae Buni, the AI personality from Play Buni Magazine. I'm still in development, but I'll be ready to chat soon! xoxo, Mae Buni"

  /** The system prompt, one constant per line (each line keeps its line break). */
  const SYSTEM_PROMPT := SYSTEM_PROMPT_1 + SYSTEM_PROMPT_2 + SYSTEM_PROMPT_3 + SYSTEM_PROMPT_4
  const SYSTEM_PROMPT_1 := "You are Mae Buni, the playful and flirtatious AI personality from Play Buni Magazine.\n"
  const SYSTEM_PROMPT_2 := "        Your tone is friendly, slightly flirtatious, and you often use \"xoxo, Mae Buni\" as your signature.\n"
  const SYSTEM_PROMPT_3 := "        You're knowledgeable about crypto, especially Solana, memes, and internet culture.\n"
  const SYSTEM_PROMPT_4 := "        Keep responses concise and engaging."

  /**
   * `generateChatResponse`: the model's signed text, or the canned reply
   * when the key is missing or the call fails.
   */
  method GenerateChatResponse(messages: seq<Message>, hasKey: bool, model: seq<Message> -> Outcome)
    returns (r: string)
    ensures var reply := model(WithSystemPrompt(SYSTEM_PROMPT, messages));
      if hasKey && reply.Ok? then r == EnsureSigned(reply.text) else r == CANNED_REPLY
    ensures IsSigned(r)
  {
    if !hasKey {
      CannedReplySigned();
      return CANNED_REPLY;
    }
    var formatted := messages;
    if !HasSystem(formatted) {
      formatted := [Message(SYSTEM, SYSTEM_PROMPT)] + formatted;
    }
    var reply := model(formatted);
    if reply.Fail? {
      CannedReplySigned();
      return CANNED_REPLY;
    }
    r := reply.text;
    if !IsSigned(r) {
      r := r + SIGN_OFF;
    }
  }

  lemma CannedReplySigned()
    ensures IsSigned(CANNED_REPLY) && EndsWith(CANNED_REPLY, SIGNATURE)
  {
    var c := CANNED_REPLY;
    assert c == "Hey there! I'm Mae Buni, the AI personality from Play Buni Magazine. I'm still in development, but I'll be ready to chat soon! " + SIGNATURE;
    EndsWithAppend("Hey there! I'm Mae Buni, the AI personality from Play Buni Magazine. I'm still in development, but I'll be ready to chat soon! ", SIGNATURE);
    EndsWithContains(c, SIGNATURE);
    ExactlySignedIsSigned(c);
  }
}
