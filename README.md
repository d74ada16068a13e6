# Play Buni: a verified model of the chat and persona core

Play Buni is a magazine site with a chat companion, Mae Buni, and a quiz that
builds a character persona. This project models, in Dafny, the parts of the
site that take decisions:

- the two offline reply generators (`lib/local-chat.ts`, `lib/fallback-chat.ts`);
- how remote replies are normalised (system prompt, signature) and when a
  route falls back to a local reply (`lib/ai-sdk.ts`, `lib/ai-sdk-service.ts`,
  `lib/enhanced-ai-service.ts`, the `app/api/chat*` routes, `middleware.ts`);
- the chat session and message tables (`lib/chat-history-service.ts`);
- the client transcripts (`components/streaming-chat.tsx`,
  `components/simple-chat.tsx`, `lib/chat-service.ts`,
  `lib/streaming-chat-service.ts`, `lib/chat-patch.ts`);
- the quiz, the persona fallback and the two persona stores with their
  dual-write policy (`app/quiz/ai-character/page.tsx`, `lib/persona-service.ts`,
  `lib/db-persona-service.ts`, `app/quiz/actions/persona-actions.ts`);
- the local-storage lists and the subscription transaction
  (`lib/action-utils.ts`, `lib/subscription-service.ts`,
  `components/subscription-form.tsx`);
- small helpers: header routing, `shadeColor` and the avatar colours,
  `isLightColor`, the article carousel, word highlighting, the game-image keys
  and the viewport breakpoints.

Everything that is not deterministic in the source is an input of the model:
the language model's answer and every database or cache statement are
oracle outcomes (`Ok(text)` or `Fail`, a success flag, or the statement
of a sequence at which it throws), and random pool indices, generated ids
and timestamps are parameters. Tables are `seq` or
`map` fields of store classes; React state is a class whose fields the event
handlers update.

Shared modules: `Options` (an `Option` type), `Text` (ASCII lower-casing,
prefix and substring tests, trimming), `Numerals` (`parseInt` and
`toString` for a radix, and `Number.parseInt` without one), `Ordering` (a stable sort by key, standing for SQL
`ORDER BY`), `ChatTypes` (messages, the oracle outcome, the last user
message), `Signature` (the "xoxo, Mae Buni" sign-off) and `Traits` (the four
trait scores and the two dominant-trait rules).

## Model

| member | source | states |
|---|---|---|
| LocalChat.Pool | lib/local-chat.ts:17-74 | every category has exactly five canned replies |
| LocalChat.AllRepliesSigned | lib/local-chat.ts:17-74 | every canned reply of every pool ends with "xoxo, Mae Buni" |
| LocalChat.Classify | lib/local-chat.ts:83-138 | the category is the first test, in order greeting, Play Buni, Solana, crypto, about-me, flirty, that the lowercased text passes, each category holding exactly when all earlier tests fail and its own holds; the greeting test is anchored at the start |
| LocalChat.PickReply | lib/local-chat.ts:76-80 | the reply is an element of the category's pool, the one at the random index when it is in range |
| LocalChat.GenerateResponse | lib/local-chat.ts:83-139 | the reply is an element of exactly the classified category's pool and ends with the signature |
| LocalChat.ReplySigned | lib/local-chat.ts:83-139 | every generated reply contains the signature |
| LocalChat.ClassifyIgnoresCase | lib/local-chat.ts:84 | the category does not change when the text is lowercased first |
| LocalChat.ResponseIgnoresCase | lib/local-chat.ts:84 | the reply does not depend on letter case |
| LocalChat.GreetingIsAnchored | lib/local-chat.ts:87 | "Hi!" is a greeting while "oh" (no greeting at the start) falls through to the default pool |
| LocalChat.HelloIsGreeting | lib/local-chat.ts:87 | "Hello" is a greeting |
| LocalChat.ConsoleIsSolana | lib/local-chat.ts:97 | "console" is answered about Solana, because "sol" is a plain substring test |
| LocalChat.WhatsUpIsDefault | lib/local-chat.ts:87-138 | "what's up" is not a greeting here and gets a default reply |
| LocalChat.MagazineBeforeSolana | lib/local-chat.ts:92-98 | a text naming both the magazine and Solana gets a Play Buni reply |
| LocalChat.GreetingBeforeSolana | lib/local-chat.ts:87-99 | "hello, what is solana" is a greeting |
| LocalChat.QuestionIsSolana | lib/local-chat.ts:87-99 | "what is solana" is about Solana |
| LocalChat.PhotoIsFlirty | lib/local-chat.ts:129 | "photo" is flirting, through "hot" |
| LocalChat.UpdateIsFlirty | lib/local-chat.ts:131 | "update" is flirting, through "date" |
| LocalChat.CryptoBeforeAboutMe | lib/local-chat.ts:102-121 | "mae buni, what is crypto" is a crypto question, not about Mae Buni |
| LocalChat.CreateChatSession | lib/local-chat.ts:142-149 | a new session has the given id, no messages and both timestamps equal to the creation time |
| LocalChat.AddMessage | lib/local-chat.ts:152-165 | exactly one message with the given role and content is appended, earlier messages keep their order, id and creation time are kept and the update time is the current one |
| LocalChat.AddMessageOrder | lib/local-chat.ts:152-165 | two additions leave both messages at the end in the order they were added |
| LocalChat.TypingDelay | lib/local-chat.ts:178-182 | the delay is 200 ms per character, clamped to at least 500 ms and at most 3000 ms |
| LocalChat.TypingDelayMonotone | lib/local-chat.ts:178-182 | a longer text never gets a shorter delay |
| FallbackChat.Pool | lib/fallback-chat.ts:2-40 | each category's pool has the number of replies the table lists |
| FallbackChat.SignedReplies | lib/fallback-chat.ts:2-40 | a reply ends with the full signature exactly when it is not one of the two greetings at lines 6-7 |
| FallbackChat.RepliesKiss | lib/fallback-chat.ts:2-40 | every pooled reply contains "xoxo" |
| FallbackChat.Classify | lib/fallback-chat.ts:43-99 | the category is the first test, in order greeting, Play Buni, Solana, crypto, flirty, that the lowercased text passes, each holding exactly when all earlier tests fail and its own holds |
| FallbackChat.SignatureKisses | lib/fallback-chat.ts:105 | any signed text contains "xoxo" |
| FallbackChat.GenerateFallbackResponse | lib/fallback-chat.ts:102-113 | an empty message gets the fixed "I'd love to chat" reply; any other gets an element of its category's pool; every result contains "xoxo" |
| FallbackChat.WhatsUpGreetsOnlyHere | lib/fallback-chat.ts:48 | "what's up" is a greeting here but a default message for the local generator |
| FallbackChat.ConsoleSolanaOnlyLocally | lib/fallback-chat.ts:64 | "console" is a default message here but about Solana for the local generator |
| FallbackChat.ConsoleIsDefault | lib/fallback-chat.ts:48-94 | "console" passes none of the tests |
| FallbackChat.YoureCuteGreets | lib/fallback-chat.ts:48 | "you're cute" is a greeting because the greeting prefixes include "yo" |
| FallbackChat.WhoAreYouIsPlayBuni | lib/fallback-chat.ts:53-61 | "who are you" goes to the Play Buni pool |
| FallbackChat.SolAtEndMissesSolana | lib/fallback-chat.ts:64 | "i hold sol" fails the Solana test, which needs "sol " with its space |
| FallbackChat.HoldingSolIsDefault | lib/fallback-chat.ts:48-94 | "i hold sol" gets a default reply |
| FallbackChat.DateNeedsYou | lib/fallback-chat.ts:88 | "update" is not flirting while "date you" is: "date" counts only together with "you" |
| LocalChat.Body | lib/local-chat.ts:17-74 | each canned reply without its closing signature, in source order; Pool and AllRepliesSigned state the pools built from it |
| LocalChat.StartsWithAny | lib/local-chat.ts:87 | the anchored greeting pattern: the text starts with one of the words; Classify, GreetingIsAnchored and WhatsUpIsDefault state what it accepts |
| LocalChat.ContainsAny | lib/local-chat.ts:92-131 | the `includes` chains: the text contains one of the words; Classify and the Solana and flirting examples state what each chain accepts |
| FallbackChat.Size | lib/fallback-chat.ts:2-40 | five greetings and four replies in every other pool; Pool states that each pool has that many |
| FallbackChat.Body | lib/fallback-chat.ts:2-40 | each reply without its closing sign-off, in source order; Pool and RepliesKiss state the pools built from it |
| FallbackChat.Ending | lib/fallback-chat.ts:6-7 | the bare "xoxo" ending of the two greetings at lines 6-7, the signature everywhere else; SignedReplies states which replies are signed |
| FallbackChat.IsGreeting | lib/fallback-chat.ts:48 | the anchored greeting pattern; Classify, WhatsUpGreetsOnlyHere and YoureCuteGreets state what it accepts |
| FallbackChat.IsPlayBuni | lib/fallback-chat.ts:53-59 | the Play Buni test; Classify and WhoAreYouIsPlayBuni state what it accepts |
| FallbackChat.IsSolana | lib/fallback-chat.ts:64 | the Solana test, with "sol " needing its space; Classify, SolAtEndMissesSolana and ConsoleSolanaOnlyLocally state what it accepts |
| FallbackChat.IsCrypto | lib/fallback-chat.ts:69-76 | the crypto test; Classify states its place in the order |
| FallbackChat.IsFlirty | lib/fallback-chat.ts:81-89 | the flirting test, "date" counting only with "you"; Classify and DateNeedsYou state what it accepts |
| Signature.SignOffSigns | lib/ai-sdk-service.ts:45-47 | a reply followed by "\n\nxoxo, Mae Buni" passes both the case-insensitive and the exact signature test |
| Signature.ExactlySignedIsSigned | lib/ai-sdk-service.ts:45 | a reply that passes the exact test also passes the case-insensitive one |
| Signature.EnsureSigned | lib/ai-sdk-service.ts:43-47 | the result passes the case-insensitive test, starts with the reply, is the reply itself exactly when the reply was already signed, and otherwise is the reply plus the sign-off |
| Signature.EnsureSignedIdempotent | lib/ai-sdk.ts:216-218 | normalising twice gives the same text as normalising once |
| Signature.EnsureSignedExactly | app/api/chat-enhanced/route.ts:125-127 | the case-sensitive variant: the result passes both tests, starts with the reply, and the sign-off is appended exactly when "xoxo, Mae Buni" is missing verbatim |
| Signature.ShoutedSignatureSignedTwice | app/api/chat-enhanced/route.ts:125-127 | "Love, XOXO, MAE BUNI" is left alone by the case-insensitive test but gets a second signature from the exact one |
| ChatTypes.ReverseFindUser | lib/enhanced-ai-service.ts:70 | there is no result exactly when no message has role "user"; a result is the message at the last user index |
| ChatTypes.UserMessages | app/api/chat-enhanced/route.ts:75 | every message kept is a user message of the list, every user message of the list is kept, and the list never grows |
| ChatTypes.UserMessagesAppend | app/api/chat-enhanced/route.ts:75 | the filter keeps order: filtering a concatenation concatenates the filtered parts |
| ChatTypes.FilterPopIsReverseFind | app/api/chat-enhanced/route.ts:75 | filtering the user messages and popping the last one finds the same message as the reverse find |
| ChatTypes.LastUserContent | lib/enhanced-ai-service.ts:70-71 | the content of the last user message, or "" when there is none |
| ChatTypes.LastUserOfAppend | components/simple-chat.tsx:71 | after a user message is appended, it is the last user message |
| ChatTypes.WithSystemPrompt | lib/ai-sdk-service.ts:27-33 | the list is unchanged when it has a system message, and otherwise gains the prompt in front; the result always has a system message |
| ChatTypes.WithSystemPromptIdempotent | lib/ai-sdk-service.ts:27-33 | prepending the prompt twice is prepending it once |
| ChatTypes.WithSystemPromptKeepsMessages | lib/ai-sdk-service.ts:27-33 | the client's messages are kept, in order, at the end of the list sent |
| AiSdkService.GenerateAIResponse | lib/ai-sdk-service.ts:17-54 | the call fails exactly when the model fails on the list with the prompt prepended when absent (the error is passed on); on success the text is the model's reply, normalised to carry the signature |
| AiSdkService.GenerateAIImage | lib/ai-sdk-service.ts:95-135 | the result is the endpoint's URL when the key is present and a URL came back, and the fixed placeholder URL in every other case (no key, failed fetch, non-OK status, no URL) |
| EnhancedAiService.GenerateChatResponse | lib/enhanced-ai-service.ts:30-76 | with the key and a successful model call the result is the reply normalised to carry the signature (prompt prepended only when absent); with no key or on a failure it is the fallback generator's reply to the last user message, or to "" when there is none |
| EnhancedAiService.StreamChatResponse | lib/enhanced-ai-service.ts:81-112 | a missing key is an error; otherwise the result is the stream opened on the list with the prompt prepended when absent, its failure passed on with no fallback |
| Signature.IsSigned | lib/ai-sdk-service.ts:45 | the lowercased text contains "xoxo, mae buni"; SignOffSigns, ExactlySignedIsSigned and EnsureSigned state when it holds |
| Signature.IsSignedExactly | app/api/chat-enhanced/route.ts:125 | the case-sensitive test for "xoxo, Mae Buni"; SignOffSigns, ExactlySignedIsSigned and EnsureSignedExactly state when it holds |
| Traits.NameInjective | lib/ai-sdk.ts:168-173 | the four trait keys are distinct, so a key names one trait |
| Traits.FromName | lib/persona-service.ts:88-96 | the trait a stored key stands for: when there is one its key is the text, and any trait with that key is found |
| Traits.Add | app/quiz/ai-character/page.tsx:391-396 | adding an option's weights adds key by key |
| Traits.Entries | lib/ai-sdk.ts:100 | `Object.entries` of the score record: four entries, one per trait in key order, each with that trait's score |
| Traits.ReduceMax | lib/ai-sdk.ts:100 | the reduce with strict `>` returns an entry of the list whose value is the maximum, and no later entry reaches that value: the last maximal entry wins |
| Traits.ReduceDominant | lib/ai-sdk.ts:235 | the reduce-dominant trait has the maximal score and every later trait in key order scores strictly less |
| Traits.Rank | lib/ai-sdk.ts:100 | the key order analytical, creative, social, practical |
| Traits.MaxScore | app/quiz/ai-character/page.tsx:416-430 | the largest of the four scores |
| Traits.FirstMaxDominant | app/quiz/ai-character/page.tsx:416-430 | `calculateResult`'s trait has the maximal score and every earlier trait in key order scores strictly less: the first maximal trait wins |
| Traits.DominantsAgree | app/quiz/ai-character/page.tsx:416-430 | with a unique maximum the first-max and last-max rules pick the same trait |
| Traits.DominantsDisagreeOnTies | app/quiz/ai-character/page.tsx:482 | whenever two traits tie for the maximum the two rules pick different traits, the first rule one no later than the earlier tied trait and the reduce one no earlier than the later |
| Traits.TieExample | lib/ai-sdk.ts:235 | for scores {5, 5, 0, 0} the page shows analytical while the persona code picks creative |
| AiSdk.ArchetypeShape | lib/ai-sdk.ts:238-295 | every archetype has five personality traits, four special abilities, and no id, image or dominant trait |
| AiSdk.ArchetypeNamesDistinct | lib/ai-sdk.ts:238-295 | two archetypes share a name exactly when they are the same trait's |
| AiSdk.FallbackPersona | lib/ai-sdk.ts:228-296 | the fallback persona is the archetype of the reduce-dominant trait |
| AiSdk.FindFrom | lib/ai-sdk.ts:62 | the first position at or after a start where a pattern occurs, or none when it occurs nowhere after it |
| AiSdk.FencedCapture | lib/ai-sdk.ts:62 | a capture is the contents of a fenced block of the reply opened by the given fence |
| AiSdk.JsonSource | lib/ai-sdk.ts:62-63 | the text parsed is the whole reply or a non-empty ```json or plain ``` block of it, and the ```json block whenever there is a non-empty one |
| AiSdk.FindFromFirst | lib/ai-sdk.ts:62 | the search stops at the first occurrence |
| AiSdk.UnfencedIsWhole | lib/ai-sdk.ts:62-63 | a reply without three backticks in a row is parsed whole |
| AiSdk.FencedCaptureOf | lib/ai-sdk.ts:62 | the capture of a fence around a non-empty, backtick-free body is that body |
| AiSdk.JsonFenceRoundTrip | lib/ai-sdk.ts:62-63 | wrapping a non-empty, backtick-free body in a ```json fence and extracting the source gives the body back |
| AiSdk.GenerateAICharacterPersona | lib/ai-sdk.ts:5-78 | never fails: the parsed persona when the key is present, the model answered and the extracted text parses, and the fallback persona for the traits otherwise |
| AiSdk.ImagePrompt | lib/ai-sdk.ts:123-129 | the image prompt names the character, its appearance and the chosen style |
| AiSdk.GenerateAICharacterImage | lib/ai-sdk.ts:80-181 | always reports success with a non-empty URL; there is no error exactly when the key is present and a URL came back, which is then the URL; on any error the URL is the reduce-dominant trait's placeholder; a missing key is reported as such |
| AiSdk.PlaceholdersDistinct | lib/ai-sdk.ts:168-173 | distinct dominant traits get distinct placeholder URLs |
| AiSdk.PlaceholderLabel | lib/ai-sdk.ts:168-173 | each placeholder URL's label starts with its trait's initial |
| AiSdk.GenerateChatResponse | lib/ai-sdk.ts:184-225 | with the key and a successful model call the result is the normalised reply to the list with the prompt prepended when absent; a missing key and any error give the same canned reply; every result carries the signature |
| AiSdk.CannedReplySigned | lib/ai-sdk.ts:188 | the canned reply ends with the signature |
| Traits.Name | lib/ai-sdk.ts:229-232 | the key of each trait in the score record; NameInjective and FromName state that a key names one trait and reads back |
| Traits.Score | lib/ai-sdk.ts:229-232 | a trait's score in the record; Add, Entries, MaxScore, FirstMaxDominant and ReduceDominant state how scores are combined and compared |
| AiSdk.Archetype | lib/ai-sdk.ts:238-295 | the canned persona of each trait; ArchetypeShape, ArchetypeNamesDistinct and FallbackPersona state its fields, that the names differ and that the fallback uses it |
| AiSdk.OccursAt | lib/ai-sdk.ts:62 | a pattern occurs at a position; FindFrom, FindFromFirst and UnfencedIsWhole state the search for it |
| AiSdk.FencedBlock | lib/ai-sdk.ts:62 | a fenced block opened by a fence has the given contents; FencedCapture and JsonSource state that extraction yields one |
| AiSdk.StylePrompt | lib/ai-sdk.ts:102-120 | the style of each dominant trait; ImagePrompt and GenerateAICharacterImage state that the prompt carries it |
| AiSdk.PlaceholderUrl | lib/ai-sdk.ts:168-177 | the placeholder image of each dominant trait; PlaceholdersDistinct, PlaceholderLabel and GenerateAICharacterImage state what it gives and when it is used |
| AiSdk.Join | lib/ai-sdk.ts:125 | `join(", ")` of the personality traits; ImagePrompt states that the prompt contains the character's details |
| AiSdkService.Delivered | lib/ai-sdk-service.ts:125-129 | the endpoint answered with a truthy URL; GenerateAIImage states that it is returned exactly then |
| ChatEnhancedRoute.SaveChatMessage | app/api/chat-enhanced/route.ts:13-24 | one message row is inserted and `true` returned when the statement succeeds; any failure (database down, missing table, role rejected by the check constraint, duplicate id) returns `false` and leaves the table as it was; sessions are untouched |
| ChatEnhancedRoute.GetOrCreateChatSession | app/api/chat-enhanced/route.ts:27-62 | an anonymous caller gets a freshly inserted session with no owner; a known user gets the most recently created session of theirs, or a new one bound to them; any failure returns a fallback id and inserts nothing; messages are untouched |
| ChatEnhancedRoute.AnonymousNeverReuses | app/api/chat-enhanced/route.ts:30-37 | an anonymous caller never gets the id of an existing session |
| ChatEnhancedRoute.LatestSessionReused | app/api/chat-enhanced/route.ts:40-49 | a known user with sessions gets the most recently created one and nothing is inserted |
| ChatEnhancedRoute.RepeatedCallsAgree | app/api/chat-enhanced/route.ts:40-57 | two healthy calls for the same user return the same session id, the second finding the session the first found or created |
| ChatEnhancedRoute.PromptPrependedUnconditionally | app/api/chat-enhanced/route.ts:98-112 | the prompt is unshifted even when the client sent a system message, so the model then gets two system messages, unlike the shared normalisation |
| ChatEnhancedRoute.ContentKisses | app/api/chat-enhanced/route.ts:122-135 | every reply of this route contains "xoxo" |
| ChatEnhancedRoute.ShoutedReplySignedTwice | app/api/chat-enhanced/route.ts:125-127 | a remote reply signed "XOXO, MAE BUNI" gets a second, exact signature |
| ChatEnhancedRoute.NoKeyFallsBack | app/api/chat-enhanced/route.ts:88-135 | without a key the model is not consulted and the reply is the fallback-chat reply to the last user text |
| ChatEnhancedRoute.Post | app/api/chat-enhanced/route.ts:64-162 | a missing message list is answered 500 and writes nothing; otherwise the reply is `{content, sessionId}` with the resolved session, the remote text signed exactly when a key is present and the call succeeds, else the fallback-chat reply; the user message is saved before the reply, and a failing save never changes the answer |
| ChatEnhancedRoute.Respond | app/api/chat-enhanced/route.ts:86-135 | the reply is the remote text, signed when it lacks the exact signature, when a key is set and the call succeeds; otherwise the fallback-chat reply to the last user text |
| ChatEnhancedRoute.HealthySavesBoth | app/api/chat-enhanced/route.ts:79-84 | with a healthy database and fresh ids the message table gains the user message and then the reply, in that order |
| ChatEnhancedRoute.Owner | app/api/chat-enhanced/route.ts:30-36 | the `user_id` of a new session, `NULL` for an anonymous caller; GetOrCreateChatSession and AnonymousNeverReuses state who owns a new session |
| ChatEnhancedRoute.CreatesSession | app/api/chat-enhanced/route.ts:27-62 | a row is inserted exactly when nothing fails and the caller has no session to reuse; GetOrCreateChatSession and LatestSessionReused state its effect |
| ChatEnhancedRoute.ResolvedSession | app/api/chat-enhanced/route.ts:27-62 | the id `getOrCreateChatSession` returns: the user's latest session, else the new id, else the fallback id after a failure; GetOrCreateChatSession, AnonymousNeverReuses, LatestSessionReused and RepeatedCallsAgree state it |
| ChatEnhancedRoute.SessionsAfter | app/api/chat-enhanced/route.ts:27-62 | the session table afterwards; GetOrCreateChatSession and RepeatedCallsAgree state what it holds |
| ChatEnhancedRoute.AfterSave | app/api/chat-enhanced/route.ts:13-24 | the message table after one save, unchanged when the insert fails; SaveChatMessage and HealthySavesBoth state it |
| ChatEnhancedRoute.ModelInput | app/api/chat-enhanced/route.ts:98-112 | this route's prompt followed by the client's messages; PromptPrependedUnconditionally and ShoutedReplySignedTwice state what the model receives |
| ChatEnhancedRoute.Content | app/api/chat-enhanced/route.ts:122-135 | the exactly-signed remote reply, else the fallback-chat reply to the last user text; ContentKisses, ShoutedReplySignedTwice, NoKeyFallsBack and Respond state it |
| ChatAiSdkRoute.ContentSigned | app/api/chat-ai-sdk/route.ts:87-94 | the content passes the case-insensitive signature test whether it came from the remote model or from the local generator |
| ChatAiSdkRoute.Post | app/api/chat-ai-sdk/route.ts:63-122 | a missing message list is answered 500 and writes nothing; otherwise the reply is `{content, sessionId, model: "grok-3"}` with the session resolved as in the chat-enhanced route, the content the signed remote reply or, on any remote failure, the local-chat reply to the last user text; the user message is saved before the reply and failing saves do not change the answer |
| ChatWithSessionRoute.Post | app/api/chat-with-session/route.ts:25-83 | a missing or empty session id is answered 400 with nothing saved or generated; a missing message list 500; otherwise both messages are written under the client's session id (no session is ever created), the content is as in the chat-ai-sdk route, and the answer echoes the session id with model "grok-3" |
| ChatSimpleRoute.Post | app/api/chat-simple/route.ts:18-86 | the content is the signed remote reply, or on a remote failure the local-chat reply; `isUsingFallback` holds exactly when the remote call failed; every answer has a fresh session id; a request-level error answers status 200 with the fallback flag and a greeting-pool reply to "Hello" |
| ChatSimpleRoute.ErrorEnvelopeGreets | app/api/chat-simple/route.ts:76-85 | the error envelope's reply comes from the greeting pool |
| ChatRoute.Post | app/api/chat/route.ts:6-62 | a request-level error answers 500 with `fallbackContent` the local reply to "Hello"; otherwise the answer has a fresh session id, the fallback flag holds exactly when the key is missing or the remote call failed, the fallback content is the local-chat reply to the last user text and the remote content is the normalised reply; every reply is signed |
| ChatAiSdkRoute.Content | app/api/chat-ai-sdk/route.ts:87-94 | the normalised remote reply, else the local-chat reply to the last user text; ContentSigned and Post state it |
| ChatDiagnosticRoute.ConnectionStatus | app/api/chat-diagnostic/route.ts:20-32 | the status the connection test ends with; StatusAlwaysSet and TestConnection state that one of the three is always set |
| ChatStreamRoute.SessionId | app/api/chat-stream/route.ts:14 | the id is never empty; it is the client's id or the fresh one, and always the client's when that is non-empty |
| ChatStreamRoute.SessionIdEchoed | app/api/chat-stream/route.ts:14-29 | a client that sends back the `X-Session-Id` it was given keeps that session, whatever fresh id the next request draws |
| ChatStreamRoute.Post | app/api/chat-stream/route.ts:6-43 | a missing message list is answered 500; otherwise the answer is a plain-text stream whose body is a signed reply from the local-chat pool of the last user text's category, with the resolved session id in the `X-Session-Id` header |
| ChatDiagnosticRoute.StatusAlwaysSet | app/api/chat-diagnostic/route.ts:20-32 | the connection status is never left at "Not tested"; it is "Success" exactly when a URL is configured and the probe answered 1, "No DATABASE_URL provided" exactly when no URL is configured, and starts with "Error: " when the probe threw |
| ChatDiagnosticRoute.TestConnection | app/api/chat-diagnostic/route.ts:20-32 | the status the step-by-step test ends with is the connection status above |
| ChatDiagnosticRoute.Preview | app/api/chat-diagnostic/route.ts:55 | a text of at most 50 characters is kept whole; a longer one is cut to its first 50 characters followed by "..." |
| ChatDiagnosticRoute.Post | app/api/chat-diagnostic/route.ts:7-73 | a missing message list is answered 500 with the diagnostic error; otherwise the answer carries the connection status, the message count, the preview of the last user text, both configuration flags, the local-chat reply to the last user text and a fresh session id |
| ChatHistoryRoute.Get | app/api/chat-history/route.ts:5-33 | rows are never changed; the route's own table setup throwing is the only 500, and keeps any table it created; otherwise both tables exist, and a truthy session id answers that session's messages whatever the user id, else the session list for the user id when non-empty; either list is `[]` when the service's repeated setup probe or its query throws |
| Middleware.Middleware | middleware.ts:4-16 | a request is rewritten exactly when it is a POST to exactly `/api/chat`; the rewrite goes to `/api/chat-with-session` with the same origin and query |
| Middleware.RewriteIsFinal | middleware.ts:6-12 | a rewritten request passes through unchanged when the middleware sees it again |
| ChatHistoryService.Identifier | lib/chat-history-service.ts:119 | the identifier is never empty; it is the user id or "anonymous", and always the user id when that is non-empty |
| ChatHistoryService.AnonymousIdentifiers | lib/chat-history-service.ts:119 | no user id, an empty one and the id "anonymous" all select the anonymous list |
| ChatHistoryService.IdentifierInjective | lib/chat-history-service.ts:119 | distinct non-empty user ids select distinct identifiers |
| ChatHistoryService.RecentVisible | lib/chat-history-service.ts:138-141 | exactly the smaller of 20 and the number of visible sessions, newest `updated_at` first, each a stored session whose user is null or the caller; they are the first rows of all visible sessions in that order, and all of them when at most 20 are visible |
| ChatHistoryService.RecentVisibleKeepsNewest | lib/chat-history-service.ts:138-141 | the listed rows are among the visible ones, and every visible session left out was updated no later than every listed one |
| ChatHistoryService.SessionsQuery | lib/chat-history-service.ts:121-150 | one summary per listed session, in the list's order, so at most 20, newest first, each about a session visible to the caller |
| ChatHistoryService.MessagesQuery | lib/chat-history-service.ts:165-170 | exactly the session's stored messages (as a multiset), every one of them, oldest first |
| ChatHistoryService.Touch | lib/chat-history-service.ts:213-217 | the named session's `updated_at` becomes now; every other column of every row is kept |
| ChatHistoryService.LatestFor | app/api/chat-enhanced/route.ts:39-48 | none exactly when the user owns no session; otherwise a session the user owns with the latest `created_at` |
| ChatHistoryService.ChatDb.constructor | lib/chat-history-service.ts:13-30 | a fresh database has neither table and no rows, the state the existence checks allow for |
| ChatHistoryService.ChatDb.EnsureChatTablesExist | lib/chat-history-service.ts:10-92 | it throws at a failing probe, or at a failing `CREATE TABLE` of a missing table; `chat_sessions` exists afterwards unless the setup threw before or at its creation, `chat_messages` exactly when it existed or the setup completed; on success both exist; rows are never touched |
| ChatHistoryService.SetupAfterSuccess | lib/chat-history-service.ts:10-92 | once a setup has completed, only a failing probe makes a later one throw, and every later one keeps both tables |
| ChatHistoryService.FailedSetupKeepsSessions | lib/chat-history-service.ts:33-57 | a setup that throws creating a missing `chat_messages` has still created `chat_sessions` |
| ChatHistoryService.ChatDb.InsertSession | lib/chat-history-service.ts:36-41 | a row is appended exactly when the table exists and its id is new; otherwise nothing changes |
| ChatHistoryService.ChatDb.InsertMessage | lib/chat-history-service.ts:48-55 | a row is appended exactly when the table exists, its id is new and its role is user or assistant; otherwise nothing changes |
| ChatHistoryService.ChatDb.GetChatSessions | lib/chat-history-service.ts:113-155 | the session-list query for the user id, or "anonymous" without one, or `[]` when the setup or the query throws; rows are unchanged and the tables are as the setup leaves them |
| ChatHistoryService.ChatDb.GetChatMessages | lib/chat-history-service.ts:160-183 | the session's messages oldest first, or `[]` when the setup or the query throws; rows are unchanged and the tables are as the setup leaves them |
| ChatHistoryService.ChatDb.CreateChatSession | lib/chat-history-service.ts:188-203 | when the setup and the insert succeed and the fresh id is new, a row with the fresh id, the user id or null and both timestamps now is appended and its id returned; otherwise no session row is stored and the returned id names no stored session |
| ChatHistoryService.ChatDb.UpdateChatSessionTimestamp | lib/chat-history-service.ts:208-223 | true exactly when the setup and the update succeed, and then only the named session's `updated_at` changed; false leaves every row unchanged |
| ChatHistoryService.AnonymousSessionsListedForAll | lib/chat-history-service.ts:139-141 | a session without a user is listed for every caller while at most 20 sessions are visible |
| ChatHistoryService.OthersSessionsHidden | lib/chat-history-service.ts:139 | a session owned by another user is never listed |
| ChatHistoryService.PreviewIsUserText | lib/chat-history-service.ts:126-132 | a preview is "New conversation" or the text of a user message of that session; assistant text never is |
| ChatService.GetChatResponse | lib/chat-service.ts:44-52 | the reply is a signed reply from the local-chat pool of the last user text's category |
| ChatService.SendChatMessage | lib/chat-service.ts:11-39 | `isLocal` holds exactly when the route did not answer ok; then the content is the local reply, otherwise the route's content |
| ChatService.LocalReplyIndependentOfApi | lib/chat-service.ts:28-38 | a local answer does not depend on how the route failed, and it is signed |
| StreamingChatService.AsMessages | lib/streaming-chat-service.ts:22-25 | one message per client message, each keeping its role and content |
| StreamingChatService.StreamChatResponse | lib/streaming-chat-service.ts:14-72 | exactly one chunk either way; on an ok answer the chunk is the route's content and the result echoes its session id and fallback flag; otherwise the chunk is the local reply, one error is reported and the result is `{isUsingFallback: true}` |
| ChatPatch.InterceptsChatPaths | lib/chat-patch.ts:12-16 | a call is intercepted exactly when the input is a string containing "/api/chat" and the method is POST |
| ChatPatch.HistoryPostIntercepted | lib/chat-patch.ts:12-16 | a POST to the chat-history route is caught as well |
| ChatPatch.PatchedFetch | lib/chat-patch.ts:10-58 | non-chat calls are forwarded; a stream call is answered with plain text, any other chat call with `{content, sessionId, model: "local"}`, both under a `local-<now>` session id |
| ChatPatch.InterceptedReplyIsLocal | lib/chat-patch.ts:19-26 | an intercepted call is never forwarded and its text is the signed local reply to the last user message of the body |
| ChatPatch.FetchState.PatchFetch | lib/chat-patch.ts:7-60 | afterwards the patched function is installed, however often it is called |
| ChatPatch.FetchState.RestoreFetch | lib/chat-patch.ts:63-67 | afterwards the original function is back |
| ChatPatch.FetchState.Fetch | lib/chat-patch.ts:10-58 | without the patch or for a call it does not intercept, the request is forwarded; with the patch an intercepted call is never forwarded and its text is the local reply to the last user message of the body |
| ChatPatch.RestoredFetchForwards | lib/chat-patch.ts:57-67 | after `restoreFetch` every call is forwarded, chat calls included |
| ChatPatch.PatchedFetchAnswersLocally | lib/chat-patch.ts:7-58 | after `patchFetch`, run once or twice, an intercepted chat call is answered locally, never forwarded |
| ChatHistoryService.AllowedRole | lib/chat-history-service.ts:51 | the `role IN ('user', 'assistant')` check; ChatDb.InsertMessage states that only such rows are stored |
| ChatHistoryService.UniqueSessionIds | lib/chat-history-service.ts:37 | the primary key of `chat_sessions`; ChatDb.Valid keeps it and OthersSessionsHidden relies on it |
| ChatHistoryService.UniqueMessageIds | lib/chat-history-service.ts:49 | the primary key of `chat_messages`; ChatDb.Valid keeps it and ChatDb.InsertMessage refuses a used id |
| ChatHistoryService.VisibleTo | lib/chat-history-service.ts:139 | a session without a user or owned by the identifier is listed; RecentVisible, AnonymousSessionsListedForAll and OthersSessionsHidden state what it selects |
| ChatHistoryService.InSession | lib/chat-history-service.ts:168 | the test `session_id = sid`; MessagesQuery states that exactly the session's messages are returned |
| ChatHistoryService.Preview | lib/chat-history-service.ts:126-132 | the text of the session's earliest user message, "New conversation" when there is none or it is empty; PreviewIsUserText states that it is one of the two |
| ChatHistoryService.MessageCount | lib/chat-history-service.ts:133-137 | the number of the session's messages; SessionsQuery carries it into each summary |
| ChatHistoryService.Summary | lib/chat-history-service.ts:144-150 | one session's listed fields; SessionsQuery and AnonymousSessionsListedForAll state the summaries returned |
| ChatHistoryService.VisibleByRecency | lib/chat-history-service.ts:139-140 | the visible sessions, newest `updated_at` first; RecentVisible and RecentVisibleKeepsNewest state that the first 20 of them are listed |
| ChatHistoryService.SetupThrows | lib/chat-history-service.ts:10-92 | whether the setup throws: at a failing probe, or at a failing `CREATE TABLE` of a missing table; ChatDb.EnsureChatTablesExist, SetupAfterSuccess and FailedSetupKeepsSessions use it |
| ChatHistoryService.SessionsTableAfter | lib/chat-history-service.ts:33-44 | `chat_sessions` exists afterwards unless the setup threw before or at its creation; ChatDb.EnsureChatTablesExist and FailedSetupKeepsSessions state it |
| ChatHistoryService.MessagesTableAfter | lib/chat-history-service.ts:46-57 | `chat_messages` exists afterwards exactly when the setup completed or it already existed; ChatDb.EnsureChatTablesExist and SetupAfterSuccess state it |
| ChatPatch.Intercepts | lib/chat-patch.ts:12-16 | the call is a POST whose string input contains `/api/chat`; InterceptsChatPaths and HistoryPostIntercepted state what it catches |
| ChatPatch.LocalReply | lib/chat-patch.ts:20-26 | the local-chat reply to the last user message of the body, or to "" without one; PatchedFetch and InterceptedReplyIsLocal state that this is the answer's text |
| ChatPatch.LocalSessionId | lib/chat-patch.ts:35 | the `local-<now>` session header of a stream answer; PatchedFetch states it |
| ChatTypes.IsOk | lib/chat-service.ts:22 | `response.ok`, a status from 200 to 299; ChatService.SendChatMessage and StreamingChatService.StreamChatResponse state both of its branches |
| ChatTypes.LastUserAt | lib/enhanced-ai-service.ts:70 | the index of the last user message; ReverseFindUser and LastUserContent state that they find it |
| ChatTypes.Pop | app/api/chat-enhanced/route.ts:75 | `pop()` of a fresh array, its last element if any; FilterPopIsReverseFind states that filter-then-pop finds the last user message |
| ChatTypes.HasSystem | lib/ai-sdk-service.ts:27-28 | the `some` test for a system message; WithSystemPrompt states that the prompt is added exactly when it fails |
| DbPersonaService.UniqueExternalIds | lib/db-persona-service.ts:42 | the `UNIQUE` index on `external_id`; PersonaDb.Valid keeps it and InsertKeepsUnique and SetImageOnlyImage state that writes keep it |
| DbPersonaService.HasExternalId | lib/db-persona-service.ts:143 | some row has the external id; FindByExternalId and FindInserted state the lookup by it |
| DbPersonaService.Insertable | lib/db-persona-service.ts:42 | the index accepts a `NULL` or unused external id; PersonaDb.SavePersonaToDb states that a row is appended only then |
| EnhancedAiService.FallbackReply | lib/enhanced-ai-service.ts:66-75 | the catch branch's reply, the fallback generator on the last user text; GenerateChatResponse states when it is used |
| StreamingChat.GreetingSigned | components/streaming-chat.tsx:26-34 | the opening greeting ends with the signature |
| StreamingChat.StreamingChat.constructor | components/streaming-chat.tsx:26-41 | the chat starts with the single greeting, an empty input, no error, no fallback flag and no session |
| StreamingChat.StreamingChat.SetInput | components/streaming-chat.tsx:153-157 | the input becomes the typed text and nothing else changes |
| StreamingChat.StreamingChat.HandleSubmit | components/streaming-chat.tsx:65-112 | a blank input or a request in flight changes nothing; otherwise the untrimmed user text and its local reply are appended, the input is cleared, the error and fallback flag are reset and the session becomes `local-<now>` |
| StreamingChat.StreamingChat.Submit | components/streaming-chat.tsx:70-111 | once the guard has passed, the user text the closure read and its local reply are appended, the input is cleared, the error and fallback flag are reset, loading and streaming end and the session becomes `local-<now>` |
| StreamingChat.StreamingChat.Exchange | components/streaming-chat.tsx:74-92 | the user message is appended, the input cleared, and the local reply to that message appended after it |
| StreamingChat.StreamingChat.HandleRetry | components/streaming-chat.tsx:115-130 | with at least two messages a trailing assistant message is dropped; the last user text goes back into the input; the error and fallback flag are cleared |
| StreamingChat.StreamingChat.RetrySubmit | components/streaming-chat.tsx:126-128 | the timer's `handleSubmit` guards on and sends the `input` of the render in which Retry was clicked, not the refilled text: a blank one or a request then in flight changes nothing, otherwise that text and its local reply are appended |
| StreamingChat.StreamingChat.HandleCancelStream | components/streaming-chat.tsx:133-150 | loading and streaming stop; a non-empty partial reply is kept with the interruption note, an empty one adds nothing |
| StreamingChat.StreamingChat.HandleSelectSession | components/streaming-chat.tsx:168-171 | the stored transcript and its session id replace the current ones |
| StreamingChat.StreamingChat.HandleNewChat | components/streaming-chat.tsx:174-185 | back to the single greeting with no session |
| StreamingChat.SubmitAppendsPair | components/streaming-chat.tsx:74-92 | a submission appends exactly the user message with the untrimmed text and then one signed assistant reply, after which the last user text is that text |
| StreamingChat.RetryUndoesReply | components/streaming-chat.tsx:119-125 | retrying right after a submission drops its reply and refills the input with the submitted text |
| StreamingChat.StreamingChat.RetryAfterSubmit | components/streaming-chat.tsx:65-130 | a submission followed by a retry leaves its user message without a reply and the text back in the input: the timer's `handleSubmit` sees the emptied input and resends nothing |
| SimpleChat.SimpleChat.constructor | components/simple-chat.tsx:23-34 | the chat starts with the single greeting, an empty input, not loading and no fallback flag |
| SimpleChat.SimpleChat.SetInput | components/simple-chat.tsx:104-108 | the input becomes the typed text and nothing else changes |
| SimpleChat.SimpleChat.HandleSubmit | components/simple-chat.tsx:48-101 | a blank input or a request in flight changes nothing; otherwise the prior transcript plus the new user message is sent, the answer appended, the input cleared and the fallback flag set from the answer |
| SimpleChat.ApologySigned | components/simple-chat.tsx:89-95 | the apology for a failed request ends with the signature |
| SimpleChat.RequestCarriesTranscript | components/simple-chat.tsx:70-72 | the request is the prior transcript as role and content pairs followed by the new user text, which is then the last user text |
| SimpleChat.SubmitAppendsPair | components/simple-chat.tsx:53-96 | a submission appends exactly the user message and one assistant message: the server's content when it answered, the signed apology when it threw; the fallback flag holds exactly when it threw or the server said so |
| StreamingChatService.CreateMessage | lib/streaming-chat-service.ts:77-84 | a message carries the given role and content, with the supplied id and time standing for `nanoid()` and the clock; SubmitAppendsPair in both chat components states the messages a submission builds with it |
| StreamingChatService.ChunkCount | lib/streaming-chat-service.ts:47-64 | the number of chunks delivered; StreamChatResponse states that there is exactly one either way |
| StreamingChatService.ErrorCount | lib/streaming-chat-service.ts:67-68 | the number of errors reported; StreamChatResponse states that it is one exactly when the route did not answer ok |
| SimpleChat.ReplyText | components/simple-chat.tsx:78-95 | the route's content, or the signed apology when the request threw; SubmitAppendsPair and ApologySigned state what is appended |
| SimpleChat.FallbackFlag | components/simple-chat.tsx:85 | the flag the route sent, false when missing, and true after a thrown request; SimpleChat.HandleSubmit and SubmitAppendsPair state the flag a submission leaves |
| SimpleChat.AfterSubmit | components/simple-chat.tsx:53-96 | the transcript plus the user message and the reply; SimpleChat.HandleSubmit and SubmitAppendsPair state that a submission produces it |
| StreamingChat.Welcome | components/streaming-chat.tsx:26-34 | the single assistant greeting a chat starts with; GreetingSigned, StreamingChat.constructor and StreamingChat.HandleNewChat state it |
| StreamingChat.AfterSubmit | components/streaming-chat.tsx:74-92 | the transcript plus the user message and its local reply; StreamingChat.HandleSubmit, StreamingChat.Submit, SubmitAppendsPair and RetryUndoesReply state it |
| QuizPage.OptionId | app/quiz/ai-character/page.tsx:66-275 | an option id is two characters: the question number and a letter |
| QuizPage.Bank | app/quiz/ai-character/page.tsx:66-275 | question `k` has id `k + 1` and four options with ids "1a".."8d" and the weights of the source, in order |
| QuizPage.Questions | app/quiz/ai-character/page.tsx:66-275 | the bank holds exactly the eight questions, in order |
| QuizPage.BankShape | app/quiz/ai-character/page.tsx:66-275 | every option carries exactly one weight of 3, and every other weight is 0 or 1 |
| QuizPage.FindQuestion | app/quiz/ai-character/page.tsx:392 | a found question is in the bank with the id; none is found exactly when no question has the id |
| QuizPage.FindQuestionFirst | app/quiz/ai-character/page.tsx:392 | the first question with the id is the one found |
| QuizPage.FindChoice | app/quiz/ai-character/page.tsx:393 | a found option belongs to the question and has the id; none is found exactly when no option has it |
| QuizPage.FindChoiceFirst | app/quiz/ai-character/page.tsx:393 | the first option with the id is the one found |
| QuizPage.FoldAppend | app/quiz/ai-character/page.tsx:395-403 | the scores after one more answer are the earlier scores plus that answer's weights |
| QuizPage.ReanswerAddsAgain | app/quiz/ai-character/page.tsx:395-403 | answering the same option twice adds its weights twice: scores are never recomputed from the answers |
| QuizPage.ResultsDistinct | app/quiz/ai-character/page.tsx:323-356 | different traits show different result cards |
| QuizPage.CalculateResult | app/quiz/ai-character/page.tsx:414-432 | the card of the first trait, in key order, whose score is the maximum |
| QuizPage.ValidationError | app/quiz/ai-character/page.tsx:452-468 | no error exactly when name, interests, communication and strengths are all given; otherwise the message of the first missing one, in that order |
| QuizPage.Without | app/quiz/ai-character/page.tsx:437 | exactly the other values remain; a list without the value is kept as it is |
| QuizPage.WithoutAppend | app/quiz/ai-character/page.tsx:437 | removing a value from a concatenation removes it from each part |
| QuizPage.Toggle | app/quiz/ai-character/page.tsx:434-450 | the value is present afterwards exactly when it was absent; every other value keeps its presence |
| QuizPage.WithoutNoDuplicates | app/quiz/ai-character/page.tsx:437 | removing a value keeps a duplicate-free list duplicate-free |
| QuizPage.ToggleTwice | app/quiz/ai-character/page.tsx:434-450 | toggling keeps a list duplicate-free; toggling twice restores a list that lacked the value and moves a present value to the end |
| QuizPage.AICharacterQuizPage.constructor | app/quiz/ai-character/page.tsx:359-376 | every field starts at its initial value |
| QuizPage.AICharacterQuizPage.HandleAnswer | app/quiz/ai-character/page.tsx:387-412 | the answer is recorded and its weights added; before the last question the page advances; on the last it shows the result of the scores from before this answer and moves to the personal-info stage |
| QuizPage.ChosenWeights | app/quiz/ai-character/page.tsx:391-395 | the weights of the option found by id inside the question found by id; none when either lookup fails |
| QuizPage.AICharacterQuizPage.HandleInterestChange | app/quiz/ai-character/page.tsx:434-441 | only the interests change, by the toggle |
| QuizPage.AICharacterQuizPage.HandleStrengthChange | app/quiz/ai-character/page.tsx:443-450 | only the strengths change, by the toggle |
| QuizPage.AICharacterQuizPage.HandlePersonalInfoSubmit | app/quiz/ai-character/page.tsx:452-496 | the first failing check sets its message and changes nothing else; a generated persona shows the result stage and is stored with the reduce-chosen dominant trait; a failed generation sets the failure message and returns to the personal-info stage; answers and scores are kept |
| QuizPage.AICharacterQuizPage.ResetQuiz | app/quiz/ai-character/page.tsx:537-552 | every field is back at its initial value |
| QuizPage.StaleResultIgnoresLastAnswer | app/quiz/ai-character/page.tsx:406-410 | after 1a, 2a, 3a, 4c, 5c, 6c, 7c and then 8a the page shows the Social card while the scores including 8a make it the Analytical card |
| QuizPage.SevenAnswersScores | app/quiz/ai-character/page.tsx:395-403 | the trace's first seven answers leave the scores {9, 1, 12, 2} |
| QuizPage.TraceWeights | app/quiz/ai-character/page.tsx:66-275 | the weights of the eight answers of the trace, as the bank gives them |
| QuizPage.FoldCons | app/quiz/ai-character/page.tsx:395-403 | a run of answers is its first answer followed by the rest |
| QuizPage.WeightsOf | app/quiz/ai-character/page.tsx:392-403 | answering option `c` of question `k` adds exactly that option's weights |
| QuizPage.CorrectedResult | app/quiz/ai-character/page.tsx:414-432 | the card of the first maximal trait of the scores that include the last answer |
| QuizPage.CorrectedResultOfRun | app/quiz/ai-character/page.tsx:395-410 | the corrected result is the result of the scores the whole run of answers leaves |
| QuizPage.OptionWeights | app/quiz/ai-character/page.tsx:66-275 | the weights of each option of each question, in source order; Bank, BankShape and WeightsOf state what they are and that each option adds them |
| QuizPage.WellWeighted | app/quiz/ai-character/page.tsx:66-275 | exactly one weight of 3 and every other 0 or 1; BankShape states that every option is so weighted |
| QuizPage.Weights | app/quiz/ai-character/page.tsx:391-395 | the weights of the option found by id in the question found by id; ChosenWeights, WeightsOf and TraceWeights state what it finds |
| QuizPage.Tally | app/quiz/ai-character/page.tsx:395-403 | one answer adds its option's weights, an unknown one nothing; FoldAppend, ReanswerAddsAgain and AICharacterQuizPage.HandleAnswer state it |
| QuizPage.Fold | app/quiz/ai-character/page.tsx:395-403 | the scores after a run of answers; FoldAppend, FoldCons, SevenAnswersScores and StaleResultIgnoresLastAnswer state what it gives |
| QuizPage.ResultFor | app/quiz/ai-character/page.tsx:276-356 | the result card of each trait; ResultsDistinct states that the cards differ, CalculateResult and CorrectedResult which card is shown |
| QuizPage.NoDuplicates | app/quiz/ai-character/page.tsx:434-450 | no value is listed twice; WithoutNoDuplicates and ToggleTwice state that the checkbox toggles keep it |
| PersonaService.Ids | lib/persona-service.ts:72 | the members of the recent set, in ascending score order |
| PersonaService.Drop | lib/persona-service.ts:50 | exactly the entries of other members remain, and the score order is kept |
| PersonaService.ZAdd | lib/persona-service.ts:50 | the set stays in score order and grows by at most one member |
| PersonaService.ZAddMembers | lib/persona-service.ts:50 | after the `zadd` the member is in the set with the new score and no other; every other entry is kept |
| PersonaService.Trim | lib/persona-service.ts:53-56 | a set of more than 20 members keeps exactly its last 20; a smaller one is kept whole |
| PersonaService.TrimKeepsNewest | lib/persona-service.ts:53-56 | trimming keeps the set in score order and removes only entries no newer than every kept one |
| PersonaService.InsertNewest | lib/persona-service.ts:50 | an entry newer than every member goes last |
| PersonaService.LatestSaveKept | lib/persona-service.ts:49-56 | a save later than every recorded one ends the trimmed recent set |
| PersonaService.SaveTwice | lib/persona-service.ts:32-47 | saving one persona twice stores two distinct records with the same content and counts its trait twice |
| PersonaService.Found | lib/persona-service.ts:77-84 | each found record is the stored record of a listed id; when every id has a record there is one per id |
| PersonaService.FoundAppend | lib/persona-service.ts:79-82 | one more id adds its record at the end, or nothing when it has none |
| PersonaService.Saved | lib/persona-service.ts:36-41 | the stored record is the input with the new id, the argument's trait and the timestamp, every other field kept |
| PersonaService.Incr | lib/persona-service.ts:47 | the counter rises by one from its old value, 0 when missing; every other counter is kept |
| PersonaService.Report | lib/persona-service.ts:88-96 | each reported trait is its counter, 0 when missing |
| PersonaService.UnreportedKeys | lib/persona-service.ts:47 | counting a trait name outside the four changes nothing that is reported |
| PersonaService.IncrTraitReport | lib/persona-service.ts:47 | counting a trait raises exactly its reported score, by one |
| PersonaService.RecentStored | lib/persona-service.ts:44-56 | after a save the trimmed recent set is still in score order and every member of it has a stored record |
| PersonaService.PersonaCache.CountTrait | lib/persona-service.ts:47 | the trait's counter is incremented and neither the records nor the recent set change |
| PersonaService.PersonaCache.constructor | lib/persona-service.ts:26-29 | an empty cache: no records, no counters, an empty recent set |
| PersonaService.PersonaCache.SavePersona | lib/persona-service.ts:32-59 | each command takes effect exactly when the save has not thrown before it: the record under the fresh id after the `hset`, the trait counted after the `hincrby`, the id added with its timestamp after the `zadd`, the set trimmed to 20 after the `zremrangebyrank`; the id is answered exactly when nothing throws, a failing trim counting only when the set grew past 20; an answered save leaves at most 20 members |
| PersonaService.PersonaCache.StoreRecord | lib/persona-service.ts:44 | only the record under the id changes |
| PersonaService.PersonaCache.RecordRecent | lib/persona-service.ts:50-56 | the `zadd`, `zcard` and `zremrangebyrank` take effect in order up to the one that throws; it throws at the trim only when the set has more than 20 members |
| PersonaService.PersonaCache.CountAndTrim | lib/persona-service.ts:53-56 | the `zcard` and the trim it guards: it throws at the `zcard`, or at the trim only when the count is over 20; only an uninterrupted run trims the set |
| PersonaService.UnthrownSaveIsTrimmed | lib/persona-service.ts:50-56 | a save that does not throw leaves the trimmed set, of at most 20 members, whether or not the trim was sent |
| PersonaService.PersonaCache.AddRecent | lib/persona-service.ts:50 | the id is (re)added with its timestamp, keeping score order; records and counters are untouched |
| PersonaService.PersonaCache.TrimRecent | lib/persona-service.ts:53-56 | the set is cut to its 20 highest ranks; records and counters are untouched |
| PersonaService.PersonaCache.PersonaById | lib/persona-service.ts:62-67 | the stored record, or none exactly when the id has no record |
| PersonaService.PersonaCache.PersonaStats | lib/persona-service.ts:88-96 | the four counters, 0 for a trait never counted |
| PersonaService.PersonaCache.GetRecentPersonas | lib/persona-service.ts:70-85 | the records of the window's ids in window order; every member of the set has a record, so none is skipped |
| DbPersonaService.InsertKeepsUnique | lib/db-persona-service.ts:42 | inserting a row the unique index accepts keeps external ids unique |
| DbPersonaService.NewRow | lib/db-persona-service.ts:79-108 | the inserted row carries the persona's fields, its id as external id, the image URL or null without one, the trait, and no user |
| DbPersonaService.SetImage | lib/db-persona-service.ts:118-135 | rows with the external id get the new image url; every other row is kept |
| DbPersonaService.SetImageOnlyImage | lib/db-persona-service.ts:123-126 | only `image_url` changes: uniqueness and every other column survive, and an unknown id changes nothing |
| DbPersonaService.FindByExternalId | lib/db-persona-service.ts:137-154 | none exactly when no row has the external id; otherwise a row with it |
| DbPersonaService.FindInserted | lib/db-persona-service.ts:137-148 | a row just inserted under an unused external id is the one found |
| DbPersonaService.RecentRows | lib/db-persona-service.ts:156-168 | exactly the smaller of `limit` and the number of rows, stored rows newest first; all of them when there are no more than `limit` |
| DbPersonaService.RecentRowsKeepsNewest | lib/db-persona-service.ts:160-165 | the rows returned are among the stored ones, and every row left out was created no later than every row returned |
| DbPersonaService.CountTrait | lib/db-persona-service.ts:213-216 | a count is at most the number of rows, and 0 exactly when no row has the trait |
| DbPersonaService.CountTraitAppend | lib/db-persona-service.ts:213-216 | one more row adds one to its trait's count only |
| DbPersonaService.DbStats | lib/db-persona-service.ts:202-227 | one count per trait |
| DbPersonaService.DbStatsAfterInsert | lib/db-persona-service.ts:84-110 | inserting a persona raises its trait's count by one and no other |
| DbPersonaService.PersonaDb.constructor | lib/db-persona-service.ts:27-34 | a database with neither table and no rows |
| DbPersonaService.PersonaDb.EnsureTablesExist | lib/db-persona-service.ts:22-76 | on success `ai_personas` exists; both tables are created only when `ai_personas` was missing, so a missing `quiz_results` stays missing otherwise; rows are untouched |
| DbPersonaService.PersonaDb.SavePersonaToDb | lib/db-persona-service.ts:79-116 | a row, created at the database clock, is appended and its serial id returned exactly when both steps succeed and the external id is unused; otherwise no row is added |
| DbPersonaService.PersonaDb.UpdatePersonaImage | lib/db-persona-service.ts:118-135 | on success only the matching rows' image url changes; a failure changes nothing |
| DbPersonaService.PersonaDb.GetPersonaByExternalId | lib/db-persona-service.ts:137-154 | the lookup above, or a thrown error exactly when a step fails |
| DbPersonaService.PersonaDb.GetRecentPersonasFromDb | lib/db-persona-service.ts:156-174 | the newest rows above, or a thrown error exactly when a step fails |
| DbPersonaService.PersonaDb.SaveQuizResult | lib/db-persona-service.ts:176-200 | a row with a null user id is appended exactly when both steps succeed and `quiz_results` exists, or is created by this call |
| DbPersonaService.PersonaDb.GetPersonaStatsFromDb | lib/db-persona-service.ts:202-228 | the per-trait counts; zeros when the query throws; a thrown error exactly when the schema step fails |
| PersonaActions.FallbackIdPrefix | app/quiz/actions/persona-actions.ts:26 | a fallback id starts with "local-" and is longer than it |
| PersonaActions.FallbackIdClock | app/quiz/actions/persona-actions.ts:26 | the digits after "local-" give back the millisecond clock |
| PersonaActions.FallbackIdsDistinct | app/quiz/actions/persona-actions.ts:26 | fallback ids made at different milliseconds differ whatever the random text |
| PersonaActions.ReadImage | app/quiz/actions/persona-actions.ts:92 | an image url is read back exactly when it is non-empty |
| PersonaActions.FromRow | app/quiz/actions/persona-actions.ts:82-95 | the persona built from a row has its external id as id and every other field read back |
| PersonaActions.FromRows | app/quiz/actions/persona-actions.ts:82-95 | one persona per row, in order |
| PersonaActions.RowReadsBackAsCached | app/quiz/actions/persona-actions.ts:22-31 | the database copy read back equals the cached record of the same save except that an empty image url is dropped and the creation time is the database clock's; when the two clocks agree and the url is not empty, the copies are equal |
| PersonaActions.AnyPositiveIffNonZero | app/quiz/actions/persona-actions.ts:123 | some counter is positive exactly when the counters are not all zero |
| PersonaActions.OnLoad | app/quiz/actions/persona-actions.ts:13-15 | the load-time schema step creates `ai_personas` unless it fails, and no row changes |
| PersonaActions.StorePersona | app/quiz/actions/persona-actions.ts:17-46 | the id is the fresh one exactly when the cache save did not throw, else a `local-` fallback from a later clock reading; the cache keeps every command that ran before a throw; the database row is stored under the chosen id with the database's own timestamp, and a database failure still succeeds with the cache-only warning |
| PersonaActions.CacheSave | app/quiz/actions/persona-actions.ts:19-27 | the cache save's effects command by command, and the fresh id exactly when the save did not throw, else the non-empty `local-` fallback |
| PersonaActions.StoreRow | app/quiz/actions/persona-actions.ts:29-40 | the database insert under the chosen id: when the setup and insert succeed and the id is new, the row is appended and no warning is given; otherwise the table is unchanged and the answer carries the cache-only warning |
| PersonaActions.LateCacheFailureSplitsIds | app/quiz/actions/persona-actions.ts:20-31 | a cache save that throws after its `hset` has stored the record under the fresh id, yet the database row gets a different, `local-` id |
| PersonaActions.UpdatePersonaImageUrl | app/quiz/actions/persona-actions.ts:48-58 | success exactly when the database update succeeded, which changes only the database copy |
| PersonaActions.FetchRecentPersonas | app/quiz/actions/persona-actions.ts:60-107 | failure exactly when the first schema step throws; a non-empty cache answer wins; otherwise the newest database rows, or `[]` with a warning when the database fails |
| PersonaActions.CachedStats | app/quiz/actions/persona-actions.ts:115-120 | the cache counters, or zeros when it threw: never negative |
| PersonaActions.FetchPersonaStats | app/quiz/actions/persona-actions.ts:109-144 | failure exactly when the first schema step throws; cache counters win when one is positive; otherwise the database counts, or zeros |
| PersonaActions.StatsFallbackOnlyWhenCacheEmpty | app/quiz/actions/persona-actions.ts:115-125 | the database is asked exactly when the cache failed or every cached counter is zero |
| PersonaService.Ascending | lib/persona-service.ts:50 | the sorted set's order, ascending by score; Drop, ZAdd, ZAddMembers and TrimKeepsNewest state that every update keeps it |
| PersonaService.Count | lib/persona-service.ts:47 | a counter of the statistics hash, 0 when missing; Incr, Report and SaveTwice state how it moves |
| PersonaService.Completed | lib/persona-service.ts:44-56 | the commands run in order, so one took effect exactly when the save threw at a later one or not at all; PersonaCache.SavePersona and UnthrownSaveIsTrimmed state its effects |
| PersonaService.SaveThrows | lib/persona-service.ts:44-56 | the save throws at any command but the trim, and at the trim only when more than 20 members make it run; PersonaCache.SavePersona and PersonaCache.RecordRecent state when |
| PersonaService.RecentAfter | lib/persona-service.ts:50-56 | the recent set after a save that throws where it throws: untouched before the `zadd`, with the id added after it and trimmed after the trim; PersonaCache.SavePersona and PersonaCache.RecordRecent state it and ZAddMembers and TrimKeepsNewest what it holds |
| PersonaActions.FallbackId | app/quiz/actions/persona-actions.ts:26 | the id `local-<ms>-<random>` of a refused cache save; FallbackIdPrefix, FallbackIdClock and FallbackIdsDistinct state its shape, what it encodes and that it differs across times |
| PersonaActions.AnyPositive | app/quiz/actions/persona-actions.ts:123 | some counter is above 0; AnyPositiveIffNonZero and StatsFallbackOnlyWhenCacheEmpty state when the database is asked instead |
| PersonaActions.CachedRecent | app/quiz/actions/persona-actions.ts:65-71 | the cache step's records, `[]` when it threw; FetchRecentPersonas states when the database answers instead |
| ActionUtils.WithoutArticle | lib/action-utils.ts:113 | exactly the articles with other ids remain |
| ActionUtils.WithoutArticleKeepsOrder | lib/action-utils.ts:113 | removal works piece by piece over concatenation, keeping an article exactly when its id differs, so the survivors stay in their order |
| ActionUtils.RemoveUndoesSave | lib/action-utils.ts:39-148 | removing an article just saved gives back the list from before the save |
| ActionUtils.RemoveKeepsUnique | lib/action-utils.ts:113 | removal keeps ids unique and changes nothing on a list without the id |
| ActionUtils.EditionTarget | lib/action-utils.ts:219-227 | NaN stays NaN; a step back never goes below edition 1 nor above the start, and is exactly one back from above edition 1; a step forward never goes above edition 10 nor more than one ahead, and is exactly one ahead from below edition 10; any integer, negative ones included, is accepted |
| ActionUtils.EditionNumberAfterPrefix | lib/action-utils.ts:219 | the first `edition-` is removed and the rest read the way `Number.parseInt` with no radix reads it |
| ActionUtils.EditionIdRoundTrip | lib/action-utils.ts:219-230 | the id of any edition number `n`, negative ones included, parses back to `n`, and the move goes to that edition's page |
| ActionUtils.SpacedIdReads | lib/action-utils.ts:219 | white space between the prefix and the digits is skipped |
| ActionUtils.SignedIdReads | lib/action-utils.ts:219 | a minus sign after the prefix makes the number negative |
| ActionUtils.HexIdReads | lib/action-utils.ts:219 | a `0x` after the prefix reads the digits in base 16 |
| ActionUtils.MinusZero | lib/action-utils.ts:219 | `-0` reads as zero |
| ActionUtils.NavigationInRange | lib/action-utils.ts:219-238 | inside 1..10 a step moves exactly when it is not at the end it points to, lands on the neighbour, and a step back undoes a step forward |
| ActionUtils.BelowRangeNavigates | lib/action-utils.ts:219-231 | below edition 1 a step back lands on edition 1 and a step forward on the next number, and both move |
| ActionUtils.UnparsableIdNavigates | lib/action-utils.ts:219-231 | an id that does not parse as a number after the prefix still moves, to `edition-NaN` |
| ActionUtils.LatestIsNaN | lib/action-utils.ts:219-222 | the id "latest" does not parse as an edition number |
| ActionUtils.FindIndex | lib/action-utils.ts:253 | `findIndex`: the first index whose element satisfies the test, or -1 exactly when none does |
| ActionUtils.Toggled | lib/action-utils.ts:253-272 | a present item is spliced out, shortening the list by one; an absent one is pushed at the end |
| ActionUtils.ToggleRemovesFirstMatch | lib/action-utils.ts:253-258 | on a present item exactly the first entry with its id is cut out, the entries before and after it kept in order |
| ActionUtils.ToggleList | lib/action-utils.ts:253-271 | the find, then the splice or the push, compute the toggled list |
| ActionUtils.ToggleFlips | lib/action-utils.ts:253-272 | toggling flips whether the item is a favorite, keeps every other item's status and keeps ids unique |
| ActionUtils.SpliceFavorite | lib/action-utils.ts:255-257 | splicing the found entry out of a unique list removes its id, keeps every other id and keeps ids unique |
| ActionUtils.PushFavorite | lib/action-utils.ts:264-270 | pushing an entry with a new id adds exactly that id and keeps ids unique |
| ActionUtils.ToggleTwiceRestores | lib/action-utils.ts:253-272 | favoriting an absent item and toggling it again gives back the list |
| ActionUtils.ChatTitlesDistinct | lib/action-utils.ts:399-407 | different counts give different default chat titles |
| ActionUtils.SavedChats | lib/action-utils.ts:392-410 | a saved session is rewritten in place; otherwise a new entry titled after the new length is pushed |
| ActionUtils.SaveChatKeepsOnePerSession | lib/action-utils.ts:392-410 | saving keeps one entry per session holding the latest messages, leaves every other entry and keeps a non-empty title |
| ActionUtils.Browser.constructor | lib/action-utils.ts:42 | empty storage on the given page |
| ActionUtils.Browser.SaveArticle | lib/action-utils.ts:39-93 | an unsaved id is pushed with its title and time and the answer is true; a saved one changes nothing and answers false |
| ActionUtils.Browser.GetSavedArticles | lib/action-utils.ts:96-104 | `[]` on the server, otherwise the stored list |
| ActionUtils.Browser.RemoveSavedArticle | lib/action-utils.ts:107-148 | every entry with the id is dropped, nothing else changes, and the answer is true |
| ActionUtils.Browser.NavigateEditions | lib/action-utils.ts:215-239 | the page goes to the clamped neighbour and the answer is true exactly when the target differs from the current number; otherwise it stays and answers false |
| ActionUtils.Browser.ToggleFavorite | lib/action-utils.ts:242-305 | only the item type's list changes, by the toggle |
| ActionUtils.Browser.IsFavorited | lib/action-utils.ts:308-318 | true exactly when the type's list holds the id |
| ActionUtils.Browser.ClearChat | lib/action-utils.ts:341-369 | the session's transcript, or `currentChat` without a session, is removed and the page reloads once |
| ActionUtils.Browser.SaveChat | lib/action-utils.ts:371-428 | a session without messages is refused; otherwise its transcript is saved as above |
| ActionUtils.ClearedChatNotSaved | lib/action-utils.ts:341-385 | after clearing a session, saving it finds no messages |
| ActionUtils.HasArticle | lib/action-utils.ts:45 | the `some` test: an entry with the id is saved; SaveArticle answers by it and RemoveSavedArticle clears it |
| ActionUtils.OtherThan | lib/action-utils.ts:113 | the filter's test, keeping exactly the other ids; WithoutArticle and WithoutArticleKeepsOrder state what it keeps |
| ActionUtils.EditionNumber | lib/action-utils.ts:219 | the edition number read after removing the first `edition-`, `None` standing for NaN; EditionNumberAfterPrefix, EditionIdRoundTrip, SpacedIdReads, SignedIdReads, HexIdReads and LatestIsNaN state how it reads |
| ActionUtils.Moves | lib/action-utils.ts:229 | `targetEdition !== editionNumber`, where NaN differs from everything; NavigationInRange, BelowRangeNavigates and UnparsableIdNavigates state when a step moves |
| ActionUtils.EditionHref | lib/action-utils.ts:230 | the page a move goes to, `edition-NaN` for NaN; EditionIdRoundTrip and UnparsableIdNavigates state where it lands |
| ActionUtils.EditionId | lib/action-utils.ts:219 | the edition id of page `n`; EditionIdRoundTrip states that EditionNumber reads it back |
| ActionUtils.HasFavorite | lib/action-utils.ts:313 | the `some` test on a type's list; IsFavorited answers by it and ToggleFlips states that a toggle flips it |
| ActionUtils.FavoriteIs | lib/action-utils.ts:253 | the `findIndex` test on the item id; FindIndex and ToggleRemovesFirstMatch state what it finds |
| ActionUtils.ListOf | lib/action-utils.ts:248-249 | a type's list, empty when the type is missing; ToggleFavorite states that only this list changes |
| ActionUtils.ChatKey | lib/action-utils.ts:349 | the storage key `chat-<session>` of a transcript; ClearChat and ClearedChatNotSaved state that clearing removes it |
| ActionUtils.ChatTitle | lib/action-utils.ts:399-407 | the default title `Chat <n>`; ChatTitlesDistinct states that distinct counts give distinct titles |
| ActionUtils.SessionIdFor | lib/action-utils.ts:375 | the `session` URL parameter when truthy, else `session-<now>`; SaveChat and ClearedChatNotSaved use it |
| ActionUtils.StoredMessages | lib/action-utils.ts:378 | a stored transcript, empty when the key is missing; SaveChat refuses a session for which it is empty |
| ActionUtils.HasChat | lib/action-utils.ts:392 | the `some` test on saved chats; SavedChats and SaveChatKeepsOnePerSession state the two branches it selects |
| ActionUtils.ChatIs | lib/action-utils.ts:394 | the `findIndex` test on the session id; SavedChats states that the found entry is rewritten in place |
| SubscriptionService.FindUser | lib/subscription-service.ts:26-28 | none exactly when no user has the email; otherwise a row with that email |
| SubscriptionService.WithUser | lib/subscription-service.ts:32-40 | a known email leaves the users as they are; a new one appends exactly one row |
| SubscriptionService.GetOrCreateUser | lib/subscription-service.ts:25-40 | the get-or-create step keeps emails unique, and the chosen id belongs to the row holding the email afterwards |
| SubscriptionService.FindAppended | lib/subscription-service.ts:34-37 | a user just inserted under a new email is the one found |
| SubscriptionService.SecondSubscriptionReusesUser | lib/subscription-service.ts:25-40 | a second subscription under the same email creates no user and reuses the first one's id |
| SubscriptionService.ActiveSubscription | lib/subscription-service.ts:69-74 | none exactly when the user has no active, unexpired subscription; otherwise the one created last |
| SubscriptionService.Cancelled | lib/subscription-service.ts:86-90 | the rows with the id become inactive with `updated_at` now; every other row is kept |
| SubscriptionService.CancelledNotActive | lib/subscription-service.ts:68-98 | a cancelled subscription is never the active one afterwards, and cancelling one that was not active changes nothing visible |
| SubscriptionService.FilterCancelled | lib/subscription-service.ts:71-90 | cancelling inactive rows leaves the active ones as they were |
| SubscriptionService.CommitConsistent | lib/subscription-service.ts:22-58 | a committed transaction keeps emails unique, ids drawn from the serials and every subscription's user present |
| SubscriptionService.SubscriptionDb.constructor | lib/subscription-service.ts:1 | empty `users` and `subscriptions` tables |
| SubscriptionService.SubscriptionDb.CreateSubscription | lib/subscription-service.ts:14-66 | the transaction commits exactly when no step it reaches fails; then the user is found or created, an active subscription ending 365 or 366 days on is appended, it is active for the user at creation (so `ActiveAfterInsert` applies to the new table); a rollback leaves both tables unchanged |
| SubscriptionService.SubscriptionDb.SelectOrInsertUser | lib/subscription-service.ts:25-40 | the user's existing id, or a new row under the next serial, which is then consumed; a failed insert throws only when the user is missing; the committed tables are unchanged |
| SubscriptionService.ActiveUntilEndDate | lib/subscription-service.ts:71 | an active subscription with an end date counts at exactly the times before that date |
| SubscriptionService.ActiveAfterInsert | lib/subscription-service.ts:69-74 | after inserting a row active for its user, the user's query answers a subscription created no earlier than it; with `CreateSubscription`'s ensures this is the state a committed subscription leaves |
| SubscriptionService.SerialsAdvanced | lib/subscription-service.ts:59-61 | a rollback that has consumed serial values keeps the tables consistent |
| SubscriptionService.SubscriptionDb.GetActiveSubscription | lib/subscription-service.ts:68-83 | the newest active subscription of the user, or a thrown error exactly when the query failed |
| SubscriptionService.SubscriptionDb.CancelSubscription | lib/subscription-service.ts:85-98 | on success only the subscription with that id is deactivated; a failure changes nothing |
| SubscriptionForm.ErrorFor | components/subscription-form.tsx:35-46 | no message exactly when the action succeeded; the action's own error when it gave one; every message is non-empty |
| SubscriptionForm.SubscriptionFormState.constructor | components/subscription-form.tsx:14-19 | empty name and email, type "digital", not submitting, no error, no success |
| SubscriptionForm.SubscriptionFormState.SetFields | components/subscription-form.tsx:81-93 | the fields take the typed values; nothing else changes |
| SubscriptionForm.SubscriptionFormState.HandleSubmit | components/subscription-form.tsx:21-50 | an empty field shows the missing-fields message and sends nothing; otherwise the request is sent, submitting ends, the message follows the reply, and only a success resets the form |
| SubscriptionForm.SubscriptionFormState.SubscribeAnother | components/subscription-form.tsx:67-68 | the success view is left; nothing else changes |
| SubscriptionService.UniqueEmails | lib/subscription-service.ts:26-37 | one user per email, which the select-or-insert keeps; GetOrCreateUser and CommitConsistent state it |
| SubscriptionService.UserIdFor | lib/subscription-service.ts:25-40 | the existing user's id or the new one's; GetOrCreateUser, SecondSubscriptionReusesUser and SubscriptionDb.CreateSubscription state it |
| SubscriptionService.ActiveFor | lib/subscription-service.ts:71 | active and not yet ended for the user; ActiveUntilEndDate, ActiveAfterInsert, ActiveSubscription and CancelledNotActive state what it selects |
| SubscriptionService.OneYearOn | lib/subscription-service.ts:43-44 | the end date is one calendar year on, 365 or 366 days; SubscriptionDb.CreateSubscription states it of a new row |
| SubscriptionService.Consistent | lib/subscription-service.ts:22-58 | unique emails, ids below their serials and every subscription's user present; CommitConsistent and SerialsAdvanced state that transactions keep it |
| SubscriptionForm.Filled | components/subscription-form.tsx:24 | name, email and type are all non-empty; SubscriptionFormState.HandleSubmit states that only then is the action called |
| Header.NavItems | components/header.tsx:51-57 | five items, Home at "/" first |
| Header.FindCurrent | components/header.tsx:61 | the index of the first item whose href is the path or a whole-segment prefix of it, or -1 exactly when none is |
| Header.CurrentPage | components/header.tsx:60-62 | one of the nav items; any item other than Home is current for the path |
| Header.PageActions | components/header.tsx:67-156 | every page has at least two actions |
| Header.HomeActionsOnlyAtRoot | components/header.tsx:139-155 | the home actions appear exactly on "/" |
| Header.ArticlePaths | components/header.tsx:61-89 | an article page is under Articles and gets the article actions; the article index gets the default actions |
| Header.NoPartialSegment | components/header.tsx:61-109 | a path extending "/chat" without a slash is not under Chat, so Home is current, yet it gets the chat actions |
| Header.Header.constructor | components/header.tsx:36-38 | both panels closed and scroll position 0 |
| Header.Header.ToggleMenu | components/header.tsx:266-269 | the menu flips and the page actions close |
| Header.Header.TogglePageActions | components/header.tsx:239-242 | the page actions flip and the menu closes |
| Header.Header.RunPageAction | components/header.tsx:175-178 | running an action closes the page actions and keeps the rest |
| Header.Header.FollowLink | components/header.tsx:205-219 | following a link closes the menu and keeps the rest |
| Header.Header.Scroll | components/header.tsx:41-47 | the scroll position becomes the window's, so the back-to-top button shows exactly when it is past 300; the panels are kept |
| Header.Header.SecondaryVisible | components/header.tsx:228-245 | the secondary button shows exactly while the menu is closed |
| Header.IsCurrent | components/header.tsx:61 | an item is current when its href is the path or a whole-segment prefix of it; FindCurrent, CurrentPage and NoPartialSegment state what it selects |
| Header.ShowSubscribe | components/header.tsx:64 | the subscribe button shows on "/", "/articles" and "/editions"; SubscribeOnNavPages states what those pages have in common |
| Header.SubscribeOnNavPages | components/header.tsx:60-64 | wherever the subscribe button shows, the current nav item is the one naming the path exactly, and no article or edition page below an index gets the button |
| Header.Header.BackToTopVisible | components/header.tsx:280 | the back-to-top button shows once the scroll position passes 300; Header.Scroll states that it follows the window |
| Header.ExactItemCurrent | components/header.tsx:61 | an item whose href is the path, with no current item before it, is the current page |
| Header.RootIsHome | components/header.tsx:61-64 | on "/" Home is the current page and no index prefix matches |
| Header.ArticlesIndexIsArticles | components/header.tsx:61-69 | on "/articles" Articles is the current page and neither the article prefix nor the edition prefix matches |
| Header.EditionsIndexIsEditions | components/header.tsx:61-90 | on "/editions" Editions is the current page and neither the article prefix nor the edition prefix matches |
| GameImageGenerator.ChannelOf | components/game-image-generator.tsx:636-638 | a channel read from two hex digits is below 256 |
| GameImageGenerator.SplitColor | components/game-image-generator.tsx:636-638 | the three substrings `shadeColor` reads are the pairs after the `#`, and with it they make the whole colour |
| GameImageGenerator.Shade | components/game-image-generator.tsx:640-650 | a shaded channel always lies in 0..255, and an unparsable (NaN) channel ends as 255 |
| GameImageGenerator.ShadeMeaning | components/game-image-generator.tsx:640-650 | a shaded channel is the floor of `c * (100 + percent) / 100` when that falls inside 0..255; it is 0 exactly when the product is below 100 and 255 exactly when it reaches 25500 |
| GameImageGenerator.HexOf | components/game-image-generator.tsx:652-656 | three channels in range are written as a lowercase `#rrggbb` colour |
| GameImageGenerator.HexOfChannels | components/game-image-generator.tsx:652-656 | the written colour's three digit pairs are the channels' two-digit hex forms, in order |
| GameImageGenerator.Shaded | components/game-image-generator.tsx:635-657 | `shadeColor` always returns a lowercase `#rrggbb` colour, whatever its input |
| GameImageGenerator.ShadedChannels | components/game-image-generator.tsx:635-657 | each channel of the result is the shaded channel of the input |
| GameImageGenerator.ShadeColor | components/game-image-generator.tsx:635-657 | the step-by-step reassignment of R, G and B gives the colour `Shaded` describes |
| GameImageGenerator.CapAt255 | components/game-image-generator.tsx:644-646 | the cap turns every channel, NaN included, into a number at most 255 |
| GameImageGenerator.Hex2OfDigits | components/game-image-generator.tsx:652-654 | two lowercase hex digits are written back unchanged after parsing |
| GameImageGenerator.ShadeZero | components/game-image-generator.tsx:640-650 | shading by 0 leaves every channel in 0..255 unchanged |
| GameImageGenerator.NegativeShadeDarkens | components/game-image-generator.tsx:640-650 | a non-positive percentage never raises a channel |
| GameImageGenerator.PositiveShadeLightens | components/game-image-generator.tsx:640-650 | a non-negative percentage never lowers a channel |
| GameImageGenerator.HexColorChannel | components/game-image-generator.tsx:636-638 | each channel of a lowercase `#rrggbb` colour parses to its digit value, which writes back to the same two digits |
| GameImageGenerator.ShadeZeroKeepsColor | components/game-image-generator.tsx:635-657 | shading a lowercase `#rrggbb` colour by 0 returns the same colour |
| GameImageGenerator.HexOfChannelsOf | components/game-image-generator.tsx:652-656 | writing a colour's own channels gives the colour back |
| GameImageGenerator.DarkerShade | components/game-image-generator.tsx:635-657 | shading by a non-positive percentage never lightens any channel of a lowercase colour |
| GameImageGenerator.Background | components/game-image-generator.tsx:513-526 | every avatar background is a lowercase `#rrggbb` colour |
| GameImageGenerator.BackgroundsDistinct | components/game-image-generator.tsx:513-526 | two avatar numbers share a background exactly when they are equal or neither is 1, 2 or 3 |
| GameImageGenerator.GeneratePlayerAvatar | components/game-image-generator.tsx:508-530 | the side is the smaller of width and height; the gradient runs from the numbered background to that colour shaded by -30 |
| GameImageGenerator.AvatarEdgeDarker | components/game-image-generator.tsx:528-530 | the gradient's edge is no lighter than its centre in any channel |
| GameImageGenerator.IsHexColor | components/game-image-generator.tsx:652-656 | a lowercase `#rrggbb` colour, the form `shadeColor` writes; Shaded, HexColorChannel, HexOfChannelsOf and Background state which colours have it |
| GameImageGenerator.Channel | components/game-image-generator.tsx:636-638 | channel `k` read with `parseInt(color.substring(...), 16)`, `None` standing for NaN; HexColorChannel and ShadedChannels state what it reads |
| GameImageGenerator.Scale | components/game-image-generator.tsx:640-642 | the floor of `c * (100 + percent) / 100`, NaN kept; Shade and ShadeMeaning state its effect after the caps |
| GameImageGenerator.NoLighter | components/game-image-generator.tsx:528-530 | no channel of one colour is above the other's; DarkerShade and AvatarEdgeDarker state that a negative shade gives it |
| EnhancedEditionCard.LightIffWeighted | components/enhanced-edition-card.tsx:142-143 | on integer channels the brightness is above 155 exactly when `299r + 587g + 114b > 155000` |
| EnhancedEditionCard.RaisingKeepsLight | components/enhanced-edition-card.tsx:136-144 | raising channels never turns a light colour dark |
| EnhancedEditionCard.WhiteIsLight | components/enhanced-edition-card.tsx:136-144 | white counts as light |
| EnhancedEditionCard.BlackIsDark | components/enhanced-edition-card.tsx:136-144 | black counts as dark, and so does any colour with an unparsable channel |
| EnhancedEditionCard.ChannelsAfterHash | components/enhanced-edition-card.tsx:137-141 | for a seven-character colour starting with `#`, the three channels are parsed from the digit pairs after it |
| EnhancedEditionCard.HexColorLight | components/enhanced-edition-card.tsx:136-144 | for a `#rrggbb` colour of hex digits, `isLightColor` is the weighted test on the three pair values |
| EnhancedEditionCard.TextColor | components/enhanced-edition-card.tsx:77 | the button text is black exactly when the edition colour is light, white otherwise |
| EnhancedEditionCard.EditionCard.constructor | components/enhanced-edition-card.tsx:20 | the card starts collapsed |
| EnhancedEditionCard.EditionCard.Click | components/enhanced-edition-card.tsx:24-90 | the card expands; the backdrop and close button collapse; the content stops the click; only the talk button navigates, to the chat about the edition's title |
| EnhancedEditionCard.CardChannel | components/enhanced-edition-card.tsx:138-141 | channel `k` read in base 16 from the colour without its first `#`, `None` standing for NaN; ChannelsAfterHash states which digits it reads |
| EnhancedEditionCard.Brightness | components/enhanced-edition-card.tsx:142 | the weighted brightness `(299 r + 587 g + 114 b) / 1000`; LightIffWeighted states the test in integers |
| EnhancedEditionCard.IsLight | components/enhanced-edition-card.tsx:143 | brightness above 155, false when a channel is NaN; WhiteIsLight, BlackIsDark and RaisingKeepsLight state where it holds |
| EnhancedEditionCard.IsLightColor | components/enhanced-edition-card.tsx:136-144 | `isLightColor` of a colour string; HexColorLight states it for `#rrggbb` colours and TextColor how the button uses it |
| CloudServerCarousel.JsRem | app/articles/cloud-server/page.tsx:125-126 | JavaScript's `%`: in range for a non-negative dividend and Dafny's remainder there, non-positive for a negative one |
| CloudServerCarousel.StepsStayInRange | app/articles/cloud-server/page.tsx:125-126 | both arrows keep the slide index in range |
| CloudServerCarousel.PrevUndoesNext | app/articles/cloud-server/page.tsx:125-126 | each arrow undoes the other |
| CloudServerCarousel.NextStep | app/articles/cloud-server/page.tsx:125 | the next arrow moves one slide on, wrapping from the last to the first |
| CloudServerCarousel.PrevStep | app/articles/cloud-server/page.tsx:126 | the previous arrow moves one slide back, wrapping from the first to the last |
| CloudServerCarousel.NextsAdvance | app/articles/cloud-server/page.tsx:125 | k presses of the next arrow advance by k modulo the slide count |
| CloudServerCarousel.FullRound | app/articles/cloud-server/page.tsx:125 | as many presses as there are slides come back to the starting slide |
| CloudServerCarousel.Carousel.constructor | app/articles/cloud-server/page.tsx:123 | the carousel starts on the first slide |
| CloudServerCarousel.Carousel.Next | app/articles/cloud-server/page.tsx:125 | the next arrow sets the slide to the next index and keeps it in range |
| CloudServerCarousel.Carousel.Prev | app/articles/cloud-server/page.tsx:126 | the previous arrow sets the slide to the previous index and keeps it in range |
| CloudServerCarousel.Carousel.Dot | app/articles/cloud-server/page.tsx:166-171 | a dot shows its own slide |
| CloudServerCarousel.Carousel.ActiveDots | app/articles/cloud-server/page.tsx:166-171 | one dot per slide, and exactly the current one is active |
| CloudServerCarousel.NextIndex | app/articles/cloud-server/page.tsx:125 | `(current + 1) % items.length`; NextStep, StepsStayInRange and PrevUndoesNext state that it moves one slide on, wrapping, within range |
| CloudServerCarousel.PrevIndex | app/articles/cloud-server/page.tsx:126 | `(current - 1 + items.length) % items.length`; PrevStep, StepsStayInRange and PrevUndoesNext state that it moves one slide back, wrapping, within range |
| CloudServerCarousel.Nexts | app/articles/cloud-server/page.tsx:125 | k presses of the next arrow; NextsAdvance and FullRound state where they land |
| SeductionTips.Split | app/articles/seduction-tips/page.tsx:379 | `split(" ")` gives at least one piece and no piece holds a space |
| SeductionTips.JoinSplit | app/articles/seduction-tips/page.tsx:379 | joining the pieces with single spaces gives the code back |
| SeductionTips.SplitCount | app/articles/seduction-tips/page.tsx:379 | there is one more piece than there are spaces |
| SeductionTips.AnyIncluded | app/articles/seduction-tips/page.tsx:380 | a word is highlighted exactly when some phrase is contained in it |
| SeductionTips.Highlight | app/articles/seduction-tips/page.tsx:379-380 | one rendered piece per word of the code, in order, highlighted exactly when some phrase is contained in it |
| SeductionTips.PhraseWithSpaceNeverHighlights | app/articles/seduction-tips/page.tsx:379-380 | phrases that contain a space never highlight anything |
| SeductionTips.NoPhrasesNoHighlight | app/articles/seduction-tips/page.tsx:365 | the default empty phrase list highlights nothing |
| SeductionTips.ExactPhraseHighlights | app/articles/seduction-tips/page.tsx:379-380 | a word equal to a phrase is highlighted |
| SeductionTips.Toggle | app/articles/seduction-tips/page.tsx:582 | clicking card i makes it active exactly when it was not, and leaves none active otherwise |
| SeductionTips.ToggleTwice | app/articles/seduction-tips/page.tsx:582 | clicking the same card twice leaves none active unless it was active to begin with, in which case it is restored |
| SeductionTips.SeductionTipsPage.constructor | app/articles/seduction-tips/page.tsx:437 | no example card starts active |
| SeductionTips.SeductionTipsPage.ClickExample | app/articles/seduction-tips/page.tsx:581-582 | a click toggles the clicked card and no other card is active |
| SeductionTips.Join | app/articles/seduction-tips/page.tsx:379 | `join(" ")`; JoinSplit states that it undoes the split |
| SeductionTips.Spaces | app/articles/seduction-tips/page.tsx:379 | the number of spaces; SplitCount states that there is one more piece |
| SeductionTips.SeductionTipsPage.IsActive | app/articles/seduction-tips/page.tsx:582 | the card at the index is the active one; SeductionTipsPage.ClickExample and Toggle state how a click moves it |
| GenerateGameImages.ImageKey | app/generate-game-images/page.tsx:45 | the key of a non-avatar image is its type name |
| GenerateGameImages.Size | app/generate-game-images/page.tsx:59-60 | characters and avatars are square, the others not |
| GenerateGameImages.GenerateImage | app/generate-game-images/page.tsx:41-65 | a generator gets the image's key and the size for its type |
| GenerateGameImages.After | app/generate-game-images/page.tsx:33 | there is a text after the dash exactly when the name has a dash |
| GenerateGameImages.Before | app/generate-game-images/page.tsx:33 | the piece before the next dash holds no dash, and is all of the text when there is none |
| GenerateGameImages.AvatarKeyRoundTrip | app/generate-game-images/page.tsx:32-34 | the number parsed from an avatar's key is that avatar's number |
| GenerateGameImages.AvatarNameRequest | app/generate-game-images/page.tsx:32-34 | an avatar's key names that avatar's generator |
| GenerateGameImages.TypeNameRequest | app/generate-game-images/page.tsx:35-37 | a non-avatar type's name asks for that type's generator |
| GenerateGameImages.KeysDistinct | app/generate-game-images/page.tsx:45 | two generators share a key exactly when they draw the same image |
| GenerateGameImages.Merge | app/generate-game-images/page.tsx:47-52 | the reported key gets the new data URL and every other key is unchanged |
| GenerateGameImages.RenderedHasAll | app/generate-game-images/page.tsx:47-52 | once every generator has reported, every requested key has an image and every other key is as before |
| GenerateGameImages.RenderedKeeps | app/generate-game-images/page.tsx:47-52 | a key with an image keeps one |
| GenerateGameImages.CollectAll | app/generate-game-images/page.tsx:19-39 | when every name is known, `generateAllImages` builds one generator per name, in order |
| GenerateGameImages.CollectMembers | app/generate-game-images/page.tsx:19-39 | every generator built comes from a name, and every known name gets its generator |
| GenerateGameImages.ImageTypeRequest | app/generate-game-images/page.tsx:19-39 | each of the eight names asks for the generator rendered in its place |
| GenerateGameImages.GenerateAllMatchesRender | app/generate-game-images/page.tsx:248-257 | the generators built on mount are exactly the eight the page renders |
| GenerateGameImages.HiddenKey | app/generate-game-images/page.tsx:248-257 | each rendered generator's key is the name of its tab |
| GenerateGameImages.EveryTabFilled | app/generate-game-images/page.tsx:248-257 | once the rendered generators have reported, every tab's name has an image |
| GenerateGameImages.GameImagesPage.constructor | app/generate-game-images/page.tsx:11-12 | no images yet and the character tab active |
| GenerateGameImages.GameImagesPage.SetActiveTab | app/generate-game-images/page.tsx:80 | the chosen tab becomes active and the images stay |
| GenerateGameImages.GameImagesPage.HandleGenerated | app/generate-game-images/page.tsx:47-52 | the reported image is merged in under its key and the tab stays |
| GenerateGameImages.GameImagesPage.GenerateAllImages | app/generate-game-images/page.tsx:19-39 | the loop builds, in order, the generator of each known name and skips the others |
| GenerateGameImages.GameImagesPage.Mount | app/generate-game-images/page.tsx:47-52 | the images after all generators report are those `Rendered` describes |
| GenerateGameImages.TypeName | app/generate-game-images/page.tsx:20-29 | the name of each image type; ImageKey and TypeNameRequest state that it keys and requests that type |
| GenerateGameImages.NumberText | app/generate-game-images/page.tsx:45 | the avatar number in the key, `NaN` written out; AvatarKeyRoundTrip states that a number's key reads back |
| GenerateGameImages.SecondPiece | app/generate-game-images/page.tsx:33 | `type.split("-")[1]`, none without a dash; After and Before state what it cuts |
| GenerateGameImages.AvatarNumberOf | app/generate-game-images/page.tsx:33 | the avatar number parsed from the second piece, `None` for NaN; AvatarKeyRoundTrip states that it reads an avatar's key back |
| GenerateGameImages.TypeNamed | app/generate-game-images/page.tsx:35-37 | the image type a non-avatar name stands for; TypeNameRequest states that each type's name gives that type |
| GenerateGameImages.RequestFor | app/generate-game-images/page.tsx:32-37 | one step of the loop: an "avatar" name asks for the avatar of its number, any other known name for its type; AvatarNameRequest, TypeNameRequest and ImageTypeRequest state it |
| GenerateGameImages.Rendered | app/generate-game-images/page.tsx:47-52 | each generator in turn reporting its image; RenderedHasAll, RenderedKeeps and EveryTabFilled state what it holds |
| GenerateGameImages.HiddenGenerators | app/generate-game-images/page.tsx:248-257 | the eight generators of the hidden block; GenerateAllMatchesRender, HiddenKey and EveryTabFilled state which they are |
| GenerateGameImages.Collect | app/generate-game-images/page.tsx:31-38 | the `forEach` keeping one generator per known name, in order; CollectAll and CollectMembers state what it keeps |
| GenerateGameImages.Requests | app/generate-game-images/page.tsx:19-39 | the generators `generateAllImages` builds; GenerateAllMatchesRender states that they are the rendered eight |
| UseViewport.Classify | hooks/use-viewport.tsx:11-20 | mobile below 768, tablet from 768 below 1024, desktop from 1024, each as an if-and-only-if |
| UseViewport.ClassifyMonotone | hooks/use-viewport.tsx:11-20 | a larger width never gives a smaller class |
| UseViewport.Breakpoints | hooks/use-viewport.tsx:11-20 | 768 and 1024 are the first widths of tablet and desktop |
| UseViewport.ViewportState.constructor | hooks/use-viewport.tsx:8 | the viewport starts as mobile |
| UseViewport.ViewportState.HandleResize | hooks/use-viewport.tsx:11-26 | each resize sets the viewport to the class of the width |
| UseViewport.Rank | hooks/use-viewport.tsx:13-19 | mobile, tablet, desktop from small to large; ClassifyMonotone states that a wider window never ranks lower |
| Numerals.DigitsValue | components/game-image-generator.tsx:636-638 | the value of a run of digits, most significant first; ToStringValue, ParseHexOfDigits and Hex2 state that reading and writing agree on it |
| Numerals.ParseInt | app/generate-game-images/page.tsx:33 | the leading digits of the text in base 10 or 16, none when the text does not start with one; ParseToString states that it reads `toString` back |
| Numerals.ToString | components/game-image-generator.tsx:652-654 | `toString(radix)`: a non-empty run of lowercase digits without a leading zero |
| Numerals.ToStringValue | components/game-image-generator.tsx:652-654 | the digits `toString` writes have the number's value |
| Numerals.ParseToString | app/generate-game-images/page.tsx:33 | the digits `toString` writes, followed by anything that is not a digit, parse back to the number |
| Numerals.PadStart2 | components/game-image-generator.tsx:652-654 | `padStart(2, "0")`: a short text is filled with zeros in front to length two, a long one kept |
| Numerals.Hex2 | components/game-image-generator.tsx:652-654 | a channel value 0..255 is written as two lowercase hex digits of that value |
| Numerals.ParseHex | components/game-image-generator.tsx:636-638 | `Number.parseInt(text, 16)`, `None` standing for NaN; ParseHexOfDigits and SkipsNothing state what it reads from a run of hex digits |
| Numerals.ParseHexOfDigits | components/game-image-generator.tsx:636-638 | a run of hex digits parses to its value |
| Numerals.SkipsNothing | components/game-image-generator.tsx:636-638 | on a run of hex digits `parseInt(text, 16)` is the plain digit reading |
| Numerals.ParseIntAuto | lib/action-utils.ts:219 | `Number.parseInt` with no radix, `None` standing for NaN; ParseIntAutoOfIntString, ParseIntAutoNegative, ParseIntAutoSkipsSpaces and ParseIntAutoHex state how it reads |
| Numerals.IntString | lib/action-utils.ts:230 | a template literal's `${n}`: non-empty, with a minus sign in front exactly for a negative number |
| Numerals.ParseIntAutoNegative | lib/action-utils.ts:219 | a minus sign before the digits of a positive number reads as its negation |
| Numerals.ParseIntAutoOfIntString | lib/action-utils.ts:219-230 | `Number.parseInt` reads back the `${n}` of every integer |
| Numerals.ParseIntAutoSkipsSpaces | lib/action-utils.ts:219 | leading white space changes nothing `Number.parseInt` reads |
| Numerals.ParseIntAutoHex | lib/action-utils.ts:219 | `0x` followed by the hex digits of a number reads as that number |
| Text.Lower | lib/local-chat.ts:84 | `toLowerCase`: same length, each character lowercased; LowerIsLower, LowerIdempotent and LowerAppend state its properties |
| Text.LowerIsLower | lib/local-chat.ts:84 | a lowercased text has no capital letter |
| Text.LowerOfLower | lib/local-chat.ts:84 | lowercasing a text without capitals changes nothing |
| Text.LowerIdempotent | lib/local-chat.ts:84 | lowercasing twice is lowercasing once |
| Text.LowerAppend | lib/local-chat.ts:84 | lowercasing works piece by piece over concatenation |
| Text.IsPrefix | components/header.tsx:61 | `startsWith`; IsPrefixSlice states that it is the slice comparison |
| Text.IsPrefixSlice | components/header.tsx:61 | `s.startsWith(p)` holds exactly when `p` is no longer than `s` and is its first characters |
| Text.PrefixOfAppend | components/header.tsx:61 | a text starts with any prefix it was built from |
| Text.DiffersAt | components/header.tsx:61 | a text does not start with a pattern it differs from at a shared position |
| Text.Contains | lib/fallback-chat.ts:54-58 | `includes`; ContainsWitness, ContainsChars, ContainsTrans and the other Contains lemmas state when it holds |
| Text.ContainsChars | lib/fallback-chat.ts:54-58 | every character of an included pattern occurs in the text |
| Text.MissingCharNotContained | lib/fallback-chat.ts:54-58 | a pattern with a character the text lacks is not included |
| Text.ContainsWitness | lib/fallback-chat.ts:54-58 | a pattern found at a position is included |
| Text.HasAt | lib/fallback-chat.ts:54-58 | a pattern matching character by character at a position is included |
| Text.FirstCharMissing | lib/fallback-chat.ts:54-58 | a pattern whose first character is absent from every position where it could start is not included |
| Text.ContainsInSuffix | lib/fallback-chat.ts:54-58 | a pattern included in the end of a text is included in the text |
| Text.ContainsInPrefix | lib/fallback-chat.ts:54-58 | a pattern included in the start of a text is included in the text |
| Text.ContainsMiddle | lib/fallback-chat.ts:54-58 | a text built around a pattern includes it |
| Text.ContainsTrans | lib/fallback-chat.ts:54-58 | an occurrence inside an occurrence is an occurrence |
| Text.ContainsSelf | lib/fallback-chat.ts:54-58 | every text includes itself |
| Text.EndsWith | lib/ai-sdk-service.ts:46 | the text ends with the suffix; EndsWithAppend and EndsWithContains state when it holds and what follows |
| Text.EndsWithAppend | lib/ai-sdk-service.ts:46 | a text with the signature appended ends with it |
| Text.EndsWithContains | lib/ai-sdk-service.ts:45-46 | a text ending with a suffix includes it |
| Text.IsBlank | components/streaming-chat.tsx:67 | `!input.trim()`: nothing but white space; Trim states that trimming it leaves "" |
| Text.Trim | components/streaming-chat.tsx:67 | `trim()`: a slice of the text with only white space before and after it, empty exactly for a blank text, and with no white space at either end |
| Text.TrimStart | components/streaming-chat.tsx:67 | the leading white space removed: a suffix of the text, everything dropped before it is white space, and it does not start with white space; empty exactly for a blank text |
| Text.TrimEnd | components/streaming-chat.tsx:67 | the trailing white space removed: a prefix of the text, everything dropped after it is white space, and it does not end with white space; empty exactly for a blank text |
| Text.ReplaceFirst | components/enhanced-edition-card.tsx:138 | `replace` with a string pattern and an empty replacement: the text is unchanged when the pattern does not occur, and otherwise the pattern's first occurrence is cut out and the rest kept |
| Text.Substring | app/api/chat-diagnostic/route.ts:55 | `substring(start, end)`: the slice when the end is in range; past the length, the rest of the text from `start`, or "" when `start` is past it too |
| Ordering.SortedBy | lib/chat-history-service.ts:140 | non-decreasing by a key; SortBy, Insert and TakeSorted state that they produce it |
| Ordering.Insert | lib/persona-service.ts:50 | inserting into a sorted sequence adds exactly that element and keeps it sorted |
| Ordering.SortBy | lib/chat-history-service.ts:140 | `ORDER BY`: a sorted permutation of the rows |
| Ordering.SortSorted | lib/chat-history-service.ts:140 | sorting sorted rows changes nothing |
| Ordering.Take | lib/chat-history-service.ts:141 | `LIMIT n`: the first `n` rows, or all of them when there are fewer |
| Ordering.TakeKeepsFirst | lib/chat-history-service.ts:140-141 | every row a limit cuts off from sorted rows sorts no earlier than every row it keeps |
| Ordering.TakeSorted | lib/chat-history-service.ts:140-141 | the rows a limit keeps from a sorted sequence stay sorted |
| Ordering.Filter | lib/chat-history-service.ts:139 | `WHERE`: only rows meeting the condition, each one of the table and every such row kept |
| Ordering.SelectedMember | lib/chat-history-service.ts:139-140 | every row of a sorted selection is a table row meeting the condition |
| Ordering.SelectedComplete | lib/chat-history-service.ts:139-140 | every table row meeting the condition is in the sorted selection |
| Options.Truthy | lib/action-utils.ts:375 | JavaScript truthiness of an optional text: present and not empty; ActionUtils.SessionIdFor and ChatEnhancedRoute.Owner decide by it |

## Left out

- I/O, clocks and randomness are parameters: the language model's answers, every SQL and Redis statement's outcome, `nanoid`, `Date.now`, `Math.random` pool indices and the browser's `window` width. LocalChat.CreateChatSession and LocalChat.AddMessage read `new Date()` twice each (lib/local-chat.ts:146-147, 157 and 163); the model takes both readings as one clock value `now`, so a new session's `createdAt` and `updatedAt` are equal, and so are a new message's `timestamp` and the session's new `updatedAt`, where the source's two readings may differ by a millisecond.
- The Redis `zrange` window of recent persona ids is an input constrained to the stored ids; Upstash's negative-index and reverse-order semantics are not modelled.
- `JSON.parse` of a language-model answer and of stored JSON is an oracle outcome, not a parser.
- Toasts, `console` logging, animations, canvas drawing other than the avatar colours, images, and the 3D card effect.
- Dates are opaque timestamps; only their order is used, except for the one-year end date of a subscription.
- The duplicate copies of the chat routes behave like the copy modelled and are not modelled again.
- Foreign keys between the chat tables, and the database's own constraints beyond the unique keys the code relies on.
- React's asynchronous state updates are modelled as immediate field writes, except where the source reads a stale value, which is modelled as written: the quiz result computed from the scores before the last answer, and the chat retry's delayed `handleSubmit`, which reads the `input` of the render in which Retry was clicked (`StreamingChat.StreamingChat.RetrySubmit`).
- A `catch` the code cannot reach (the `try` body cannot throw once its calls are oracle outcomes) is left out.
- SQL `ORDER BY` and Redis sorted-set ties are resolved by a stable sort on the key.
- PostgreSQL `COUNT` values, which arrive as strings, are taken as integers.
- `textToSpeech`, `shareContent`, `downloadEdition`, `startNewChat`, `openSearch` and `openFilter` in `lib/action-utils.ts` call browser APIs only and are not modelled.
- `encodeURIComponent` is the parameter `encode`.
- The article carousel with no slides is not modelled: rendering it reads `items[0]`, so it needs at least one slide.
- Lower-casing and whitespace are ASCII only.
- String lengths and `substring` positions count characters, where JavaScript counts UTF-16 code units: a text with characters outside the Basic Multilingual Plane (emoji) is cut at a different place by `ChatDiagnosticRoute.Preview`, and gets a different `LocalChat.TypingDelay`.
- GenerateGameImages.AvatarNumberOf: `parseInt` of the avatar number is taken in base 10 without sign, leading whitespace or a `0x` prefix, which the avatar names never carry.
- GenerateGameImages.GameImagesPage.GenerateAllImages: names outside the TypeScript union that `generateImage` accepts are skipped; in the source they do not type-check.
- `downloadImage` in `app/generate-game-images/page.tsx` writes a file and is not modelled.
- `streamAIResponse` (`lib/ai-sdk-service.ts:59-90`) streams the same oracle answer as `generateAIResponse` and is not modelled again.
- The image generation of `lib/enhanced-ai-service.ts` is the same as that of `lib/ai-sdk-service.ts` and is modelled once, as `AiSdkService.GenerateAIImage`.
- The `message` field (the caught error's `message`) of every route's 500 response is not modelled, nor the `stack` field of the chat-diagnostic route's: only the status and the fixed fields are.
- The quiz's `handleGenerateImage` and `downloadPersona`, the score percentages and the progress bar.
- StreamingChat.StreamingChat.HandleRetry: the 100 ms timer is not modelled; the call it makes is `RetrySubmit`, given the state of the render in which Retry was clicked. Right after a submission that `input` is empty, so nothing is resent (`RetryAfterSubmit`); only text typed after the reply is sent in its place. The Retry button shows only while `isUsingFallback` holds, which only the unreachable `catch` sets.
- `handleKeyDown` in the chat components submits like the send button and is not modelled separately.
- Header.PageActions: its contract states only that every page has at least two actions; which actions each path gets is stated by `HomeActionsOnlyAtRoot` and `ArticlePaths`.
- Concurrency between requests is not modelled: every request runs to completion before the next.
- ActionUtils.Browser.NavigateEditions: edition numbers are unbounded integers; JavaScript numbers lose precision above 2^53 and print in exponent form from 10^21, which the page ids of the model do not.
- SubscriptionService.SubscriptionDb.CreateSubscription: the two `new Date()` readings for the start and end dates are taken as one clock reading, and the one-year shift is 365 or 366 days whatever daylight-saving or time-zone changes fall in the year. The new row's `created_at` and `updated_at` are also that clock reading, where the source leaves them to the table's defaults, filled from the database's clock; no stated property depends on the difference.
- ChatHistoryService.ChatDb.EnsureChatTablesExist: the two `information_schema` probes are one fault point, since both run before any table is created.
- PersonaActions.StorePersona: the `nanoid(10)` id is a parameter, so the model does not exclude a fresh id that happens to look like a `local-` fallback id.

## Findings

| source | as written | input that shows it | evidently intended | confidence | as-written member | corrected member |
|---|---|---|---|---|---|---|
| app/quiz/ai-character/page.tsx:406-410 | on the last question `calculateResult()` reads `scores` from before `setScores` adds the final answer, so the last answer never counts | answers 1a, 2a, 3a, 4c, 5c, 6c, 7c, 8a: the page shows Social, while the scores including 8a make it Analytical | the result is computed from the scores that include the last answer | not executed | QuizPage.StaleResultIgnoresLastAnswer | QuizPage.CorrectedResult |
