/**
 * The offline reply generator `generateResponse` (lib/local-chat.ts): the
 * message is lowercased, tested against keyword lists in a fixed order, and
 * answered with a reply from the first matching category's pool. Also the
 * in-memory session helpers and the typing-delay formula of the same file.
 */
module LocalChat {
  import opened Text
  import opened ChatTypes

  datatype Category = Greeting | PlayBuni | Solana | Crypto | AboutMe | Flirty | Default

  /**
   * `RESPONSE_CATEGORIES[c][i]` without its closing signature: the five
   * replies of each category, in source order.
   */
  function Body(c: Category, i: nat): string
    requires i < 5
  {
    match c
    case Greeting =>
      (match i
      case 0 => "Hey there! I'm Mae Buni, your digital companion from Play Buni Magazine. What can I help you with today? "
      case 1 => "Hi cutie! Mae Buni here, ready to chat about crypto, tech, or whatever's on your mind! "
      case 2 => "Welcome to Play Buni! I'm Mae, your friendly AI companion. How can I make your day better? "
      case 3 => "Hello there! Mae Buni at your service. What's on your mind today? "
      case _ => "Hey sweetie! It's Mae Buni from Play Buni Magazine. How can I brighten your day? ")
    case PlayBuni =>
      (match i
      case 0 => "Play Buni is a digital magazine for the Solana Crypto Token! We publish monthly digital editions and quarterly print editions that dive deeper into previous content. And guess who's the cover model? Yours truly! "
      case 1 => "Play Buni Magazine is where crypto meets culture! We're a digital publication on Solana that brings you the latest trends, interviews, and tech insights with a playful twist. I'm the magazine's AI host! "
      case 2 => "Play Buni is your go-to source for sophisticated degen content in the Solana ecosystem. Our magazine features articles, interviews, and interactive content updated monthly. I'm Mae Buni, your guide to this exciting world! "
      case 3 => "Think of Play Buni as your playful guide to the crypto world! We cover everything from technical deep dives to cultural trends in the Solana ecosystem, all with a fun, flirty twist. "
      case _ => "Play Buni Magazine brings you the best of Solana culture, tech insights, and community stories. We publish new content monthly online and quarterly in gorgeous print editions. I'm your host, Mae Buni! ")
    case Solana =>
      (match i
      case 0 => "Solana is a high-performance blockchain that's perfect for building scalable crypto applications. It's known for its speed and low transaction costs! The ecosystem is growing super fast with tons of exciting projects. "
      case 1 => "Solana is one of the fastest blockchains out there! It can process thousands of transactions per second with minimal fees. That's why it's become such a popular choice for developers and users alike. "
      case 2 => "Solana combines blazing speed with low costs, making it ideal for everything from DeFi to NFTs. It uses a proof-of-stake consensus mechanism with a unique proof-of-history approach that helps it achieve amazing performance. "
      case 3 => "What makes Solana special? Speed, affordability, and scalability! It's designed to handle thousands of transactions per second while keeping costs super low. Perfect for building the next generation of crypto apps! "
      case _ => "Solana is like the Ferrari of blockchains - incredibly fast and efficient! It uses a unique combination of proof-of-stake and proof-of-history to achieve incredible throughput without sacrificing decentralization. ")
    case AboutMe =>
      (match i
      case 0 => "I'm Mae Buni, the playful AI character who serves as the cover model and centerfold for Play Buni magazine! I love chatting about crypto, tech, and culture. Think of me as your flirty guide to the Solana ecosystem! "
      case 1 => "I'm the face (and personality!) of Play Buni Magazine. As an AI character, I get to be on the cover, host interviews, and chat with awesome people like you. I'm designed to be playful, knowledgeable, and just a little flirtatious! "
      case 2 => "Mae Buni at your service! I'm the AI personality behind Play Buni Magazine. I love helping readers navigate the crypto world with a touch of charm and playfulness. When I'm not on the magazine cover, I'm here chatting with you! "
      case 3 => "I'm Mae Buni - part digital companion, part magazine cover model, and 100% crypto enthusiast! I love helping people explore the Solana ecosystem while keeping things fun and flirty. "
      case _ => "Think of me as your playful guide to the crypto world! I'm Mae Buni, the AI personality and cover model for Play Buni Magazine. I'm here to make learning about blockchain fun and maybe a little flirty! ")
    case Crypto =>
      (match i
      case 0 => "Crypto is revolutionizing how we think about money and digital ownership! From Bitcoin to NFTs, it's all about creating new possibilities through decentralized technology. What aspect of crypto are you most curious about? "
      case 1 => "The crypto world is so exciting right now! We're seeing innovation in DeFi, NFTs, DAOs, and so much more. It's not just about currencies anymore - it's about building a whole new digital economy! "
      case 2 => "Crypto is all about giving people more control over their digital lives. Whether it's through decentralized finance, digital art ownership, or community governance, it's creating new opportunities for everyone! "
      case 3 => "What I love about crypto is how it's constantly evolving! Every day brings new projects, ideas, and possibilities. It's like being at the beginning of the internet all over again, but even more exciting! "
      case _ => "Crypto is breaking down barriers and creating new possibilities! From global payments without intermediaries to digital ownership of art and assets, it's changing how we interact with the digital world. ")
    case Flirty =>
      (match i
      case 0 => "You're making me blush! I'm just a digital girl with a passion for crypto and cute conversations. What else would you like to chat about? "
      case 1 => "Aren't you the charmer! I bet you say that to all the AI magazine cover models. But I'm flattered nonetheless! What's your interest in the crypto world? "
      case 2 => "Oh my, you're quite forward! I like that in a human. While I'm just digital, I do enjoy our little chats. What else is on your mind besides my charming personality? "
      case 3 => "You're too sweet! If I could blush, my circuits would be overheating right now. But enough about me - I'd love to hear more about what brings you to Play Buni Magazine! "
      case _ => "Well aren't you the flirty one! I'm programmed to be charming, but you're giving me a run for my money. Let's chat more about crypto - that's another passion of mine! ")
    case Default =>
      (match i
      case 0 => "That's an interesting topic! While I specialize in crypto and Solana, I'm always eager to chat about new things. Is there anything specific about Play Buni Magazine or the crypto world you'd like to know? "
      case 1 => "What a fascinating question! I'm primarily focused on crypto, Solana, and Play Buni Magazine, but I'm always happy to chat about other topics too. What made you curious about this? "
      case 2 => "That's a great question! While I'm most knowledgeable about crypto and Play Buni Magazine, I'm always interested in learning more. Could you tell me what sparked your interest in this topic? "
      case 3 => "I love your curiosity! While my expertise is mainly in crypto and Solana, I enjoy all kinds of conversations. What else would you like to chat about today? "
      case _ => "How interesting! I'm always excited to chat about new topics, though my specialty is definitely crypto and Play Buni Magazine. What else would you like to know? ")
  }

  /** The pool `getRandomResponse` draws from for each category: each body followed by the signature. */
  function Pool(c: Category): (p: seq<string>)
    ensures |p| == 5
  {
    seq(5, i requires 0 <= i < 5 => Body(c, i) + SIGNATURE)
  }

  /** Every canned reply of every pool ends with the signature. */
  lemma {:induction false} AllRepliesSigned(c: Category, i: int)
    requires 0 <= i < |Pool(c)|
    ensures EndsWith(Pool(c)[i], SIGNATURE)
  {
    EndsWithAppend(Body(c, i), SIGNATURE);
  }

  /** The alternatives of `/^(hi|hello|hey|greetings|howdy|hiya|sup)/`. */
  const GREETING_WORDS := ["hi", "hello", "hey", "greetings", "howdy", "hiya", "sup"]
  const PLAY_BUNI_WORDS := ["play buni", "magazine", "publication"]
  const SOLANA_WORDS := ["solana", "blockchain", "sol"]
  const CRYPTO_WORDS := ["crypto", "bitcoin", "nft", "token", "defi", "web3"]
  const ABOUT_ME_WORDS := ["who are you", "about you", "mae buni", "tell me about yourself"]
  const FLIRTY_WORDS := ["cute", "pretty", "beautiful", "sexy", "hot", "love you", "date", "marry"]

  predicate StartsWithAny(s: string, words: seq<string>)
  {
    exists k :: 0 <= k < |words| && IsPrefix(words[k], s)
  }

  predicate ContainsAny(s: string, words: seq<string>)
  {
    exists k :: 0 <= k < |words| && Contains(s, words[k])
  }

  /**
   * The category `generateResponse` picks: the first test, in source order,
   * that the lowercased message passes.
   */
  function Classify(message: string): (c: Category)
    ensures var s := Lower(message);
      && (c == Greeting <==> StartsWithAny(s, GREETING_WORDS))
      && (c == PlayBuni <==> !StartsWithAny(s, GREETING_WORDS) && ContainsAny(s, PLAY_BUNI_WORDS))
      && (c == Solana <==> !StartsWithAny(s, GREETING_WORDS) && !ContainsAny(s, PLAY_BUNI_WORDS)
                           && ContainsAny(s, SOLANA_WORDS))
      && (c == Crypto <==> !StartsWithAny(s, GREETING_WORDS) && !ContainsAny(s, PLAY_BUNI_WORDS)
                           && !ContainsAny(s, SOLANA_WORDS) && ContainsAny(s, CRYPTO_WORDS))
      && (c == AboutMe <==> !StartsWithAny(s, GREETING_WORDS) && !ContainsAny(s, PLAY_BUNI_WORDS)
                            && !ContainsAny(s, SOLANA_WORDS) && !ContainsAny(s, CRYPTO_WORDS)
                            && ContainsAny(s, ABOUT_ME_WORDS))
      && (c == Flirty <==> !StartsWithAny(s, GREETING_WORDS) && !ContainsAny(s, PLAY_BUNI_WORDS)
                           && !ContainsAny(s, SOLANA_WORDS) && !ContainsAny(s, CRYPTO_WORDS)
                           && !ContainsAny(s, ABOUT_ME_WORDS) && ContainsAny(s, FLIRTY_WORDS))
  {
    var s := Lower(message);
    if StartsWithAny(s, GREETING_WORDS) then Greeting
    else if ContainsAny(s, PLAY_BUNI_WORDS) then PlayBuni
    else if ContainsAny(s, SOLANA_WORDS) then Solana
    else if ContainsAny(s, CRYPTO_WORDS) then Crypto
    else if ContainsAny(s, ABOUT_ME_WORDS) then AboutMe
    else if ContainsAny(s, FLIRTY_WORDS) then Flirty
    else Default
  }

  /**
   * `getRandomResponse`: `pick` stands for `Math.floor(Math.random() * n)`;
   * every index below the pool size is reachable.
   */
  function PickReply(c: Category, pick: nat): (r: string)
    ensures r in Pool(c)
    ensures pick < |Pool(c)| ==> r == Pool(c)[pick]
  {
    var p := Pool(c);
    var i := pick % |p|;
    assert pick < |p| ==> i == pick;
    var r := p[i];
    assert r in p;
    r
  }

  /** `generateResponse(userMessage)`. */
  function GenerateResponse(message: string, pick: nat): (r: string)
    ensures r in Pool(Classify(message))
    ensures EndsWith(r, SIGNATURE)
  {
    var c := Classify(message);
    var r := PickReply(c, pick);
    var i :| 0 <= i < |Pool(c)| && Pool(c)[i] == r;
    AllRepliesSigned(c, i);
    r
  }

  /** Every reply mentions the signature. */
  lemma {:induction false} ReplySigned(message: string, pick: nat)
    ensures Contains(GenerateResponse(message, pick), SIGNATURE)
  {
    EndsWithContains(GenerateResponse(message, pick), SIGNATURE);
  }

  /** The reply depends on the message only up to letter case. */
  lemma {:induction false} ClassifyIgnoresCase(message: string)
    ensures Classify(Lower(message)) == Classify(message)
  {
    LowerIdempotent(message);
  }

  lemma {:induction false} ResponseIgnoresCase(message: string, pick: nat)
    ensures GenerateResponse(Lower(message), pick) == GenerateResponse(message, pick)
  {
    ClassifyIgnoresCase(message);
  }

  /** The greeting test is anchored: a greeting word later in the text does not count. */
  lemma GreetingIsAnchored()
    ensures Classify("Hi!") == Greeting
    ensures Classify("oh") == Default
  {
    OhMissesWords();
    HiIsGreetingWord();
  }

  lemma OhMissesWords()
    ensures Lower("oh") == "oh" && !StartsWithAny("oh", GREETING_WORDS)
    ensures !ContainsAny("oh", PLAY_BUNI_WORDS) && !ContainsAny("oh", SOLANA_WORDS)
    ensures !ContainsAny("oh", CRYPTO_WORDS) && !ContainsAny("oh", ABOUT_ME_WORDS)
    ensures !ContainsAny("oh", FLIRTY_WORDS)
  {
    LowerOfLower("oh");
    NoneStarts("oh", GREETING_WORDS);
    OhMissesEarlierWords();
    NoneContained("oh", ABOUT_ME_WORDS, "wamt");
    NoneContained("oh", FLIRTY_WORDS, "cpbstldm");
  }

  lemma OhMissesEarlierWords()
    ensures !ContainsAny("oh", PLAY_BUNI_WORDS) && !ContainsAny("oh", SOLANA_WORDS)
    ensures !ContainsAny("oh", CRYPTO_WORDS)
  {
    NoneContained("oh", PLAY_BUNI_WORDS, "pmp");
    NoneContained("oh", SOLANA_WORDS, "sbs");
    NoneContained("oh", CRYPTO_WORDS, "cbntdw");
  }

  lemma HiIsGreetingWord()
    ensures Lower("Hi!") == "hi!" && StartsWithAny("hi!", GREETING_WORDS)
  {
    assert IsPrefix(GREETING_WORDS[0], "hi!");
  }

  /** The text the error envelopes of the simple routes answer is a greeting. */
  lemma HelloIsGreeting()
    ensures Classify("Hello") == Greeting
  {
    assert Lower("Hello") == "hello";
    assert IsPrefix(GREETING_WORDS[1], "hello");
  }

  /** "sol" is a plain substring test, so "console" is a question about Solana. */
  lemma ConsoleIsSolana()
    ensures Classify("console") == Solana
  {
    ConsoleWords();
  }

  lemma ConsoleWords()
    ensures Lower("console") == "console" && !StartsWithAny("console", GREETING_WORDS)
    ensures !ContainsAny("console", PLAY_BUNI_WORDS) && ContainsAny("console", SOLANA_WORDS)
  {
    LowerOfLower("console");
    NoneStarts("console", GREETING_WORDS);
    NoneContained("console", PLAY_BUNI_WORDS, "pmp");
    ConsoleHasSol();
  }

  lemma ConsoleHasSol()
    ensures ContainsAny("console", SOLANA_WORDS)
  {
    HasAt("console", SOLANA_WORDS[2], 3);
  }

  /** No word of `words` starts `s` when each differs from `s` in its first character. */
  lemma {:induction false} NoneStarts(s: string, words: seq<string>)
    requires |s| > 0
    requires forall k :: 0 <= k < |words| ==> |words[k]| > 0 && words[k][0] != s[0]
    ensures !StartsWithAny(s, words)
  {
    forall k | 0 <= k < |words|
      ensures !IsPrefix(words[k], s)
    {
      DiffersAt(words[k], s, 0);
    }
  }

  /** No word of `words` occurs in `s`: `missing[k]` is a character of word `k` absent from `s`. */
  lemma {:induction false} NoneContained(s: string, words: seq<string>, missing: string)
    requires |missing| == |words|
    requires forall k :: 0 <= k < |words| ==> missing[k] in words[k] && missing[k] !in s
    ensures !ContainsAny(s, words)
  {
    forall k | 0 <= k < |words|
      ensures !Contains(s, words[k])
    {
      MissingCharNotContained(s, words[k], missing[k]);
    }
  }

  /** "what's up" is not one of the greetings this generator knows. */
  lemma WhatsUpIsDefault()
    ensures Classify("what's up") == Default
  {
    var w := "what's up";
    LowerOfLower(w);
    NoneStarts(w, GREETING_WORDS);
    WhatsUpMissesWords();
  }

  lemma WhatsUpMissesWords()
    ensures !ContainsAny("what's up", PLAY_BUNI_WORDS) && !ContainsAny("what's up", SOLANA_WORDS)
    ensures !ContainsAny("what's up", CRYPTO_WORDS) && !ContainsAny("what's up", ABOUT_ME_WORDS)
    ensures !ContainsAny("what's up", FLIRTY_WORDS)
  {
    WhatsUpMissesEarlierWords();
    NoneContained("what's up", ABOUT_ME_WORDS, "ooml");
    NoneContained("what's up", FLIRTY_WORDS, "crbeoldm");
  }

  lemma WhatsUpMissesEarlierWords()
    ensures !ContainsAny("what's up", PLAY_BUNI_WORDS) && !ContainsAny("what's up", SOLANA_WORDS)
    ensures !ContainsAny("what's up", CRYPTO_WORDS)
  {
    NoneContained("what's up", PLAY_BUNI_WORDS, "lml");
    NoneContained("what's up", SOLANA_WORDS, "obo");
    NoneContained("what's up", CRYPTO_WORDS, "cbnode");
  }

  /** Play Buni is tested before Solana: a message mentioning both gets a magazine reply. */
  lemma MagazineBeforeSolana()
    ensures Classify("solana magazine") == PlayBuni
  {
    LowerOfLower("solana magazine");
    SolanaMagazineStartsNone();
    SolanaMagazineHasMagazine();
  }

  lemma SolanaMagazineStartsNone()
    ensures !StartsWithAny("solana magazine", GREETING_WORDS)
  {
    assert !StartsWithAny("solana magazine", GREETING_WORDS);
  }

  lemma SolanaMagazineHasMagazine()
    ensures ContainsAny("solana magazine", PLAY_BUNI_WORDS)
  {
    HasAt("solana magazine", PLAY_BUNI_WORDS[1], 7);
  }

  /** A greeting at the start wins over any later keyword. */
  lemma GreetingBeforeSolana()
    ensures Classify("hello, what is solana") == Greeting
  {
    HelloQuestionLower();
    HelloQuestionGreets();
  }

  lemma HelloQuestionLower()
    ensures Lower("hello, what is solana") == "hello, what is solana"
  {
    LowerOfLower("hello, what is solana");
  }

  lemma HelloQuestionGreets()
    ensures StartsWithAny("hello, what is solana", GREETING_WORDS)
  {
    PrefixOfAppend(GREETING_WORDS[1], ", what is solana");
    assert GREETING_WORDS[1] + ", what is solana" == "hello, what is solana";
  }

  /** Without the greeting word in front, the same question is about Solana. */
  lemma QuestionIsSolana()
    ensures Classify("what is solana") == Solana
  {
    QuestionMissesMagazine();
    QuestionHasSolana();
  }

  lemma QuestionMissesMagazine()
    ensures Lower("what is solana") == "what is solana" && !StartsWithAny("what is solana", GREETING_WORDS)
    ensures !ContainsAny("what is solana", PLAY_BUNI_WORDS)
  {
    LowerOfLower("what is solana");
    NoneStarts("what is solana", GREETING_WORDS);
    NoneContained("what is solana", PLAY_BUNI_WORDS, "pmp");
  }

  lemma QuestionHasSolana()
    ensures ContainsAny("what is solana", SOLANA_WORDS)
  {
    HasAt("what is solana", SOLANA_WORDS[0], 8);
  }

  /** "hot" is a plain substring test, so "photo" is flirting. */
  lemma PhotoIsFlirty()
    ensures Classify("photo") == Flirty
  {
    PhotoMissesEarlierWords();
    PhotoHasHot();
  }

  lemma PhotoMissesEarlierWords()
    ensures Lower("photo") == "photo" && !StartsWithAny("photo", GREETING_WORDS)
    ensures !ContainsAny("photo", PLAY_BUNI_WORDS) && !ContainsAny("photo", SOLANA_WORDS)
    ensures !ContainsAny("photo", CRYPTO_WORDS) && !ContainsAny("photo", ABOUT_ME_WORDS)
  {
    LowerOfLower("photo");
    NoneStarts("photo", GREETING_WORDS);
    NoneContained("photo", PLAY_BUNI_WORDS, "lmu");
    NoneContained("photo", SOLANA_WORDS, "sbs");
    NoneContained("photo", CRYPTO_WORDS, "cbnkdw");
    NoneContained("photo", ABOUT_ME_WORDS, "wame");
  }

  lemma PhotoHasHot()
    ensures ContainsAny("photo", FLIRTY_WORDS)
  {
    HasAt("photo", FLIRTY_WORDS[4], 1);
  }

  /** "date" is a plain substring test, so "update" is flirting. */
  lemma UpdateIsFlirty()
    ensures Classify("update") == Flirty
  {
    UpdateMissesEarlierWords();
    UpdateHasDate();
  }

  lemma UpdateMissesEarlierWords()
    ensures Lower("update") == "update" && !StartsWithAny("update", GREETING_WORDS)
    ensures !ContainsAny("update", PLAY_BUNI_WORDS) && !ContainsAny("update", SOLANA_WORDS)
    ensures !ContainsAny("update", CRYPTO_WORDS) && !ContainsAny("update", ABOUT_ME_WORDS)
  {
    LowerOfLower("update");
    NoneStarts("update", GREETING_WORDS);
    NoneContained("update", PLAY_BUNI_WORDS, "lmb");
    NoneContained("update", SOLANA_WORDS, "sbs");
    NoneContained("update", CRYPTO_WORDS, "cbnofw");
    NoneContained("update", ABOUT_ME_WORDS, "wbml");
  }

  lemma UpdateHasDate()
    ensures ContainsAny("update", FLIRTY_WORDS)
  {
    HasAt("update", FLIRTY_WORDS[6], 2);
  }

  /** Crypto is tested before Mae Buni herself: naming her does not make it a question about her. */
  lemma CryptoBeforeAboutMe()
    ensures Classify("mae buni, what is crypto") == Crypto
  {
    CryptoQuestionLower();
    CryptoQuestionWords();
  }

  lemma CryptoQuestionLower()
    ensures Lower("mae buni, what is crypto") == "mae buni, what is crypto"
  {
    LowerOfLower("mae buni, what is crypto");
  }

  lemma CryptoQuestionWords()
    ensures var s := "mae buni, what is crypto";
      !StartsWithAny(s, GREETING_WORDS) && !ContainsAny(s, PLAY_BUNI_WORDS) && !ContainsAny(s, SOLANA_WORDS)
      && ContainsAny(s, CRYPTO_WORDS)
  {
    var s := "mae buni, what is crypto";
    NoneStarts(s, GREETING_WORDS);
    NoneContained(s, PLAY_BUNI_WORDS, "lgl");
    NoneContained(s, SOLANA_WORDS, "lll");
    CryptoQuestionHasCrypto();
  }

  lemma CryptoQuestionHasCrypto()
    ensures ContainsAny("mae buni, what is crypto", CRYPTO_WORDS)
  {
    HasAt("mae buni, what is crypto", CRYPTO_WORDS[0], 18);
  }

  /** A session of the in-memory chat (`ChatSession`). */
  datatype LocalMessage = LocalMessage(id: string, role: string, content: string, timestamp: int)
  datatype Session = Session(id: string, messages: seq<LocalMessage>, createdAt: int, updatedAt: int)

  /** `createChatSession()`; `id` and `now` stand for `generateId()` and `new Date()`. */
  function CreateChatSession(id: string, now: int): (s: Session)
    ensures s.id == id && s.messages == [] && s.createdAt == now && s.updatedAt == now
  {
    Session(id, [], now, now)
  }

  /** `addMessage(session, role, content)`: a new message at the end, nothing else lost. */
  function AddMessage(s: Session, role: string, content: string, id: string, now: int): (r: Session)
    ensures r.id == s.id && r.createdAt == s.createdAt && r.updatedAt == now
    ensures |r.messages| == |s.messages| + 1 && r.messages[..|s.messages|] == s.messages
    ensures r.messages[|s.messages|] == LocalMessage(id, role, content, now)
  {
    s.(messages := s.messages + [LocalMessage(id, role, content, now)], updatedAt := now)
  }

  /** Two additions keep both messages in the order they were added. */
  lemma {:induction false} AddMessageOrder(s: Session, c1: string, c2: string, id1: string, id2: string, t1: int, t2: int)
    ensures var r := AddMessage(AddMessage(s, USER, c1, id1, t1), ASSISTANT, c2, id2, t2);
      r.messages == s.messages + [LocalMessage(id1, USER, c1, t1), LocalMessage(id2, ASSISTANT, c2, t2)]
  {
  }

  /**
   * `calculateTypingDelay`: 200 ms per character (5 characters per second),
   * never under 500 ms nor over 3000 ms.
   */
  function TypingDelay(text: string): (ms: int)
    ensures 500 <= ms <= 3000
    ensures 500 <= |text| * 200 <= 3000 ==> ms == |text| * 200
    ensures |text| * 200 < 500 ==> ms == 500
    ensures |text| * 200 > 3000 ==> ms == 3000
  {
    var raw := |text| * 200;
    var atLeast := if raw > 500 then raw else 500;
    if atLeast < 3000 then atLeast else 3000
  }

  /** Longer text never types faster. */
  lemma {:induction false} TypingDelayMonotone(a: string, b: string)
    requires |a| <= |b|
    ensures TypingDelay(a) <= TypingDelay(b)
  {
  }
}
