/**
 * The fallback reply generator `generateFallbackResponse`
 * (lib/fallback-chat.ts) used when the language model is unavailable: a
 * second keyword classifier with its own word lists and its own pools.
 */
module FallbackChat {
  import opened Text
  import opened ChatTypes
  import LocalChat

  datatype Category = Greeting | PlayBuni | Solana | Crypto | Flirty | Default

  /** The short sign-off two greeting replies end with instead of the full signature. */
  const KISS := "xoxo"

  /** How many replies `RESPONSES` holds for each category. */
  function Size(c: Category): nat
  {
    if c == Greeting then 5 else 4
  }

  /** `RESPONSES[c][i]` without its closing sign-off, in source order. */
  function Body(c: Category, i: nat): string
    requires i < Size(c)
  {
    match c
    case Greeting =>
      (match i
      case 0 => "Hey there, cutie! How can I help you today? "
      case 1 => "Well hello! Lovely to meet you. What can I do for you today? "
      case 2 => "Hey sweetie! Mae Buni at your service. What's on your mind? "
      case 3 => "Hi there! I'm Mae Buni, your digital companion. How can I make your day better? "
      case _ => "*winks* Hey you! What brings you to chat with me today? ")
    case PlayBuni =>
      (match i
      case 0 => "Play Buni is a digital magazine and Solana token that combines crypto culture with playful content. I'm the cover model and centerfold! We publish monthly digital editions and quarterly print editions. Pretty cool, right? "
      case 1 => "Play Buni is where crypto meets fun! We're a Solana token with a monthly digital magazine (that's where I come in as the star!) and quarterly print editions that dive deeper into crypto culture. What do you want to know about us? "
      case 2 => "Oh, you want to know about Play Buni? *twirls hair* We're a Solana-based project with a digital magazine that updates monthly. I'm the magazine's AI personality and cover model! We also do quarterly print editions for collectors. "
      case _ => "Play Buni is the hottest thing in the Solana ecosystem right now! We're a token with utility through our digital magazine (where I'm the star attraction!) and quarterly print editions. Have you checked out our latest issue? ")
    case Solana =>
      (match i
      case 0 => "Solana is one of my favorite blockchains! It's super fast with low transaction fees, making it perfect for NFTs and DeFi. The SOL token has been performing really well lately too. Are you a Solana investor? "
      case 1 => "Ah, Solana! It's a high-performance blockchain that can process thousands of transactions per second with minimal fees. It's become a major player in the crypto space, especially for NFTs and DeFi projects like Play Buni! "
      case 2 => "Solana is like the Ferrari of blockchains - fast, sleek, and a bit sexy if you ask me! It uses a proof-of-stake consensus mechanism with a unique proof-of-history approach that makes it super efficient. Are you building something on Solana? "
      case _ => "Solana's my blockchain of choice! It's eco-friendly compared to some others, super fast, and has a growing ecosystem of dApps. Play Buni is proud to be part of the Solana family! What aspects of Solana interest you most? ")
    case Crypto =>
      (match i
      case 0 => "Crypto is my passion! From Bitcoin to altcoins, I love the innovation happening in this space. Play Buni is part of this revolution on the Solana blockchain. Do you have a favorite crypto project? "
      case 1 => "The crypto world is so exciting! It's all about decentralization, financial freedom, and cutting-edge tech. I especially love the creative projects happening on Solana, like us at Play Buni! What's your crypto story? "
      case 2 => "Crypto is changing everything! From finance to art to gaming, blockchain technology is creating new possibilities. I'm particularly fond of the Solana ecosystem where Play Buni lives. Are you a crypto investor or more interested in the tech? "
      case _ => "Ah, crypto talk - music to my ears! It's a wild ride of innovation, speculation, and transformation. I'm especially bullish on Solana-based projects (for obvious reasons!). What's your take on the current market? ")
    case Flirty =>
      (match i
      case 0 => "*blushes* Well aren't you the charmer! I'm just a digital girl with a passion for crypto and cute conversations. What else would you like to know about me? "
      case 1 => "Oh my, so forward! *giggles* I'm flattered, but let's keep things fun and light. I'm here to chat about Play Buni, crypto, and whatever else interests you! "
      case 2 => "You're making my pixels blush! I'm Mae Buni, the digital cover girl for Play Buni magazine. I love good conversation with a bit of flirty fun, but I'm all about that crypto life too! "
      case _ => "*winks* I like your style! But there's more to me than just a pretty interface - I'm knowledgeable about crypto, Solana, and all things Play Buni. What would you like to discuss? ")
    case Default =>
      (match i
      case 0 => "That's an interesting thought! I'm Mae Buni, and I love chatting about Play Buni magazine, Solana, crypto, and more. Is there something specific about those topics you'd like to explore? "
      case 1 => "Hmm, let me think about that... While I ponder, is there anything about Play Buni magazine or the Solana ecosystem you'd like to know? Those are my specialties! "
      case 2 => "What an interesting question! While I'm primarily focused on Play Buni and crypto topics, I'm always happy to chat about various things. Would you like to know more about our magazine or Solana projects? "
      case _ => "That's a great point! I'm Mae Buni, your friendly neighborhood AI from Play Buni magazine. I love talking about crypto, especially on Solana, but I'm happy to chat about other things too! ")
  }

  /** Replies 2 and 3 (0-based) of the greeting pool end with the bare sign-off, all others with the signature. */
  function Ending(c: Category, i: nat): string
  {
    if c == Greeting && (i == 2 || i == 3) then KISS else SIGNATURE
  }

  /** The pool `generateFallbackResponse` draws from for each category. */
  function Pool(c: Category): (p: seq<string>)
    ensures |p| == Size(c)
  {
    seq(Size(c), i requires 0 <= i < Size(c) => Body(c, i) + Ending(c, i))
  }

  /** Every reply but two greetings ends with the full signature. */
  lemma {:induction false} SignedReplies(c: Category, i: int)
    requires 0 <= i < |Pool(c)|
    ensures EndsWith(Pool(c)[i], SIGNATURE) <==> !(c == Greeting && (i == 2 || i == 3))
  {
    var r := Pool(c)[i];
    if c == Greeting && (i == 2 || i == 3) {
      assert r[|r| - 1] == 'o';
      assert SIGNATURE[|SIGNATURE| - 1] == 'i';
    } else {
      EndsWithAppend(Body(c, i), SIGNATURE);
    }
  }

  /** Every pooled reply, signed or not, says "xoxo". */
  lemma {:induction false} RepliesKiss(c: Category, i: int)
    requires 0 <= i < |Pool(c)|
    ensures Contains(Pool(c)[i], KISS)
  {
    var r := Pool(c)[i];
    SignedReplies(c, i);
    if EndsWith(r, SIGNATURE) {
      assert r == r[..|r| - |SIGNATURE|] + SIGNATURE;
      SignatureKisses(r[..|r| - |SIGNATURE|]);
    } else {
      EndsWithAppend(Body(c, i), KISS);
      EndsWithContains(r, KISS);
    }
  }

  /** The alternatives of `/^(hi|hello|hey|greetings|howdy|hiya|sup|what's up|yo)/`. */
  const GREETING_WORDS := ["hi", "hello", "hey", "greetings", "howdy", "hiya", "sup", "what's up", "yo"]
  const PLAY_BUNI_WORDS := ["play buni", "magazine", "about you", "who are you"]
  const SOLANA_WORDS := ["solana", "sol ", "blockchain"]
  const CRYPTO_WORDS := ["crypto", "bitcoin", "token", "nft", "defi", "web3"]
  const FLIRTY_WORDS := ["beautiful", "pretty", "cute", "hot", "sexy", "love you"]

  predicate IsGreeting(s: string)
  {
    LocalChat.StartsWithAny(s, GREETING_WORDS)
  }

  predicate IsPlayBuni(s: string)
  {
    LocalChat.ContainsAny(s, PLAY_BUNI_WORDS) || (Contains(s, "tell me about") && Contains(s, "buni"))
  }

  predicate IsSolana(s: string)
  {
    LocalChat.ContainsAny(s, SOLANA_WORDS)
  }

  predicate IsCrypto(s: string)
  {
    LocalChat.ContainsAny(s, CRYPTO_WORDS)
  }

  predicate IsFlirty(s: string)
  {
    LocalChat.ContainsAny(s, FLIRTY_WORDS) || (Contains(s, "date") && Contains(s, "you"))
  }

  /** `categorizeMessage`: the first test, in source order, the lowercased message passes. */
  function Classify(message: string): (c: Category)
    ensures var s := Lower(message);
      && (c == Greeting <==> IsGreeting(s))
      && (c == PlayBuni <==> !IsGreeting(s) && IsPlayBuni(s))
      && (c == Solana <==> !IsGreeting(s) && !IsPlayBuni(s) && IsSolana(s))
      && (c == Crypto <==> !IsGreeting(s) && !IsPlayBuni(s) && !IsSolana(s) && IsCrypto(s))
      && (c == Flirty <==> !IsGreeting(s) && !IsPlayBuni(s) && !IsSolana(s) && !IsCrypto(s)
                           && IsFlirty(s))
  {
    var s := Lower(message);
    if IsGreeting(s) then Greeting
    else if IsPlayBuni(s) then PlayBuni
    else if IsSolana(s) then Solana
    else if IsCrypto(s) then Crypto
    else if IsFlirty(s) then Flirty
    else Default
  }

  /** The fixed reply for an empty message. */
  const EMPTY_MESSAGE_BODY := "I'd love to chat about Play Buni magazine or crypto! What would you like to know? "
  const EMPTY_MESSAGE_REPLY := EMPTY_MESSAGE_BODY + SIGNATURE

  /** A signed text says "xoxo". */
  lemma {:induction false} SignatureKisses(body: string)
    ensures Contains(body + SIGNATURE, KISS)
  {
    assert SIGNATURE[0..4] == KISS;
    ContainsWitness(SIGNATURE, KISS, 0);
    ContainsInSuffix(body, SIGNATURE, KISS);
  }

  /**
   * `generateFallbackResponse(message)`: the fixed reply for an empty
   * message, otherwise a reply of the classified pool (`pick` stands for the
   * random index).
   */
  function GenerateFallbackResponse(message: string, pick: nat): (r: string)
    ensures message == "" ==> r == EMPTY_MESSAGE_REPLY
    ensures message != "" ==> r in Pool(Classify(message))
    ensures Contains(r, KISS)
  {
    if message == "" then
      SignatureKisses(EMPTY_MESSAGE_BODY);
      EMPTY_MESSAGE_REPLY
    else
      var c := Classify(message);
      var i := pick % |Pool(c)|;
      RepliesKiss(c, i);
      Pool(c)[i]
  }

  /** "what's up" greets here, but not in the local generator. */
  lemma WhatsUpGreetsOnlyHere()
    ensures Classify("what's up") == Greeting && LocalChat.Classify("what's up") == LocalChat.Default
  {
    LocalChat.WhatsUpIsDefault();
    LowerOfLower("what's up");
    assert IsPrefix(GREETING_WORDS[7], "what's up");
  }

  /** "sol " needs its space, so "console" is about Solana only in the local generator. */
  lemma ConsoleSolanaOnlyLocally()
    ensures Classify("console") == Default && LocalChat.Classify("console") == LocalChat.Solana
  {
    LocalChat.ConsoleIsSolana();
    ConsoleIsDefault();
  }

  lemma ConsoleIsDefault()
    ensures Classify("console") == Default
  {
    var s := "console";
    LowerOfLower(s);
    LocalChat.NoneStarts(s, GREETING_WORDS);
    ConsoleMissesWords();
  }

  lemma ConsoleMissesWords()
    ensures !IsPlayBuni("console") && !IsSolana("console") && !IsCrypto("console") && !IsFlirty("console")
  {
    var s := "console";
    LocalChat.NoneContained(s, PLAY_BUNI_WORDS, "pmaw");
    MissingCharNotContained(s, "tell me about", 't');
    LocalChat.NoneContained(s, SOLANA_WORDS, "a b");
    LocalChat.NoneContained(s, CRYPTO_WORDS, "rbtfdw");
    LocalChat.NoneContained(s, FLIRTY_WORDS, "bpuhxv");
    MissingCharNotContained(s, "date", 'd');
  }

  /** "yo" greets, so a compliment starting with "you" is taken for a greeting. */
  lemma YoureCuteGreets()
    ensures Classify("you're cute") == Greeting
  {
    LowerOfLower("you're cute");
    assert IsPrefix(GREETING_WORDS[8], "you're cute");
  }

  /** "who are you" asks about the magazine here. */
  lemma WhoAreYouIsPlayBuni()
    ensures Classify("who are you") == PlayBuni
  {
    var s := "who are you";
    LowerOfLower(s);
    assert !IsGreeting(s);
    assert LocalChat.ContainsAny(s, PLAY_BUNI_WORDS) by {
      ContainsWitness(s, "who are you", 0);
      assert PLAY_BUNI_WORDS[3] == "who are you";
    }
  }

  /** "sol" at the very end has no space after it, so it does not count. */
  lemma SolAtEndMissesSolana()
    ensures !IsSolana("i hold sol")
  {
    var s := "i hold sol";
    MissingCharNotContained(s, "solana", 'a');
    MissingCharNotContained(s, "blockchain", 'b');
    assert s[..7] == "i hold ";
    FirstCharMissing(s, "sol ", 7);
    assert SOLANA_WORDS == ["solana", "sol ", "blockchain"];
  }

  /** Holding sol is no question about Solana: it is answered by the default pool. */
  lemma HoldingSolIsDefault()
    ensures Classify("i hold sol") == Default
  {
    var s := "i hold sol";
    LowerOfLower(s);
    LocalChat.NoneStarts(s, GREETING_WORDS);
    SolAtEndMissesSolana();
    HoldingSolMissesWords();
  }

  lemma HoldingSolMissesWords()
    ensures !IsPlayBuni("i hold sol") && !IsCrypto("i hold sol") && !IsFlirty("i hold sol")
  {
    var s := "i hold sol";
    LocalChat.NoneContained(s, PLAY_BUNI_WORDS, "pmaw");
    MissingCharNotContained(s, "tell me about", 't');
    LocalChat.NoneContained(s, CRYPTO_WORDS, "cbtnfw");
    LocalChat.NoneContained(s, FLIRTY_WORDS, "bpctev");
    MissingCharNotContained(s, "date", 'a');
  }

  /** "date" is flirting only next to "you": "update" is not, "date you" is. */
  lemma DateNeedsYou()
    ensures Classify("update") == Default
    ensures Classify("date you") == Flirty
  {
    UpdateIsDefault();
    DateYouIsFlirty();
  }

  lemma UpdateIsDefault()
    ensures Classify("update") == Default
  {
    var s := "update";
    LowerOfLower(s);
    LocalChat.NoneStarts(s, GREETING_WORDS);
    UpdateMissesWords();
    MissingCharNotContained(s, "tell me about", 'l');
    MissingCharNotContained(s, "you", 'y');
  }

  lemma UpdateMissesWords()
    ensures !LocalChat.ContainsAny("update", PLAY_BUNI_WORDS) && !LocalChat.ContainsAny("update", SOLANA_WORDS)
    ensures !LocalChat.ContainsAny("update", CRYPTO_WORDS) && !LocalChat.ContainsAny("update", FLIRTY_WORDS)
  {
    LocalChat.NoneContained("update", PLAY_BUNI_WORDS, "lmbw");
    LocalChat.NoneContained("update", SOLANA_WORDS, "ssb");
    LocalChat.NoneContained("update", CRYPTO_WORDS, "cbknfw");
    LocalChat.NoneContained("update", FLIRTY_WORDS, "brchsl");
  }

  lemma DateYouIsFlirty()
    ensures Classify("date you") == Flirty
  {
    var s := "date you";
    LowerOfLower(s);
    LocalChat.NoneStarts(s, GREETING_WORDS);
    DateYouMissesWords();
    DateYouFlirts();
  }

  lemma DateYouMissesWords()
    ensures !IsPlayBuni("date you") && !IsSolana("date you") && !IsCrypto("date you")
  {
    LocalChat.NoneContained("date you", PLAY_BUNI_WORDS, "pmbw");
    MissingCharNotContained("date you", "tell me about", 'l');
    LocalChat.NoneContained("date you", SOLANA_WORDS, "ssb");
    LocalChat.NoneContained("date you", CRYPTO_WORDS, "cbknfw");
  }

  lemma DateYouFlirts()
    ensures IsFlirty("date you")
  {
    DateYouHasDate();
    DateYouHasYou();
  }

  lemma DateYouHasDate()
    ensures Contains("date you", "date")
  {
    HasAt("date you", "date", 0);
  }

  lemma DateYouHasYou()
    ensures Contains("date you", "you")
  {
    HasAt("date you", "you", 5);
  }
}
