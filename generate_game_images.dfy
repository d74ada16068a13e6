/**
 * `app/generate-game-images/page.tsx`: the page that asks a
 * `GameImageGenerator` for each game image and keeps the returned data
 * URLs by key. A generator is modelled by its props (a `Request`); what
 * it draws is the parameter `draw`, standing for `canvas.toDataURL`.
 */
module GenerateGameImages {
  import opened Options
  import opened Text
  import opened Numerals

  datatype ImageType = Character | Background | PlatformRace | MemeBattle | SocialConquest | Avatar

  const CHARACTER := "character"
  const BACKGROUND := "background"
  const PLATFORM_RACE := "platform-race"
  const MEME_BATTLE := "meme-battle"
  const SOCIAL_CONQUEST := "social-conquest"
  const AVATAR_PREFIX := "avatar"
  const DEFAULT_TAB := CHARACTER

  function TypeName(t: ImageType): string
  {
    match t
    case Character => CHARACTER
    case Background => BACKGROUND
    case PlatformRace => PLATFORM_RACE
    case MemeBattle => MEME_BATTLE
    case SocialConquest => SOCIAL_CONQUEST
    case Avatar => AVATAR_PREFIX
  }

  /** `${avatarNumber}`, with NaN written out. */
  function NumberText(n: Option<nat>): string
  {
    if n.Some? then ToString(n.value, 10) else "NaN"
  }

  /** `type === "avatar" ? `${type}-${avatarNumber}` : type`. */
  function ImageKey(t: ImageType, avatarNumber: Option<nat>): (key: string)
    ensures t != Avatar ==> key == TypeName(t)
  {
    if t == Avatar then TypeName(t) + "-" + NumberText(avatarNumber) else TypeName(t)
  }

  /** The props `generateImage` gives its generator. */
  datatype Request = Request(imageType: ImageType, avatarNumber: Option<nat>, key: string, width: nat, height: nat)

  /** Characters and avatars are drawn 400 by 400, everything else 800 by 500. */
  function Size(t: ImageType): (size: (nat, nat))
    ensures size.0 == size.1 <==> t == Character || t == Avatar
  {
    if t == Character || t == Avatar then (400, 400) else (800, 500)
  }

  /** `generateImage(type, avatarNumber)`. */
  function GenerateImage(t: ImageType, avatarNumber: Option<nat>): (r: Request)
    ensures r.key == ImageKey(t, avatarNumber) && (r.width, r.height) == Size(t)
  {
    var size := Size(t);
    Request(t, avatarNumber, ImageKey(t, avatarNumber), size.0, size.1)
  }

  /** The text after the first occurrence of `c`, if any. */
  function After(s: string, c: char): (r: Option<string>)
    ensures r.None? <==> c !in s
    decreases |s|
  {
    if |s| == 0 then None
    else if s[0] == c then Some(s[1..])
    else After(s[1..], c)
  }

  /** The text before the first occurrence of `c`, or all of it. */
  function Before(s: string, c: char): (r: string)
    ensures c !in r
    ensures c !in s ==> r == s
  {
    if |s| == 0 || s[0] == c then [] else [s[0]] + Before(s[1..], c)
  }

  /** `type.split("-")[1]`: the second piece, `undefined` without a dash. */
  function SecondPiece(s: string): Option<string>
  {
    match After(s, '-')
    case None => None
    case Some(rest) => Some(Before(rest, '-'))
  }

  /** `Number.parseInt(type.split("-")[1])`; `parseInt(undefined)` is NaN. */
  function AvatarNumberOf(s: string): Option<nat>
  {
    match SecondPiece(s)
    case None => None
    case Some(piece) => ParseInt(piece, 10)
  }

  /** The image type a non-avatar name stands for. */
  function TypeNamed(s: string): Option<ImageType>
  {
    if s == CHARACTER then Some(Character)
    else if s == BACKGROUND then Some(Background)
    else if s == PLATFORM_RACE then Some(PlatformRace)
    else if s == MEME_BATTLE then Some(MemeBattle)
    else if s == SOCIAL_CONQUEST then Some(SocialConquest)
    else None
  }

  /** One step of `generateAllImages`: names starting with "avatar" carry their number. */
  function RequestFor(name: string): (r: Option<Request>)
  {
    if IsPrefix(AVATAR_PREFIX, name) then Some(GenerateImage(Avatar, AvatarNumberOf(name)))
    else match TypeNamed(name)
      case None => None
      case Some(t) => Some(GenerateImage(t, Some(1)))
  }

  /** The key of avatar `n` parses back to `n`. */
  lemma {:induction false} AvatarKeyRoundTrip(n: nat)
    ensures AvatarNumberOf(ImageKey(Avatar, Some(n))) == Some(n)
  {
    var digits := ToString(n, 10);
    var key := ImageKey(Avatar, Some(n));
    assert key == "avatar" + ("-" + digits);
    AfterPrefix("avatar", "-" + digits, '-');
    NoDashInDigits(digits);
    ParseToString(n, 10, "");
    assert digits + "" == digits;
  }

  /** Searching past a prefix without `c` lands in the rest. */
  lemma {:induction false} AfterPrefix(p: string, rest: string, c: char)
    requires c !in p
    ensures After(p + rest, c) == After(rest, c)
  {
    if |p| > 0 {
      assert (p + rest)[1..] == p[1..] + rest;
      AfterPrefix(p[1..], rest, c);
    } else {
      assert p + rest == rest;
    }
  }

  lemma {:induction false} NoDashInDigits(digits: string)
    requires AllDigits(digits, 10)
    ensures '-' !in digits
  {
    forall i | 0 <= i < |digits|
      ensures digits[i] != '-'
    {
      assert IsDigitIn(digits[i], 10);
    }
  }

  /** `generateAllImages` turns the avatar names into the avatar generators they name. */
  lemma {:induction false} AvatarNameRequest(n: nat)
    ensures RequestFor(ImageKey(Avatar, Some(n))) == Some(GenerateImage(Avatar, Some(n)))
  {
    AvatarKeyRoundTrip(n);
    PrefixOfAppend(AVATAR_PREFIX, "-" + ToString(n, 10));
    assert ImageKey(Avatar, Some(n)) == AVATAR_PREFIX + ("-" + ToString(n, 10));
  }

  /** Two generators share a key exactly when they are the same image. */
  lemma {:induction false} KeysDistinct(t: ImageType, n: nat, t': ImageType, n': nat)
    ensures ImageKey(t, Some(n)) == ImageKey(t', Some(n')) <==> t == t' && (t == Avatar ==> n == n')
  {
    if ImageKey(t, Some(n)) == ImageKey(t', Some(n')) {
      var k := ImageKey(t, Some(n));
      if t == Avatar && t' == Avatar {
        AvatarKeyRoundTrip(n);
        AvatarKeyRoundTrip(n');
      } else {
        assert k[0] == TypeName(t)[0] && k[0] == TypeName(t')[0];
      }
    }
  }

  /** `setImages((prev) => ({ ...prev, [key]: dataUrl }))`. */
  function Merge(images: map<string, string>, key: string, dataUrl: string): (r: map<string, string>)
    ensures key in r && r[key] == dataUrl
    ensures forall k :: k != key ==> (k in r <==> k in images) && (k in r ==> r[k] == images[k])
  {
    images[key := dataUrl]
  }

  /** Each generator in turn reporting its drawing. */
  function Rendered(images: map<string, string>, requests: seq<Request>, draw: Request -> string): (r: map<string, string>)
    decreases |requests|
  {
    if |requests| == 0 then images
    else Rendered(Merge(images, requests[0].key, draw(requests[0])), requests[1..], draw)
  }

  /** After all of them have reported, every key is there, and nothing else changed. */
  lemma {:induction false} RenderedHasAll(images: map<string, string>, requests: seq<Request>, draw: Request -> string)
    ensures forall i :: 0 <= i < |requests| ==> requests[i].key in Rendered(images, requests, draw)
    ensures forall k :: (forall i :: 0 <= i < |requests| ==> requests[i].key != k) ==>
      (k in Rendered(images, requests, draw) <==> k in images) &&
      (k in images ==> Rendered(images, requests, draw)[k] == images[k])
    decreases |requests|
  {
    if |requests| > 0 {
      var next := Merge(images, requests[0].key, draw(requests[0]));
      RenderedHasAll(next, requests[1..], draw);
      RenderedKeeps(next, requests[1..], draw, requests[0].key);
      forall i | 0 <= i < |requests|
        ensures requests[i].key in Rendered(images, requests, draw)
      {
        if i > 0 {
          assert requests[1..][i - 1] == requests[i];
        }
      }
      forall k | forall i :: 0 <= i < |requests| ==> requests[i].key != k
        ensures (k in Rendered(images, requests, draw) <==> k in images) &&
          (k in images ==> Rendered(images, requests, draw)[k] == images[k])
      {
        assert forall i :: 0 <= i < |requests[1..]| ==> requests[1..][i].key == requests[i + 1].key;
        assert requests[0].key != k;
      }
    }
  }

  /** A key once present stays present. */
  lemma {:induction false} RenderedKeeps(images: map<string, string>, requests: seq<Request>, draw: Request -> string, k: string)
    requires k in images
    ensures k in Rendered(images, requests, draw)
    decreases |requests|
  {
    if |requests| > 0 {
      RenderedKeeps(Merge(images, requests[0].key, draw(requests[0])), requests[1..], draw, k);
    }
  }

  /** The names `generateAllImages` walks through. */
  const IMAGE_TYPES := [CHARACTER, BACKGROUND, PLATFORM_RACE, MEME_BATTLE, SOCIAL_CONQUEST,
                        "avatar-1", "avatar-2", "avatar-3"]

  /** The eight generators the page renders in its hidden block. */
  function HiddenGenerators(): seq<Request>
  {
    [GenerateImage(Character, Some(1)), GenerateImage(Background, Some(1)), GenerateImage(PlatformRace, Some(1)),
     GenerateImage(MemeBattle, Some(1)), GenerateImage(SocialConquest, Some(1)),
     GenerateImage(Avatar, Some(1)), GenerateImage(Avatar, Some(2)), GenerateImage(Avatar, Some(3))]
  }

  /** What `f` gives for each of `xs`, in order, dropping the `None`s. */
  function Collect<A, B>(xs: seq<A>, f: A -> Option<B>): seq<B>
  {
    if |xs| == 0 then []
    else
      var last := f(xs[|xs| - 1]);
      Collect(xs[..|xs| - 1], f) + (if last.Some? then [last.value] else [])
  }

  /** The generators `generateAllImages` builds for `names`, in order, unknown names skipped. */
  function Requests(names: seq<string>): seq<Request>
  {
    Collect(names, RequestFor)
  }

  /** The avatar names are the keys of the avatars they stand for. */
  lemma AvatarNames()
    ensures ImageKey(Avatar, Some(1)) == "avatar-1"
    ensures ImageKey(Avatar, Some(2)) == "avatar-2"
    ensures ImageKey(Avatar, Some(3)) == "avatar-3"
  {
    assert ToString(1, 10) == "1" && ToString(2, 10) == "2" && ToString(3, 10) == "3";
  }

  /** A non-avatar type's name asks for that type's generator. */
  lemma {:induction false} TypeNameRequest(t: ImageType)
    requires t != Avatar
    ensures RequestFor(TypeName(t)) == Some(GenerateImage(t, Some(1)))
  {
    DiffersAt(AVATAR_PREFIX, TypeName(t), 1);
  }

  /** When `f` answers every element, the collection is its answers, one per element. */
  lemma {:induction false} CollectAll<A, B>(xs: seq<A>, ys: seq<B>, f: A -> Option<B>)
    requires |xs| == |ys|
    requires forall k :: 0 <= k < |xs| ==> f(xs[k]) == Some(ys[k])
    ensures Collect(xs, f) == ys
    decreases |xs|
  {
    if |xs| > 0 {
      var n := |xs| - 1;
      CollectAll(xs[..n], ys[..n], f);
      assert ys == ys[..n] + [ys[n]];
    }
  }

  /** Each name `generateAllImages` walks through asks for the generator rendered in its place. */
  lemma {:induction false} ImageTypeRequest(k: nat)
    requires k < |IMAGE_TYPES|
    ensures RequestFor(IMAGE_TYPES[k]) == Some(HiddenGenerators()[k])
  {
    if k < 5 {
      var t := TypeAt(k);
      TypeNameRequest(t);
      assert IMAGE_TYPES[k] == TypeName(t);
    } else {
      AvatarNames();
      var n := k - 4;
      assert IMAGE_TYPES[k] == ImageKey(Avatar, Some(n));
      AvatarAtRequest(n, IMAGE_TYPES[k]);
    }
  }

  /** The type of the `k`-th of the first five names. */
  function TypeAt(k: nat): (t: ImageType)
    requires k < 5
    ensures t != Avatar && HiddenGenerators()[k] == GenerateImage(t, Some(1))
  {
    if k == 0 then Character else if k == 1 then Background else if k == 2 then PlatformRace
    else if k == 3 then MemeBattle else SocialConquest
  }

  /** The last three names ask for the three avatars. */
  lemma {:induction false} AvatarAtRequest(n: nat, name: string)
    requires 1 <= n <= 3 && name == ImageKey(Avatar, Some(n))
    ensures RequestFor(name) == Some(HiddenGenerators()[n + 4])
  {
    AvatarNameRequest(n);
  }

  /**
   * The generators `generateAllImages` builds on mount are exactly the
   * eight the page renders; since it drops them, the call adds nothing.
   */
  lemma GenerateAllMatchesRender()
    ensures Requests(IMAGE_TYPES) == HiddenGenerators()
  {
    forall k | 0 <= k < |IMAGE_TYPES|
      ensures RequestFor(IMAGE_TYPES[k]) == Some(HiddenGenerators()[k])
    {
      ImageTypeRequest(k);
    }
    CollectAll(IMAGE_TYPES, HiddenGenerators(), RequestFor);
  }

  /** Each rendered generator's key is the name in its place. */
  lemma {:induction false} HiddenKey(k: nat)
    requires k < |IMAGE_TYPES|
    ensures HiddenGenerators()[k].key == IMAGE_TYPES[k]
  {
    if k >= 5 {
      AvatarNames();
    }
  }

  /** Once the rendered generators have reported, every name the tabs show has its image. */
  lemma {:induction false} EveryTabFilled(images: map<string, string>, draw: Request -> string)
    ensures forall k :: 0 <= k < |IMAGE_TYPES| ==> IMAGE_TYPES[k] in Rendered(images, HiddenGenerators(), draw)
  {
    var g := HiddenGenerators();
    RenderedHasAll(images, g, draw);
    forall k | 0 <= k < |IMAGE_TYPES|
      ensures IMAGE_TYPES[k] in Rendered(images, g, draw)
    {
      HiddenKey(k);
    }
  }

  /** Every collected value comes from an element, and every answered element is collected. */
  lemma {:induction false} CollectMembers<A, B>(xs: seq<A>, f: A -> Option<B>)
    ensures forall y :: y in Collect(xs, f) ==> exists x :: x in xs && f(x) == Some(y)
    ensures forall x :: x in xs && f(x).Some? ==> f(x).value in Collect(xs, f)
    decreases |xs|
  {
    if |xs| > 0 {
      var n := |xs| - 1;
      CollectMembers(xs[..n], f);
      assert xs == xs[..n] + [xs[n]];
    }
  }

  class GameImagesPage {
    var images: map<string, string>
    var activeTab: string

    constructor ()
      ensures images == map[] && activeTab == DEFAULT_TAB
    {
      images := map[];
      activeTab := DEFAULT_TAB;
    }

    method SetActiveTab(tab: string)
      modifies this
      ensures activeTab == tab && images == old(images)
    {
      activeTab := tab;
    }

    /** `handleGenerated(dataUrl)` of the generator for `key`. */
    method HandleGenerated(key: string, dataUrl: string)
      modifies this
      ensures images == Merge(old(images), key, dataUrl) && activeTab == old(activeTab)
    {
      images := images[key := dataUrl];
    }

    /** The generators `generateAllImages` asks for, one per name it knows, in order. */
    method GenerateAllImages(imageTypes: seq<string>) returns (requests: seq<Request>)
      ensures requests == Requests(imageTypes)
    {
      requests := [];
      var i := 0;
      while i < |imageTypes|
        invariant 0 <= i <= |imageTypes|
        invariant requests == Collect(imageTypes[..i], RequestFor)
      {
        var request := RequestFor(imageTypes[i]);
        assert imageTypes[..i + 1][..i] == imageTypes[..i];
        if request.Some? {
          requests := requests + [request.value];
        }
        i := i + 1;
      }
      assert imageTypes[..i] == imageTypes;
    }

    /** The generators mounted: each reports its drawing through `handleGenerated`. */
    method Mount(requests: seq<Request>, draw: Request -> string)
      modifies this
      ensures images == Rendered(old(images), requests, draw) && activeTab == old(activeTab)
    {
      var i := 0;
      while i < |requests|
        invariant 0 <= i <= |requests|
        invariant Rendered(images, requests[i..], draw) == Rendered(old(images), requests, draw)
        invariant activeTab == old(activeTab)
      {
        assert requests[i..][1..] == requests[i + 1..];
        HandleGenerated(requests[i].key, draw(requests[i]));
        i := i + 1;
      }
    }
  }
}
