/**
 * `components/enhanced-edition-card.tsx`: a magazine edition's card, which
 * expands into a modal, and the `isLightColor` test that picks the text
 * colour of the modal's button. The 3D card effect and the images are not
 * modelled; `encodeURIComponent` is the parameter `encode`.
 */
module EnhancedEditionCard {
  import opened Options
  import opened Text
  import opened Numerals

  /** The brightness, out of 255, above which a colour counts as light. */
  const LIGHT_ABOVE := 155.0
  const TALK_PATH := "/chat?topic=edition&title="

  /** `parseInt(hex.substr(2 * k, 2), 16)` where `hex` is the colour without its first `#`. */
  function CardChannel(color: string, k: nat): Option<int>
    requires k < 3
  {
    ParseHex(Substring(ReplaceFirst(color, "#"), 2 * k, 2 * k + 2))
  }

  /** `(r * 299 + g * 587 + b * 114) / 1000`. */
  function Brightness(r: int, g: int, b: int): real
  {
    (r * 299 + g * 587 + b * 114) as real / 1000.0
  }

  /** `brightness > 155`; a NaN channel makes the brightness NaN and the test false. */
  predicate IsLight(r: Option<int>, g: Option<int>, b: Option<int>)
  {
    r.Some? && g.Some? && b.Some? && Brightness(r.value, g.value, b.value) > LIGHT_ABOVE
  }

  /** `isLightColor(color)`. */
  predicate IsLightColor(color: string)
  {
    IsLight(CardChannel(color, 0), CardChannel(color, 1), CardChannel(color, 2))
  }

  /** On integer channels the test is exactly `299r + 587g + 114b > 155000`. */
  lemma {:induction false} LightIffWeighted(r: int, g: int, b: int)
    ensures Brightness(r, g, b) > LIGHT_ABOVE <==> r * 299 + g * 587 + b * 114 > 155000
  {
    var w := r * 299 + g * 587 + b * 114;
    if w > 155000 {
      assert w as real >= 155001.0;
    } else {
      assert w as real <= 155000.0;
    }
  }

  /** Raising channels never turns a light colour dark. */
  lemma {:induction false} RaisingKeepsLight(r: int, g: int, b: int, r': int, g': int, b': int)
    requires r <= r' && g <= g' && b <= b'
    requires IsLight(Some(r), Some(g), Some(b))
    ensures IsLight(Some(r'), Some(g'), Some(b'))
  {
    LightIffWeighted(r, g, b);
    LightIffWeighted(r', g', b');
  }

  /** White is light. */
  lemma WhiteIsLight()
    ensures IsLight(Some(255), Some(255), Some(255))
  {
    LightIffWeighted(255, 255, 255);
  }

  /** Black is dark, and so is any colour with an unreadable channel. */
  lemma {:induction false} BlackIsDark(g: Option<int>, b: Option<int>)
    ensures !IsLight(Some(0), Some(0), Some(0))
    ensures !IsLight(None, g, b)
  {
    LightIffWeighted(0, 0, 0);
  }

  /** The channels of `#rrggbb` are read from the two digits after the `#`. */
  lemma {:induction false} ChannelsAfterHash(color: string)
    requires |color| == 7 && color[0] == '#'
    ensures CardChannel(color, 0) == ParseHex(color[1..3])
    ensures CardChannel(color, 1) == ParseHex(color[3..5])
    ensures CardChannel(color, 2) == ParseHex(color[5..7])
  {
    assert color[..1] == "#";
    IsPrefixSlice("#", color);
    assert IsPrefix("#", color);
    var hex := ReplaceFirst(color, "#");
    assert hex == color[1..];
    forall k | 0 <= k < 3
      ensures hex[2 * k..2 * k + 2] == color[2 * k + 1..2 * k + 3]
    {
      assert hex[2 * k..2 * k + 2][0] == color[2 * k + 1..2 * k + 3][0];
      assert hex[2 * k..2 * k + 2][1] == color[2 * k + 1..2 * k + 3][1];
    }
  }

  /** For a `#rrggbb` colour, `isLightColor` tests the values read from its three digit pairs. */
  lemma {:induction false} LightFromPairs(color: string)
    requires |color| == 7 && color[0] == '#'
    ensures IsLightColor(color) <==> IsLight(ParseHex(color[1..3]), ParseHex(color[3..5]), ParseHex(color[5..7]))
  {
    ChannelsAfterHash(color);
  }

  /**
   * For a `#rrggbb` colour written in hex digits, `isLightColor` is the
   * weighted test on the values of its three digit pairs.
   */
  lemma {:induction false} HexColorLight(color: string)
    requires |color| == 7 && color[0] == '#'
    requires AllDigits(color[1..3], 16) && AllDigits(color[3..5], 16) && AllDigits(color[5..7], 16)
    ensures IsLightColor(color) <==>
      DigitsValue(color[1..3], 16) * 299 + DigitsValue(color[3..5], 16) * 587 + DigitsValue(color[5..7], 16) * 114 > 155000
  {
    LightFromPairs(color);
    ParseHexOfDigits(color[1..3]);
    ParseHexOfDigits(color[3..5]);
    ParseHexOfDigits(color[5..7]);
    LightIffWeighted(DigitsValue(color[1..3], 16), DigitsValue(color[3..5], 16), DigitsValue(color[5..7], 16));
  }

  /** The button's text colour. */
  function TextColor(color: string): (c: string)
    ensures c == "black" <==> IsLightColor(color)
  {
    if IsLightColor(color) then "black" else "white"
  }

  /** Where a click lands. */
  datatype Target = Card | Backdrop | CloseButton | Content | TalkButton

  class EditionCard {
    const title: string
    const color: string
    var isExpanded: bool

    constructor (title: string, color: string)
      ensures this.title == title && this.color == color && !isExpanded
    {
      this.title := title;
      this.color := color;
      isExpanded := false;
    }

    /** The collapsed view shows only the card; the expanded one only the modal. */
    predicate Shown(target: Target)
      reads this
    {
      target == Card <==> !isExpanded
    }

    /**
     * A click on a shown target. The card expands; the backdrop and the
     * close button collapse; the content stops the event before it reaches
     * the backdrop, and the talk button (inside the content) navigates to
     * the chat about this edition.
     */
    method Click(target: Target, encode: string -> string) returns (navigate: Option<string>)
      requires Shown(target)
      modifies this
      ensures target == Card ==> isExpanded
      ensures target == Backdrop || target == CloseButton ==> !isExpanded
      ensures target == Content || target == TalkButton ==> isExpanded == old(isExpanded)
      ensures navigate.Some? <==> target == TalkButton
      ensures navigate.Some? ==> navigate.value == TALK_PATH + encode(title)
    {
      navigate := None;
      match target {
        case Card => isExpanded := true;
        case Backdrop => isExpanded := false;
        case CloseButton => isExpanded := false;
        case Content =>
        case TalkButton => navigate := Some(TALK_PATH + encode(title));
      }
    }
  }
}
