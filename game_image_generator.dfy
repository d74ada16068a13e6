/**
 * `components/game-image-generator.tsx`: the colour helper `shadeColor`
 * and the background choice and square size of `generatePlayerAvatar`.
 * The canvas drawing itself is not modelled. A JavaScript number that may
 * be NaN is an `Option<int>`, with `None` for NaN.
 */
module GameImageGenerator {
  import opened Options
  import opened Text
  import opened Numerals

  const BLUE := "#3b82f6"
  const GREEN := "#10b981"
  const RED := "#f43f5e"
  const PURPLE := "#8b5cf6"
  /** The percentage the avatar's radial gradient darkens its edge by. */
  const EDGE_SHADE := -30

  /** A `#rrggbb` colour written with lowercase hex digits. */
  predicate IsHexColor(c: string)
  {
    && |c| == 7 && c[0] == '#'
    && IsLowerHexDigit(c[1]) && IsLowerHexDigit(c[2]) && IsLowerHexDigit(c[3])
    && IsLowerHexDigit(c[4]) && IsLowerHexDigit(c[5]) && IsLowerHexDigit(c[6])
  }

  /** The two digits of channel `k` (red, green, blue) of a seven-character colour. */
  function Pair(color: string, k: nat): string
    requires |color| == 7 && k < 3
  {
    color[2 * k + 1..2 * k + 3]
  }

  /** The value of channel `k` of a `#rrggbb` colour. */
  function ChannelOf(c: string, k: nat): (v: nat)
    requires IsHexColor(c) && k < 3
    ensures v < 256
  {
    var p := Pair(c, k);
    assert IsLowerHexDigit(p[0]) && IsLowerHexDigit(p[1]);
    assert IsDigitIn(p[0], 16) && IsDigitIn(p[1], 16);
    DigitsValue2(p);
    DigitsValue(p, 16)
  }

  /** A seven-character colour is its `#` and its three digit pairs. */
  lemma {:induction false} SplitColor(color: string)
    requires |color| == 7 && color[0] == '#'
    ensures color == "#" + Pair(color, 0) + Pair(color, 1) + Pair(color, 2)
  {
    assert color == color[..1] + color[1..3] + color[3..5] + color[5..];
  }

  /** No channel of `a` is above the same channel of `b`. */
  predicate NoLighter(a: string, b: string)
    requires IsHexColor(a) && IsHexColor(b)
  {
    ChannelOf(a, 0) <= ChannelOf(b, 0) && ChannelOf(a, 1) <= ChannelOf(b, 1) && ChannelOf(a, 2) <= ChannelOf(b, 2)
  }

  /**
   * One channel of `shadeColor`: scaled by `(100 + percent) / 100` and
   * floored, then capped at 255 and raised to 0. NaN fails both
   * comparisons and so ends as 255.
   */
  function Shade(c: Option<int>, percent: int): (v: int)
    ensures 0 <= v <= 255
    ensures c.None? ==> v == 255
  {
    match c
    case None => 255
    case Some(x) =>
      var scaled := (x * (100 + percent)) / 100;
      var capped := if scaled < 255 then scaled else 255;
      if capped > 0 then capped else 0
  }

  /**
   * What a shaded channel means: the floor of the scaled value where that
   * lies strictly between 0 and 255, and a clamp outside.
   */
  lemma {:induction false} ShadeMeaning(c: int, percent: int)
    ensures var v := Shade(Some(c), percent);
      && (0 < v < 255 ==> v * 100 <= c * (100 + percent) < v * 100 + 100)
      && (v == 0 <==> c * (100 + percent) < 100)
      && (v == 255 <==> c * (100 + percent) >= 25500)
  {
  }

  /** The three channels of `color`, as `shadeColor` reads them. */
  function Channel(color: string, k: nat): (c: Option<int>)
    requires k < 3
  {
    ParseHex(Substring(color, 2 * k + 1, 2 * k + 3))
  }

  /** `#${RR}${GG}${BB}` for three channels in range. */
  function HexOf(red: int, green: int, blue: int): (c: string)
    requires 0 <= red <= 255 && 0 <= green <= 255 && 0 <= blue <= 255
    ensures IsHexColor(c)
  {
    "#" + Hex2(red) + Hex2(green) + Hex2(blue)
  }

  /** Reading a written colour back gives its channels. */
  lemma {:induction false} HexOfChannels(red: int, green: int, blue: int)
    requires 0 <= red <= 255 && 0 <= green <= 255 && 0 <= blue <= 255
    ensures Pair(HexOf(red, green, blue), 0) == Hex2(red)
    ensures Pair(HexOf(red, green, blue), 1) == Hex2(green)
    ensures Pair(HexOf(red, green, blue), 2) == Hex2(blue)
  {
    var r := HexOf(red, green, blue);
    assert r[1..3] == Hex2(red) && r[3..5] == Hex2(green) && r[5..7] == Hex2(blue);
  }

  /** What `shadeColor(color, percent)` returns. */
  function Shaded(color: string, percent: int): (r: string)
    ensures IsHexColor(r)
  {
    HexOf(Shade(Channel(color, 0), percent), Shade(Channel(color, 1), percent), Shade(Channel(color, 2), percent))
  }

  /** Reading the result back gives each shaded channel. */
  lemma {:induction false} ShadedChannels(color: string, percent: int)
    ensures ChannelOf(Shaded(color, percent), 0) == Shade(Channel(color, 0), percent)
    ensures ChannelOf(Shaded(color, percent), 1) == Shade(Channel(color, 1), percent)
    ensures ChannelOf(Shaded(color, percent), 2) == Shade(Channel(color, 2), percent)
  {
    var red, green, blue := Shade(Channel(color, 0), percent), Shade(Channel(color, 1), percent), Shade(Channel(color, 2), percent);
    HexOfChannels(red, green, blue);
  }

  /** `shadeColor`: the channels are reassigned through the scale and the two clamps. */
  method ShadeColor(color: string, percent: int) returns (r: string)
    ensures r == Shaded(color, percent)
  {
    var R := Channel(color, 0);
    var G := Channel(color, 1);
    var B := Channel(color, 2);

    R := Scale(R, percent);
    G := Scale(G, percent);
    B := Scale(B, percent);

    R := CapAt255(R);
    G := CapAt255(G);
    B := CapAt255(B);

    R := if R.value > 0 then R else Some(0);
    G := if G.value > 0 then G else Some(0);
    B := if B.value > 0 then B else Some(0);

    assert R.value == Shade(Channel(color, 0), percent);
    assert G.value == Shade(Channel(color, 1), percent);
    assert B.value == Shade(Channel(color, 2), percent);
    r := HexOf(R.value, G.value, B.value);
  }

  /** `Math.floor((c * (100 + percent)) / 100)`; NaN stays NaN. */
  function Scale(c: Option<int>, percent: int): Option<int>
  {
    match c
    case None => None
    case Some(x) => Some((x * (100 + percent)) / 100)
  }

  /** `c < 255 ? c : 255`: NaN compares false. */
  function CapAt255(c: Option<int>): (r: Option<int>)
    ensures r.Some? && r.value <= 255
  {
    if c.Some? && c.value < 255 then c else Some(255)
  }

  /** Two lowercase hex digits with the same value are the same character. */
  lemma {:induction false} LowerDigitUnique(c: char, d: char)
    requires IsLowerHexDigit(c) && IsLowerHexDigit(d) && DigitValue(c) == DigitValue(d)
    ensures c == d
  {
  }

  lemma {:induction false} DigitsValue2(s: string)
    requires |s| == 2 && AllDigits(s, 16)
    ensures DigitsValue(s, 16) == DigitValue(s[0]) * 16 + DigitValue(s[1])
  {
    assert s[..1][..0] == [];
    assert s[..1][0] == s[0];
    assert DigitsValue(s[..1], 16) == DigitValue(s[0]);
  }

  /** Two lowercase hex digits are written back unchanged by `toString(16).padStart(2, "0")`. */
  lemma {:induction false} Hex2OfDigits(s: string)
    requires |s| == 2 && IsLowerHexDigit(s[0]) && IsLowerHexDigit(s[1])
    ensures AllDigits(s, 16)
    ensures DigitsValue(s, 16) < 256 && Hex2(DigitsValue(s, 16)) == s
  {
    DigitsValue2(s);
    SameValueSameDigits(Hex2(DigitsValue(s, 16)), s);
  }

  /** Two pairs of lowercase hex digits with the same value are equal. */
  lemma {:induction false} SameValueSameDigits(r: string, s: string)
    requires |r| == 2 && IsLowerHexDigit(r[0]) && IsLowerHexDigit(r[1])
    requires |s| == 2 && IsLowerHexDigit(s[0]) && IsLowerHexDigit(s[1])
    requires DigitsValue(r, 16) == DigitsValue(s, 16)
    ensures r == s
  {
    DigitsValue2(r);
    DigitsValue2(s);
    PairUnique(DigitValue(r[0]), DigitValue(r[1]), DigitValue(s[0]), DigitValue(s[1]));
    LowerDigitUnique(r[0], s[0]);
    LowerDigitUnique(r[1], s[1]);
  }

  /** Two base-16 digit pairs with the same value are the same pair. */
  lemma {:induction false} PairUnique(a: int, b: int, c: int, d: int)
    requires 0 <= a < 16 && 0 <= b < 16 && 0 <= c < 16 && 0 <= d < 16
    requires a * 16 + b == c * 16 + d
    ensures a == c && b == d
  {
  }

  /** A shade of 0 leaves a channel in range unchanged. */
  lemma {:induction false} ShadeZero(c: int)
    requires 0 <= c <= 255
    ensures Shade(Some(c), 0) == c
  {
  }

  /** A non-positive percentage never raises a channel in range. */
  lemma {:induction false} NegativeShadeDarkens(c: int, percent: int)
    requires 0 <= c <= 255 && percent <= 0
    ensures Shade(Some(c), percent) <= c
  {
    assert c * (100 + percent) <= c * 100 by {
      assert c * (100 + percent) == c * 100 + c * percent;
      assert c * percent <= 0;
    }
  }

  /** A non-negative percentage never lowers a channel in range. */
  lemma {:induction false} PositiveShadeLightens(c: int, percent: int)
    requires 0 <= c <= 255 && percent >= 0
    ensures Shade(Some(c), percent) >= c
  {
    assert c * (100 + percent) >= c * 100 by {
      assert c * (100 + percent) == c * 100 + c * percent;
      assert c * percent >= 0;
    }
  }

  /** Each channel of a `#rrggbb` colour is read as the value of its two digits. */
  lemma {:induction false} HexColorChannel(color: string, k: nat)
    requires IsHexColor(color) && k < 3
    ensures AllDigits(Pair(color, k), 16)
    ensures Channel(color, k) == Some(ChannelOf(color, k) as int)
    ensures ChannelOf(color, k) < 256
    ensures Hex2(ChannelOf(color, k)) == Pair(color, k)
  {
    var s := Pair(color, k);
    assert s[0] == color[2 * k + 1] && s[1] == color[2 * k + 2];
    Hex2OfDigits(s);
    ParseHexOfDigits(s);
  }

  /** Shading a lowercase `#rrggbb` colour by 0 gives it back. */
  lemma {:induction false} ShadeZeroKeepsColor(color: string)
    requires IsHexColor(color)
    ensures Shaded(color, 0) == color
  {
    ChannelUnshaded(color, 0);
    ChannelUnshaded(color, 1);
    ChannelUnshaded(color, 2);
    HexOfChannelsOf(color);
  }

  lemma {:induction false} ChannelUnshaded(color: string, k: nat)
    requires IsHexColor(color) && k < 3
    ensures Shade(Channel(color, k), 0) == ChannelOf(color, k)
  {
    HexColorChannel(color, k);
    ShadeZero(ChannelOf(color, k));
  }

  /** Writing a lowercase colour's own channels gives it back. */
  lemma {:induction false} HexOfChannelsOf(color: string)
    requires IsHexColor(color)
    ensures HexOf(ChannelOf(color, 0), ChannelOf(color, 1), ChannelOf(color, 2)) == color
  {
    HexColorChannel(color, 0);
    HexColorChannel(color, 1);
    HexColorChannel(color, 2);
    SplitColor(color);
  }

  /** Shading a lowercase colour by a non-positive percentage never raises any channel. */
  lemma {:induction false} DarkerShade(color: string, percent: int)
    requires IsHexColor(color) && percent <= 0
    ensures NoLighter(Shaded(color, percent), color)
  {
    ShadedChannels(color, percent);
    DarkerChannel(color, percent, 0);
    DarkerChannel(color, percent, 1);
    DarkerChannel(color, percent, 2);
  }

  lemma {:induction false} DarkerChannel(color: string, percent: int, k: nat)
    requires IsHexColor(color) && percent <= 0 && k < 3
    ensures Shade(Channel(color, k), percent) <= ChannelOf(color, k)
  {
    HexColorChannel(color, k);
    NegativeShadeDarkens(ChannelOf(color, k), percent);
  }

  /** The avatar's background colour: one per avatar number 1-3, purple for anything else. */
  function Background(avatarNumber: int): (c: string)
    ensures IsHexColor(c)
  {
    if avatarNumber == 1 then BLUE
    else if avatarNumber == 2 then GREEN
    else if avatarNumber == 3 then RED
    else PURPLE
  }

  /** Two avatars share a background exactly when both are the same number or neither is 1-3. */
  lemma {:induction false} BackgroundsDistinct(n: int, m: int)
    ensures Background(n) == Background(m) <==> n == m || (n !in {1, 2, 3} && m !in {1, 2, 3})
  {
    assert BLUE[1] != GREEN[1] && BLUE[1] != RED[1] && BLUE[1] != PURPLE[1];
    assert GREEN[1] != RED[1] && GREEN[1] != PURPLE[1] && RED[1] != PURPLE[1];
  }

  /**
   * `generatePlayerAvatar`, as far as its colours and size go: the square
   * side, the background switch, and the darker gradient edge.
   */
  method GeneratePlayerAvatar(width: int, height: int, avatarNumber: int) returns (size: int, center: string, edge: string)
    ensures size <= width && size <= height && (size == width || size == height)
    ensures center == Background(avatarNumber)
    ensures edge == Shaded(center, EDGE_SHADE)
  {
    size := if width < height then width else height;
    var bgColor;
    if avatarNumber == 1 {
      bgColor := BLUE;
    } else if avatarNumber == 2 {
      bgColor := GREEN;
    } else if avatarNumber == 3 {
      bgColor := RED;
    } else {
      bgColor := PURPLE;
    }
    center := bgColor;
    edge := ShadeColor(bgColor, EDGE_SHADE);
  }

  /** The gradient's edge is no lighter than its centre in any channel. */
  lemma {:induction false} AvatarEdgeDarker(avatarNumber: int)
    ensures NoLighter(Shaded(Background(avatarNumber), EDGE_SHADE), Background(avatarNumber))
  {
    DarkerShade(Background(avatarNumber), EDGE_SHADE);
  }
}
