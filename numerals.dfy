/**
 * Integer <-> text conversions used by the game-image keys, the colour
 * helpers and the `local-<ms>` identifiers: `Number.prototype.toString(radix)`,
 * `parseInt(s, radix)` and `padStart(2, "0")`, for radix 10 and 16.
 */
module Numerals {
  import opened Options
  import opened Text

  predicate IsRadix(radix: int)
  {
    radix == 10 || radix == 16
  }

  /** The value of a digit character, in any case, or -1. */
  function DigitValue(c: char): int
  {
    if '0' <= c <= '9' then c as int - '0' as int
    else if 'a' <= c <= 'f' then c as int - 'a' as int + 10
    else if 'A' <= c <= 'F' then c as int - 'A' as int + 10
    else -1
  }

  predicate IsDigitIn(c: char, radix: int)
  {
    0 <= DigitValue(c) < radix
  }

  /** The digits `toString(16)` writes. */
  predicate IsLowerHexDigit(c: char)
  {
    '0' <= c <= '9' || 'a' <= c <= 'f'
  }

  predicate AllDigits(s: string, radix: int)
  {
    forall i :: 0 <= i < |s| ==> IsDigitIn(s[i], radix)
  }

  /** The lowercase digit character `toString(radix)` writes for `d`. */
  function DigitChar(d: nat): (c: char)
    requires d < 16
    ensures DigitValue(c) == d
    ensures IsLowerHexDigit(c)
  {
    if d < 10 then ('0' as int + d) as char else ('a' as int + d - 10) as char
  }

  /** The value of a run of digits, most significant first. */
  function DigitsValue(s: string, radix: int): nat
    requires IsRadix(radix) && AllDigits(s, radix)
  {
    if |s| == 0 then 0
    else DigitsValue(s[..|s| - 1], radix) * radix + DigitValue(s[|s| - 1])
  }

  /** Length of the run of digits `s` starts with. */
  function LeadingDigits(s: string, radix: int): (n: nat)
    ensures n <= |s|
    ensures AllDigits(s[..n], radix)
    ensures n < |s| ==> !IsDigitIn(s[n], radix)
  {
    if |s| == 0 || !IsDigitIn(s[0], radix) then 0
    else
      var k := LeadingDigits(s[1..], radix);
      assert s[..k + 1] == [s[0]] + s[1..][..k];
      1 + k
  }

  /**
   * `parseInt(s, radix)`: the value of the leading digit run, `None` for
   * NaN when `s` does not start with a digit.
   */
  function ParseInt(s: string, radix: int): (r: Option<nat>)
    requires IsRadix(radix)
    ensures r.None? <==> (|s| == 0 || !IsDigitIn(s[0], radix))
  {
    var n := LeadingDigits(s, radix);
    if n == 0 then None else Some(DigitsValue(s[..n], radix))
  }

  /** `n.toString(radix)`: the shortest digit string, lowercase. */
  function ToString(n: nat, radix: int): (s: string)
    requires IsRadix(radix)
    ensures |s| > 0 && AllDigits(s, radix)
    ensures |s| > 1 ==> s[0] != '0'
    ensures forall i :: 0 <= i < |s| ==> IsLowerHexDigit(s[i])
  {
    if n < radix then [DigitChar(n)]
    else ToString(n / radix, radix) + [DigitChar(n % radix)]
  }

  /** `toString` is inverted by the digit value. */
  lemma {:induction false} ToStringValue(n: nat, radix: int)
    requires IsRadix(radix)
    ensures DigitsValue(ToString(n, radix), radix) == n
  {
    if n >= radix {
      var s := ToString(n, radix);
      ToStringValue(n / radix, radix);
      assert s[..|s| - 1] == ToString(n / radix, radix);
    }
  }

  /**
   * Parsing what `toString` wrote gives the number back, also when other
   * text that does not start with a digit follows it.
   */
  lemma {:induction false} ParseToString(n: nat, radix: int, rest: string)
    requires IsRadix(radix)
    requires |rest| == 0 || !IsDigitIn(rest[0], radix)
    ensures ParseInt(ToString(n, radix) + rest, radix) == Some(n)
  {
    var s := ToString(n, radix);
    var t := s + rest;
    LeadingRun(s, rest, radix);
    assert t[..|s|] == s;
    ToStringValue(n, radix);
  }

  lemma {:induction false} LeadingRun(s: string, rest: string, radix: int)
    requires AllDigits(s, radix)
    requires |rest| == 0 || !IsDigitIn(rest[0], radix)
    ensures LeadingDigits(s + rest, radix) == |s|
  {
    if |s| > 0 {
      LeadingRun(s[1..], rest, radix);
      assert (s + rest)[1..] == s[1..] + rest;
    } else {
      assert s + rest == rest;
    }
  }

  /** `padStart(2, "0")`. */
  function PadStart2(s: string): (r: string)
    ensures |s| >= 2 ==> r == s
    ensures |s| < 2 ==> |r| == 2 && r[2 - |s|..] == s
    ensures forall i :: 0 <= i < |r| - |s| ==> r[i] == '0'
    decreases 2 - |s|
  {
    if |s| >= 2 then s else PadStart2("0" + s)
  }

  /** Two lowercase hex digits for a channel value 0..255. */
  function Hex2(v: nat): (r: string)
    requires v < 256
    ensures |r| == 2 && AllDigits(r, 16)
    ensures DigitsValue(r, 16) == v
    ensures IsLowerHexDigit(r[0]) && IsLowerHexDigit(r[1])
  {
    var s := ToString(v, 16);
    ToStringValue(v, 16);
    var r := PadStart2(s);
    if |s| == 1 then
      assert r == "0" + s;
      assert r[..1] == "0";
      r
    else
      assert |s| == 2 by {
        if |s| > 2 { BigHex(v, s); }
      }
      r
  }

  lemma {:induction false} BigHex(v: nat, s: string)
    requires v < 256 && s == ToString(v, 16)
    ensures |s| <= 2
  {
    if v >= 16 {
      assert v / 16 < 16;
    }
  }

  /**
   * `Number.parseInt(text, 16)`: leading whitespace, an optional sign and
   * an optional `0x` are skipped, then the leading hex digits are read;
   * NaN when no digit follows.
   */
  function ParseHex(text: string): (r: Option<int>)
  {
    var t := SkipSpaces(text);
    var negative := |t| > 0 && t[0] == '-';
    match ParseInt(WithoutHexPrefix(Unsigned(t)), 16)
    case None => None
    case Some(n) => Some(if negative then -(n as int) else n as int)
  }

  /** The text after the leading white space `parseInt` skips. */
  function SkipSpaces(s: string): string
  {
    if |s| > 0 && IsSpace(s[0]) then SkipSpaces(s[1..]) else s
  }

  /** The text after an optional sign. */
  function Unsigned(t: string): string
  {
    if |t| > 0 && (t[0] == '-' || t[0] == '+') then t[1..] else t
  }

  /** The text starts with `0x` or `0X`. */
  predicate HasHexPrefix(u: string)
  {
    |u| >= 2 && u[0] == '0' && (u[1] == 'x' || u[1] == 'X')
  }

  /** The text after an optional `0x` or `0X`. */
  function WithoutHexPrefix(u: string): string
  {
    if HasHexPrefix(u) then u[2..] else u
  }

  /**
   * `Number.parseInt(text)` with no radix: leading white space and an
   * optional sign are skipped, then a `0x` or `0X` selects radix 16 and
   * anything else radix 10; NaN when no digit follows.
   */
  function ParseIntAuto(text: string): Option<int>
  {
    var t := SkipSpaces(text);
    var negative := |t| > 0 && t[0] == '-';
    var u := Unsigned(t);
    var radix := if HasHexPrefix(u) then 16 else 10;
    match ParseInt(WithoutHexPrefix(u), radix)
    case None => None
    case Some(n) => Some(if negative then -(n as int) else n as int)
  }

  /** A template literal's `${n}` for an integer: a minus sign before the digits of a negative one. */
  function IntString(n: int): (s: string)
    ensures |s| > 0
    ensures n < 0 <==> s[0] == '-'
  {
    if n < 0 then "-" + ToString(-n, 10) else ToString(n, 10)
  }

  /** A minus sign before the digits of a positive number reads as its negation. */
  lemma {:induction false} ParseIntAutoNegative(n: nat)
    requires n > 0
    ensures ParseIntAuto("-" + ToString(n, 10)) == Some(-(n as int))
  {
    var m: int := -(n as int);
    assert -m == n;
    assert IntString(m) == "-" + ToString(n, 10);
    ParseIntAutoOfIntString(m);
  }

  /** What `${n}` writes, `Number.parseInt` reads back. */
  lemma {:induction false} ParseIntAutoOfIntString(n: int)
    ensures ParseIntAuto(IntString(n)) == Some(n)
  {
    var m: nat := if n < 0 then -n else n;
    var d := ToString(m, 10);
    ParseToString(m, 10, "");
    assert d + "" == d;
    assert !HasHexPrefix(d) by {
      if |d| >= 2 { assert IsDigitIn(d[1], 10); }
    }
    assert !IsSpace(d[0]) && d[0] != '-' && d[0] != '+' by {
      assert IsDigitIn(d[0], 10);
    }
    if n < 0 {
      var s := "-" + d;
      assert SkipSpaces(s) == s;
      assert Unsigned(s) == d;
    } else {
      assert SkipSpaces(d) == d;
      assert Unsigned(d) == d;
    }
  }

  /** Leading white space changes nothing `Number.parseInt` reads. */
  lemma {:induction false} ParseIntAutoSkipsSpaces(ws: string, text: string)
    requires forall i :: 0 <= i < |ws| ==> IsSpace(ws[i])
    ensures ParseIntAuto(ws + text) == ParseIntAuto(text)
  {
    SkipSpacesPrefix(ws, text);
  }

  lemma {:induction false} SkipSpacesPrefix(ws: string, text: string)
    requires forall i :: 0 <= i < |ws| ==> IsSpace(ws[i])
    ensures SkipSpaces(ws + text) == SkipSpaces(text)
  {
    if |ws| > 0 {
      assert (ws + text)[0] == ws[0];
      assert (ws + text)[1..] == ws[1..] + text;
      SkipSpacesPrefix(ws[1..], text);
    } else {
      assert ws + text == text;
    }
  }

  /** A `0x` followed by the hexadecimal digits of `n` reads as `n`. */
  lemma {:induction false} ParseIntAutoHex(n: nat)
    ensures ParseIntAuto("0x" + ToString(n, 16)) == Some(n)
  {
    var d := ToString(n, 16);
    var s := "0x" + d;
    assert s[0] == '0' && s[1] == 'x' && s[2..] == d;
    assert SkipSpaces(s) == s;
    assert Unsigned(s) == s;
    ParseToString(n, 16, "");
    assert d + "" == d;
  }

  /** A run of hex digits parses to its value. */
  lemma {:induction false} ParseHexOfDigits(text: string)
    requires |text| > 0 && AllDigits(text, 16)
    ensures ParseHex(text) == Some(DigitsValue(text, 16) as int)
  {
    SkipsNothing(text);
    LeadingRun(text, "", 16);
    assert text + "" == text;
    assert text[..|text|] == text;
  }

  lemma {:induction false} SkipsNothing(text: string)
    requires |text| > 0 && AllDigits(text, 16)
    ensures ParseInt(text, 16).Some? && ParseHex(text) == Some(ParseInt(text, 16).value as int)
  {
    assert IsDigitIn(text[0], 16);
    assert SkipSpaces(text) == text;
    assert Unsigned(text) == text;
    assert WithoutHexPrefix(text) == text by {
      if |text| > 1 { assert IsDigitIn(text[1], 16); }
    }
  }
}
