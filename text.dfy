/**
 * String helpers shared by the chat, header and colour code: JavaScript's
 * `toLowerCase`, `startsWith`, `includes`, `endsWith` and the blank test
 * behind `!s.trim()`, restricted to the ASCII behaviour the model needs.
 */
module Text {

  /** `toLowerCase` on one character (ASCII letters only). */
  function LowerChar(c: char): char
  {
    if 'A' <= c <= 'Z' then (c as int + 32) as char else c
  }

  /** `toLowerCase` on a string, character by character. */
  function Lower(s: string): (r: string)
    ensures |r| == |s|
    ensures forall i :: 0 <= i < |s| ==> r[i] == LowerChar(s[i])
  {
    seq(|s|, i requires 0 <= i < |s| => LowerChar(s[i]))
  }

  predicate IsLowerChar(c: char)
  {
    !('A' <= c <= 'Z')
  }

  /** A string `toLowerCase` leaves unchanged. */
  predicate IsLower(s: string)
  {
    forall i :: 0 <= i < |s| ==> IsLowerChar(s[i])
  }

  lemma {:induction false} LowerIsLower(s: string)
    ensures IsLower(Lower(s))
  {
  }

  lemma {:induction false} LowerOfLower(s: string)
    requires IsLower(s)
    ensures Lower(s) == s
  {
  }

  /** Lowercasing twice is lowercasing once. */
  lemma {:induction false} LowerIdempotent(s: string)
    ensures Lower(Lower(s)) == Lower(s)
  {
    LowerIsLower(s);
    LowerOfLower(Lower(s));
  }

  lemma {:induction false} LowerAppend(s: string, t: string)
    ensures Lower(s + t) == Lower(s) + Lower(t)
  {
  }

  /** `s.startsWith(p)`, one character at a time. */
  predicate IsPrefix(p: string, s: string)
  {
    |p| == 0 || (|s| > 0 && p[0] == s[0] && IsPrefix(p[1..], s[1..]))
  }

  /** The recursive prefix test is the slice comparison. */
  lemma {:induction false} IsPrefixSlice(p: string, s: string)
    ensures IsPrefix(p, s) <==> |p| <= |s| && s[..|p|] == p
  {
    if |p| == 0 {
    } else if |s| == 0 {
    } else {
      IsPrefixSlice(p[1..], s[1..]);
      if |p| <= |s| && s[..|p|] == p {
        assert s[1..][..|p| - 1] == s[..|p|][1..];
      }
    }
  }

  lemma {:induction false} PrefixOfAppend(p: string, t: string)
    ensures IsPrefix(p, p + t)
  {
    IsPrefixSlice(p, p + t);
    assert (p + t)[..|p|] == p;
  }

  /** Two strings that differ at a position both have are not prefix and string. */
  lemma {:induction false} DiffersAt(p: string, s: string, i: nat)
    requires i < |p| && i < |s| && p[i] != s[i]
    ensures !IsPrefix(p, s)
  {
    IsPrefixSlice(p, s);
    if |p| <= |s| {
      assert s[..|p|][i] == s[i];
    }
  }

  /** `s.includes(p)`: `p` starts at some position of `s`. */
  predicate Contains(s: string, p: string)
  {
    exists i :: 0 <= i <= |s| && IsPrefix(p, s[i..])
  }

  /** Every character of a pattern `s` includes occurs in `s`. */
  lemma {:induction false} ContainsChars(s: string, p: string, k: int)
    requires Contains(s, p)
    requires 0 <= k < |p|
    ensures p[k] in s
  {
    var i :| 0 <= i <= |s| && IsPrefix(p, s[i..]);
    IsPrefixSlice(p, s[i..]);
    assert s[i..][..|p|][k] == s[i + k];
  }

  /** A pattern with a character absent from `s` is not included in `s`. */
  lemma {:induction false} MissingCharNotContained(s: string, p: string, c: char)
    requires c in p && c !in s
    ensures !Contains(s, p)
  {
    if Contains(s, p) {
      var k :| 0 <= k < |p| && p[k] == c;
      ContainsChars(s, p, k);
    }
  }

  /** `p` occurs in `s` from index `i` on. */
  lemma {:induction false} ContainsWitness(s: string, p: string, i: int)
    requires 0 <= i && i + |p| <= |s| && s[i..i + |p|] == p
    ensures Contains(s, p)
  {
    IsPrefixSlice(p, s[i..]);
    assert s[i..][..|p|] == s[i..i + |p|];
  }

  /** `p` occurs in `s` at `i`, checked one character at a time. */
  lemma {:induction false} HasAt(s: string, p: string, i: nat)
    requires i + |p| <= |s| && forall k :: 0 <= k < |p| ==> s[i + k] == p[k]
    ensures Contains(s, p)
  {
    assert s[i..i + |p|] == p;
    ContainsWitness(s, p, i);
  }

  /**
   * A pattern whose first character is absent from the first `k`
   * characters of `s` cannot start early enough to fit, so it is not included.
   */
  lemma {:induction false} FirstCharMissing(s: string, p: string, k: int)
    requires 0 < |p| && 0 <= k && |s| - |p| < k <= |s| && p[0] !in s[..k]
    ensures !Contains(s, p)
  {
    forall i | 0 <= i <= |s|
      ensures !IsPrefix(p, s[i..])
    {
      IsPrefixSlice(p, s[i..]);
      if |p| <= |s| - i {
        assert s[i..][..|p|][0] == s[i];
        assert s[..k][i] == s[i];
      }
    }
  }

  lemma {:induction false} ContainsInSuffix(s: string, t: string, p: string)
    requires Contains(t, p)
    ensures Contains(s + t, p)
  {
    var i :| 0 <= i <= |t| && IsPrefix(p, t[i..]);
    assert (s + t)[|s| + i..] == t[i..];
  }

  lemma {:induction false} ContainsInPrefix(s: string, t: string, p: string)
    requires Contains(s, p)
    ensures Contains(s + t, p)
  {
    var i :| 0 <= i <= |s| && IsPrefix(p, s[i..]);
    IsPrefixSlice(p, s[i..]);
    IsPrefixSlice(p, (s + t)[i..]);
    assert (s + t)[i..][..|p|] == s[i..][..|p|];
  }

  lemma {:induction false} ContainsMiddle(a: string, p: string, b: string)
    ensures Contains(a + p + b, p)
  {
    ContainsWitness(a + p + b, p, |a|);
  }

  /** An occurrence inside an occurrence is an occurrence. */
  lemma {:induction false} ContainsTrans(s: string, p: string, q: string)
    requires Contains(s, p) && Contains(p, q)
    ensures Contains(s, q)
  {
    var i :| 0 <= i <= |s| && IsPrefix(p, s[i..]);
    IsPrefixSlice(p, s[i..]);
    var j :| 0 <= j <= |p| && IsPrefix(q, p[j..]);
    IsPrefixSlice(q, p[j..]);
    assert p == s[i..i + |p|];
    assert q == p[j..j + |q|];
    assert forall k :: 0 <= k < |q| ==> q[k] == p[j + k] == s[i + j + k];
    assert s[i + j..i + j + |q|] == q;
    ContainsWitness(s, q, i + j);
  }

  lemma {:induction false} ContainsSelf(p: string)
    ensures Contains(p, p)
  {
    ContainsWitness(p, p, 0);
  }

  /** `s.endsWith(suffix)`. */
  predicate EndsWith(s: string, suffix: string)
  {
    |suffix| <= |s| && s[|s| - |suffix|..] == suffix
  }

  lemma {:induction false} EndsWithAppend(s: string, suffix: string)
    ensures EndsWith(s + suffix, suffix)
  {
    assert (s + suffix)[|s|..] == suffix;
  }

  /** A string ending with `suffix` includes it. */
  lemma {:induction false} EndsWithContains(s: string, suffix: string)
    requires EndsWith(s, suffix)
    ensures Contains(s, suffix)
  {
    assert s == s[..|s| - |suffix|] + suffix;
    ContainsSelf(suffix);
    ContainsInSuffix(s[..|s| - |suffix|], suffix, suffix);
  }

  /** The characters `String.prototype.trim` removes (ASCII subset). */
  predicate IsSpace(c: char)
  {
    c == ' ' || c == '\t' || c == '\n' || c == '\r' || c == '\U{000B}' || c == '\U{000C}'
  }

  /** `!s.trim()`: nothing but whitespace is left. */
  predicate IsBlank(s: string)
  {
    forall i :: 0 <= i < |s| ==> IsSpace(s[i])
  }

  /** Only white space lies before `i` and from `j` on. */
  predicate BlankOutside(s: string, i: nat, j: nat)
  {
    i <= j <= |s| && IsBlank(s[..i]) && IsBlank(s[j..])
  }

  /** Where the run of white space starting at `i` ends. */
  function SpaceRunFrom(s: string, i: nat): (k: nat)
    requires i <= |s|
    ensures i <= k <= |s|
    ensures forall m :: i <= m < k ==> IsSpace(s[m])
    ensures k < |s| ==> !IsSpace(s[k])
    decreases |s| - i
  {
    if i == |s| || !IsSpace(s[i]) then i else SpaceRunFrom(s, i + 1)
  }

  /** Where the run of white space ending at `j` starts. */
  function SpaceRunTo(s: string, j: nat): (k: nat)
    requires j <= |s|
    ensures k <= j
    ensures forall m :: k <= m < j ==> IsSpace(s[m])
    ensures 0 < k ==> !IsSpace(s[k - 1])
  {
    if j == 0 || !IsSpace(s[j - 1]) then j else SpaceRunTo(s, j - 1)
  }

  /** `s.trim()` (both ends): the text between its leading and its trailing white space. */
  function Trim(s: string): (r: string)
    ensures IsBlank(s) <==> r == ""
    ensures |r| <= |s|
    ensures r != "" ==> !IsSpace(r[0]) && !IsSpace(r[|r| - 1])
    ensures exists i: nat, j: nat :: BlankOutside(s, i, j) && r == s[i..j]
  {
    var i := SpaceRunFrom(s, 0);
    var j := SpaceRunTo(s, |s|);
    if i < j then
      assert BlankOutside(s, i, j);
      s[i..j]
    else
      assert IsBlank(s[..j]) && IsBlank(s[j..]);
      assert s == s[..j] + s[j..];
      assert BlankOutside(s, j, j);
      ""
  }

  /** `s.trimStart()`: everything before the result is white space. */
  function TrimStart(s: string): (r: string)
    ensures |r| <= |s|
    ensures IsBlank(s) <==> r == ""
    ensures r != "" ==> !IsSpace(r[0]) && r[|r| - 1] == s[|s| - 1]
    ensures r == s[|s| - |r|..]
    ensures IsBlank(s[..|s| - |r|])
  {
    var k := SpaceRunFrom(s, 0);
    assert k == |s| ==> s[..k] == s;
    s[k..]
  }

  /** `s.trimEnd()`: everything after the result is white space. */
  function TrimEnd(s: string): (r: string)
    ensures |r| <= |s|
    ensures IsBlank(s) <==> r == ""
    ensures r != "" ==> !IsSpace(r[|r| - 1]) && r[0] == s[0]
    ensures r == s[..|r|]
    ensures IsBlank(s[|r|..])
  {
    var k := SpaceRunTo(s, |s|);
    assert k == 0 ==> s[k..] == s;
    s[..k]
  }

  /** `pattern` occurs at `i` in `s`, and at no earlier position. */
  predicate FirstAt(s: string, pattern: string, i: nat)
  {
    i + |pattern| <= |s| && s[i..i + |pattern|] == pattern
    && forall j :: 0 <= j < i ==> !IsPrefix(pattern, s[j..])
  }

  /** `s.replace(pattern, "")` for a string pattern: drop its first occurrence. */
  function ReplaceFirst(s: string, pattern: string): (r: string)
    requires |pattern| > 0
    ensures !Contains(s, pattern) ==> r == s
    ensures |r| <= |s|
    ensures Contains(s, pattern) ==>
      exists i: nat :: FirstAt(s, pattern, i) && r == s[..i] + s[i + |pattern|..]
  {
    if IsPrefix(pattern, s) then
      IsPrefixSlice(pattern, s);
      assert s[0..] == s;
      assert s[..0] + s[|pattern|..] == s[|pattern|..];
      assert FirstAt(s, pattern, 0);
      s[|pattern|..]
    else if |s| == 0 then s
    else
      var t := ReplaceFirst(s[1..], pattern);
      ContainsTail(s, pattern);
      if Contains(s[1..], pattern) then
        var i: nat :| FirstAt(s[1..], pattern, i) && t == s[1..][..i] + s[1..][i + |pattern|..];
        CutAfterHead(s, pattern, i, t);
        [s[0]] + t
      else
        [s[0]] + t
  }

  /** When the text does not start with the pattern, the pattern occurs in it exactly when it occurs in its tail. */
  lemma {:induction false} ContainsTail(s: string, pattern: string)
    requires |s| > 0 && !IsPrefix(pattern, s)
    ensures Contains(s, pattern) <==> Contains(s[1..], pattern)
  {
    if Contains(s[1..], pattern) {
      var i :| 0 <= i <= |s[1..]| && IsPrefix(pattern, s[1..][i..]);
      assert s[1..][i..] == s[i + 1..];
    }
    if Contains(s, pattern) {
      var i :| 0 <= i <= |s| && IsPrefix(pattern, s[i..]);
      assert s[0..] == s;
      assert i != 0;
      assert s[1..][i - 1..] == s[i..];
    }
  }

  /** Cutting the first occurrence out of the tail cuts the first occurrence out of the whole text. */
  lemma {:induction false} CutAfterHead(s: string, pattern: string, i: nat, t: string)
    requires |s| > 0 && !IsPrefix(pattern, s) && FirstAt(s[1..], pattern, i)
    requires t == s[1..][..i] + s[1..][i + |pattern|..]
    ensures FirstAt(s, pattern, i + 1) && [s[0]] + t == s[..i + 1] + s[i + 1 + |pattern|..]
  {
    FirstAfterHead(s, pattern, i);
    assert s[..i + 1] == [s[0]] + s[1..][..i];
    assert s[i + 1 + |pattern|..] == s[1..][i + |pattern|..];
  }

  /** A first occurrence in the tail is the first occurrence in the whole text when the text does not start with the pattern. */
  lemma {:induction false} FirstAfterHead(s: string, pattern: string, i: nat)
    requires |s| > 0 && !IsPrefix(pattern, s) && FirstAt(s[1..], pattern, i)
    ensures FirstAt(s, pattern, i + 1)
  {
    assert s[i + 1..i + 1 + |pattern|] == s[1..][i..i + |pattern|];
    assert s[0..] == s;
    forall j | 0 <= j < i + 1
      ensures !IsPrefix(pattern, s[j..])
    {
      if j > 0 {
        assert s[j..] == s[1..][j - 1..];
      }
    }
  }

  /** `s.substring(start, end)` for `start <= end`: both ends are clamped to the length. */
  function Substring(s: string, start: nat, end: nat): (r: string)
    requires start <= end
    ensures end <= |s| ==> r == s[start..end]
    ensures end > |s| ==> r == if start <= |s| then s[start..] else ""
    ensures |r| <= end - start
  {
    var i := if start <= |s| then start else |s|;
    var j := if end <= |s| then end else |s|;
    s[i..j]
  }
}
