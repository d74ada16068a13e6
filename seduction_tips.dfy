/**
 * `app/articles/seduction-tips/page.tsx`: how `SyntaxExample` highlights
 * the words of an example's code, and which example card the page keeps
 * active. The animations and the intro screen are not modelled.
 */
module SeductionTips {
  import opened Options
  import opened Text

  /** `code.split(" ")`: the pieces between single spaces, empty ones included. */
  function Split(s: string): (words: seq<string>)
    ensures |words| >= 1
    ensures forall i :: 0 <= i < |words| ==> ' ' !in words[i]
  {
    if |s| == 0 then [""]
    else
      var rest := Split(s[1..]);
      if s[0] == ' ' then [""] + rest
      else [[s[0]] + rest[0]] + rest[1..]
  }

  /** `words.join(" ")`. */
  function Join(words: seq<string>): string
    requires |words| >= 1
  {
    if |words| == 1 then words[0] else words[0] + " " + Join(words[1..])
  }

  /** Splitting loses nothing: joining the pieces with single spaces gives the code back. */
  lemma {:induction false} JoinSplit(s: string)
    ensures Join(Split(s)) == s
  {
    if |s| > 0 {
      var rest := Split(s[1..]);
      JoinSplit(s[1..]);
      if s[0] == ' ' {
        assert Split(s)[1..] == rest;
        assert s == [' '] + s[1..];
      } else {
        JoinHead(s[0], rest);
        assert s == [s[0]] + s[1..];
      }
    }
  }

  lemma {:induction false} JoinHead(c: char, words: seq<string>)
    requires |words| >= 1
    ensures Join([[c] + words[0]] + words[1..]) == [c] + Join(words)
  {
    var w := [[c] + words[0]] + words[1..];
    assert w[0] == [c] + words[0] && w[1..] == words[1..];
    if |words| > 1 {
      var tail := Join(words[1..]);
      assert w[0] + " " + tail == [c] + (words[0] + " " + tail);
    }
  }

  /** The number of spaces in `s`. */
  function Spaces(s: string): nat
  {
    if |s| == 0 then 0 else (if s[0] == ' ' then 1 else 0) + Spaces(s[1..])
  }

  /** There is one more piece than there are spaces. */
  lemma {:induction false} SplitCount(s: string)
    ensures |Split(s)| == Spaces(s) + 1
  {
    if |s| > 0 {
      SplitCount(s[1..]);
    }
  }

  /** `highlightWords.some((hw) => word.includes(hw))`. */
  function AnyIncluded(word: string, highlightWords: seq<string>): (r: bool)
    ensures r <==> exists i :: 0 <= i < |highlightWords| && Contains(word, highlightWords[i])
  {
    if |highlightWords| == 0 then false
    else Contains(word, highlightWords[0]) || AnyIncluded(word, highlightWords[1..])
  }

  /** One rendered word and whether it gets the highlight class. */
  datatype Piece = Piece(word: string, highlighted: bool)

  /** `highlightedCode`: every piece of the code, marked. */
  function Highlight(code: string, highlightWords: seq<string>): (pieces: seq<Piece>)
    ensures |pieces| == |Split(code)|
    ensures forall i :: 0 <= i < |pieces| ==> pieces[i].word == Split(code)[i]
    ensures forall i :: 0 <= i < |pieces| ==>
      (pieces[i].highlighted <==> exists j :: 0 <= j < |highlightWords| && Contains(Split(code)[i], highlightWords[j]))
  {
    var words := Split(code);
    seq(|words|, i requires 0 <= i < |words| => Piece(words[i], AnyIncluded(words[i], highlightWords)))
  }

  /** A phrase with a space in it can never be included in one piece. */
  lemma {:induction false} PhraseWithSpaceNeverHighlights(code: string, highlightWords: seq<string>)
    requires forall j :: 0 <= j < |highlightWords| ==> ' ' in highlightWords[j]
    ensures forall i :: 0 <= i < |Highlight(code, highlightWords)| ==> !Highlight(code, highlightWords)[i].highlighted
  {
    var words := Split(code);
    forall i, j | 0 <= i < |words| && 0 <= j < |highlightWords|
      ensures !Contains(words[i], highlightWords[j])
    {
      MissingCharNotContained(words[i], highlightWords[j], ' ');
    }
  }

  /** The default `highlightWords = []` highlights nothing. */
  lemma {:induction false} NoPhrasesNoHighlight(code: string)
    ensures forall i :: 0 <= i < |Highlight(code, [])| ==> !Highlight(code, [])[i].highlighted
  {
  }

  /** A piece that equals one of the phrases is highlighted. */
  lemma {:induction false} ExactPhraseHighlights(code: string, highlightWords: seq<string>, i: nat, j: nat)
    requires i < |Split(code)| && j < |highlightWords| && Split(code)[i] == highlightWords[j]
    ensures Highlight(code, highlightWords)[i].highlighted
  {
    ContainsSelf(highlightWords[j]);
  }

  /** `setActiveExample(activeExample === index ? null : index)`. */
  function Toggle(active: Option<nat>, index: nat): (r: Option<nat>)
    ensures r == Some(index) <==> active != Some(index)
    ensures r.None? <==> active == Some(index)
  {
    if active == Some(index) then None else Some(index)
  }

  /** Clicking the same card twice leaves no card active, whatever was active before. */
  lemma {:induction false} ToggleTwice(active: Option<nat>, index: nat)
    ensures Toggle(Toggle(active, index), index).None? <==> active != Some(index)
    ensures active == Some(index) ==> Toggle(Toggle(active, index), index) == Some(index)
  {
  }

  class SeductionTipsPage {
    var activeExample: Option<nat>

    constructor ()
      ensures activeExample.None?
    {
      activeExample := None;
    }

    /** `isActive={activeExample === index}`. */
    predicate IsActive(index: nat)
      reads this
    {
      activeExample == Some(index)
    }

    /** A card's `onClick`. */
    method ClickExample(index: nat)
      modifies this
      ensures activeExample == Toggle(old(activeExample), index)
      ensures IsActive(index) <==> !old(IsActive(index))
      ensures forall other: nat :: other != index ==> !IsActive(other)
    {
      activeExample := if activeExample == Some(index) then None else Some(index);
    }
  }
}
