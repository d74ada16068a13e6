/**
 * The four personality traits of the quiz, their score record, the
 * persona record that is generated from them, and the two ways the code
 * picks a dominant trait: `Object.entries(scores).reduce((a, b) => a[1] > b[1] ? a : b)`
 * and the first-maximum chain of the quiz page.
 */
module Traits {
  import opened Options

  datatype Trait = Analytical | Creative | Social | Practical

  /** The key under which a trait is stored and counted. */
  function Name(t: Trait): string
  {
    match t
    case Analytical => "analytical"
    case Creative => "creative"
    case Social => "social"
    case Practical => "practical"
  }

  /** Trait names are distinct keys: a name determines its trait. */
  lemma {:induction false} NameInjective(t: Trait, u: Trait)
    ensures Name(t) == Name(u) <==> t == u
  {
    if t != u {
      assert Name(t)[0] != Name(u)[0];
    }
  }

  /** The trait a stored name stands for, if any. */
  function FromName(s: string): (r: Option<Trait>)
    ensures r.Some? ==> Name(r.value) == s
    ensures forall t :: Name(t) == s ==> r == Some(t)
  {
    if s == "analytical" then Some(Analytical)
    else if s == "creative" then Some(Creative)
    else if s == "social" then Some(Social)
    else if s == "practical" then Some(Practical)
    else None
  }

  /** `{ analytical, creative, social, practical }`, in that key order. */
  datatype Scores = Scores(analytical: int, creative: int, social: int, practical: int)

  const ZERO := Scores(0, 0, 0, 0)

  function Score(s: Scores, t: Trait): int
  {
    match t
    case Analytical => s.analytical
    case Creative => s.creative
    case Social => s.social
    case Practical => s.practical
  }

  /** Adding an option's weights, key by key. */
  function Add(s: Scores, w: Scores): (r: Scores)
    ensures forall t :: Score(r, t) == Score(s, t) + Score(w, t)
  {
    Scores(s.analytical + w.analytical, s.creative + w.creative, s.social + w.social, s.practical + w.practical)
  }

  /** The scores' `Object.entries`, in key order. */
  function Entries(s: Scores): (es: seq<(Trait, int)>)
    ensures |es| == 4
    ensures forall k :: 0 <= k < 4 ==> es[k].1 == Score(s, es[k].0) && Rank(es[k].0) == k
    ensures forall u :: es[Rank(u)] == (u, Score(s, u))
  {
    [(Analytical, s.analytical), (Creative, s.creative), (Social, s.social), (Practical, s.practical)]
  }

  /**
   * `es.reduce((a, b) => a[1] > b[1] ? a : b)`: the accumulator is kept
   * only when strictly greater, so the LAST entry with the maximal value
   * wins.
   */
  function ReduceMax(es: seq<(Trait, int)>): (r: (Trait, int))
    requires |es| > 0
    ensures r in es
    ensures forall k :: 0 <= k < |es| ==> es[k].1 <= r.1
    ensures exists i :: 0 <= i < |es| && es[i] == r && forall j :: i < j < |es| ==> es[j].1 < r.1
  {
    if |es| == 1 then es[0]
    else
      var a := ReduceMax(es[..|es| - 1]);
      var b := es[|es| - 1];
      if a.1 > b.1 then
        assert forall k :: 0 <= k < |es| - 1 ==> es[..|es| - 1][k] == es[k];
        a
      else
        assert forall k :: 0 <= k < |es| - 1 ==> es[..|es| - 1][k] == es[k];
        b
  }

  /** The dominant trait as the persona code computes it (ties go to the later key). */
  function ReduceDominant(s: Scores): (t: Trait)
    ensures forall u :: Score(s, u) <= Score(s, t)
    ensures forall u :: Rank(t) < Rank(u) ==> Score(s, u) < Score(s, t)
  {
    var es := Entries(s);
    var r := ReduceMax(es);
    var i :| 0 <= i < |es| && es[i] == r && forall j :: i < j < |es| ==> es[j].1 < r.1;
    assert Rank(r.0) == i;
    r.0
  }

  /** The position of a trait in key order. */
  function Rank(t: Trait): (k: nat)
    ensures k < 4
  {
    match t
    case Analytical => 0
    case Creative => 1
    case Social => 2
    case Practical => 3
  }

  function MaxScore(s: Scores): (m: int)
    ensures forall t :: Score(s, t) <= m
    ensures exists t :: Score(s, t) == m
  {
    var m1 := if s.analytical > s.creative then s.analytical else s.creative;
    var m2 := if s.social > s.practical then s.social else s.practical;
    var m := if m1 > m2 then m1 else m2;
    assert Score(s, Analytical) == m || Score(s, Creative) == m || Score(s, Social) == m || Score(s, Practical) == m;
    m
  }

  /**
   * The quiz page's `calculateResult` chain: the first trait, in key
   * order, whose score equals the maximum.
   */
  function FirstMaxDominant(s: Scores): (t: Trait)
    ensures Score(s, t) == MaxScore(s)
    ensures forall u :: Rank(u) < Rank(t) ==> Score(s, u) < Score(s, t)
  {
    var m := MaxScore(s);
    if m == s.analytical then Analytical
    else if m == s.creative then Creative
    else if m == s.social then Social
    else Practical
  }

  /** With a unique maximum both rules pick the same trait. */
  lemma {:induction false} DominantsAgree(s: Scores, t: Trait)
    requires forall u :: u != t ==> Score(s, u) < Score(s, t)
    ensures ReduceDominant(s) == t && FirstMaxDominant(s) == t
  {
  }

  /** When two traits tie for the maximum the two rules disagree. */
  lemma {:induction false} DominantsDisagreeOnTies(s: Scores, t: Trait, u: Trait)
    requires Rank(t) < Rank(u)
    requires Score(s, t) == Score(s, u) == MaxScore(s)
    ensures FirstMaxDominant(s) != ReduceDominant(s)
    ensures Rank(FirstMaxDominant(s)) <= Rank(t) && Rank(u) <= Rank(ReduceDominant(s))
  {
  }

  /** {5, 5, 0, 0}: the page shows analytical, the persona is creative. */
  lemma TieExample()
    ensures FirstMaxDominant(Scores(5, 5, 0, 0)) == Analytical
    ensures ReduceDominant(Scores(5, 5, 0, 0)) == Creative
  {
    var s := Scores(5, 5, 0, 0);
    var t := ReduceDominant(s);
    assert Score(s, Creative) <= Score(s, t);
    assert Rank(Analytical) < Rank(Creative);
  }

  /** The persona record (`AIPersona`); optional fields are `Option`s. */
  datatype Persona = Persona(
    id: Option<string>,
    agentName: string,
    tagline: string,
    personalityTraits: seq<string>,
    specialization: string,
    communicationStyle: string,
    appearance: string,
    backstory: string,
    specialAbilities: seq<string>,
    imageUrl: Option<string>,
    dominantTrait: Option<string>,
    createdAt: Option<int>)
}
