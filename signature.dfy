/**
 * Normalising a remote reply so that it carries Mae Buni's sign-off.
 * Most entry points test for the signature case-insensitively
 * (`text.toLowerCase().includes("xoxo, mae buni")`); one route tests the
 * exact spelling (`text.includes("xoxo, Mae Buni")`).
 */
module Signature {
  import opened Text
  import opened ChatTypes

  const LOWER_SIGNATURE := "xoxo, mae buni"

  /** What is appended to an unsigned reply. */
  const SIGN_OFF := "\n\n" + SIGNATURE

  /** The case-insensitive test. */
  predicate IsSigned(t: string)
  {
    Contains(Lower(t), LOWER_SIGNATURE)
  }

  /** The case-sensitive test. */
  predicate IsSignedExactly(t: string)
  {
    Contains(t, SIGNATURE)
  }

  /** The sign-off itself passes both tests. */
  lemma SignOffIsSigned()
    ensures Contains(Lower(SIGN_OFF), LOWER_SIGNATURE)
    ensures Contains(SIGN_OFF, SIGNATURE)
  {
    SignOffLowerSigned();
    SignOffExactlySigned();
  }

  lemma SignOffLowerSigned()
    ensures Contains(Lower(SIGN_OFF), LOWER_SIGNATURE)
  {
    HasAt(Lower(SIGN_OFF), LOWER_SIGNATURE, 2);
  }

  lemma SignOffExactlySigned()
    ensures Contains(SIGN_OFF, SIGNATURE)
  {
    HasAt(SIGN_OFF, SIGNATURE, 2);
  }

  /** A pattern found in the lowered tail is found in the lowered whole. */
  lemma {:induction false} LowerContainsInSuffix(t: string, u: string, p: string)
    requires Contains(Lower(u), p)
    ensures Contains(Lower(t + u), p)
  {
    LowerAppend(t, u);
    ContainsInSuffix(Lower(t), Lower(u), p);
  }

  /** A reply followed by the sign-off passes both tests. */
  lemma {:induction false} SignOffSigns(t: string)
    ensures IsSigned(t + SIGN_OFF)
    ensures IsSignedExactly(t + SIGN_OFF)
  {
    SignOffIsSigned();
    LowerContainsInSuffix(t, SIGN_OFF, LOWER_SIGNATURE);
    ContainsInSuffix(t, SIGN_OFF, SIGNATURE);
  }

  /** The exact spelling passes the case-insensitive test too. */
  lemma {:induction false} ExactlySignedIsSigned(t: string)
    requires IsSignedExactly(t)
    ensures IsSigned(t)
  {
    var i :| 0 <= i <= |t| && IsPrefix(SIGNATURE, t[i..]);
    IsPrefixSlice(SIGNATURE, t[i..]);
    assert t[i..i + |SIGNATURE|] == SIGNATURE;
    var l := Lower(t);
    assert l[i..i + |SIGNATURE|] == Lower(SIGNATURE);
    assert Lower(SIGNATURE) == LOWER_SIGNATURE;
    ContainsWitness(l, LOWER_SIGNATURE, i);
  }

  /** `if (!text.toLowerCase().includes("xoxo, mae buni")) text += "\n\nxoxo, Mae Buni"`. */
  function EnsureSigned(t: string): (r: string)
    ensures IsSigned(r)
    ensures |t| <= |r| && r[..|t|] == t
    ensures r == t <==> IsSigned(t)
    ensures r == t || r == t + SIGN_OFF
  {
    if IsSigned(t) then t else SignOffSigns(t); t + SIGN_OFF
  }

  /** Normalising twice is normalising once. */
  lemma {:induction false} EnsureSignedIdempotent(t: string)
    ensures EnsureSigned(EnsureSigned(t)) == EnsureSigned(t)
  {
  }

  /** `if (!text.includes("xoxo, Mae Buni")) text += "\n\nxoxo, Mae Buni"`. */
  function EnsureSignedExactly(t: string): (r: string)
    ensures IsSignedExactly(r) && IsSigned(r)
    ensures |t| <= |r| && r[..|t|] == t
    ensures r == t <==> IsSignedExactly(t)
    ensures r == t || r == t + SIGN_OFF
  {
    if IsSignedExactly(t) then ExactlySignedIsSigned(t); t else SignOffSigns(t); t + SIGN_OFF
  }

  /**
   * The exact test appends a second signature to a reply that is already
   * signed in capitals, where the case-insensitive test leaves it alone.
   */
  lemma ShoutedSignatureSignedTwice()
    ensures var t := "Love, XOXO, MAE BUNI";
      EnsureSigned(t) == t && EnsureSignedExactly(t) == t + SIGN_OFF
  {
    ShoutedIsSigned();
    ShoutedNotExact();
  }

  lemma ShoutedIsSigned()
    ensures IsSigned("Love, XOXO, MAE BUNI")
  {
    HasAt(Lower("Love, XOXO, MAE BUNI"), LOWER_SIGNATURE, 6);
  }

  lemma ShoutedNotExact()
    ensures !IsSignedExactly("Love, XOXO, MAE BUNI")
  {
    var t := "Love, XOXO, MAE BUNI";
    assert forall i :: 0 <= i < |t| ==> t[i] != 'x';
    MissingCharNotContained(t, SIGNATURE, 'x');
  }
}
