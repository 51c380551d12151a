/** Substring containment over strings, as used to recognise a payment
    method by its display name. */
module Strings {

  /** `p` is an initial segment of `s`. */
  predicate IsPrefix(p: string, s: string)
  {
    |p| <= |s| && s[..|p|] == p
  }

  /** `pattern` occurs in `s` as a contiguous, case-sensitive run of
      characters. Start positions are tried left to right. */
  predicate Contains(s: string, pattern: string)
    decreases |s|
  {
    IsPrefix(pattern, s) || (|s| > 0 && Contains(s[1..], pattern))
  }

  /** Reference definition: `pattern` starts at position `k` of `s`. */
  ghost predicate OccursAt(s: string, pattern: string, k: int)
  {
    0 <= k && k + |pattern| <= |s| && s[k..k + |pattern|] == pattern
  }

  /** `Contains` agrees with the positional definition, in both directions. */
  lemma {:induction false} ContainsIff(s: string, pattern: string)
    ensures Contains(s, pattern) <==> exists k :: OccursAt(s, pattern, k)
    decreases |s|
  {
    if IsPrefix(pattern, s) {
      assert OccursAt(s, pattern, 0);
    } else if |s| == 0 {
      assert forall k :: !OccursAt(s, pattern, k);
    } else {
      ContainsIff(s[1..], pattern);
      forall k | OccursAt(s[1..], pattern, k) ensures OccursAt(s, pattern, k + 1) {
        assert s[1..][k..k + |pattern|] == s[k + 1..k + 1 + |pattern|];
      }
      forall k | OccursAt(s, pattern, k) ensures OccursAt(s[1..], pattern, k - 1) {
        assert s[1..][k - 1..k - 1 + |pattern|] == s[k..k + |pattern|];
      }
    }
  }

  /** A string shorter than the pattern never contains it. */
  lemma {:induction false} ShorterNotContains(s: string, pattern: string)
    requires |s| < |pattern|
    ensures !Contains(s, pattern)
    decreases |s|
  {
    if |s| > 0 {
      ShorterNotContains(s[1..], pattern);
    }
  }

  /** A string as long as the pattern contains it only by being equal to it. */
  lemma SameLengthContains(s: string, pattern: string)
    requires |s| == |pattern|
    ensures Contains(s, pattern) <==> s == pattern
  {
    assert s[..|pattern|] == s;
    if |s| > 0 {
      ShorterNotContains(s[1..], pattern);
    }
  }
}
