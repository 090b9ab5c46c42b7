/** C#'s `string.Contains(string)`: ordinal, case-sensitive substring search. */
module Text {

  predicate StartsWith(s: string, prefix: string) {
    |prefix| <= |s| && s[..|prefix|] == prefix
  }

  /** `token` occurs somewhere in `s` (the empty token occurs in every string). */
  predicate Contains(s: string, token: string)
    decreases |s|
  {
    StartsWith(s, token) || (|s| > 0 && Contains(s[1..], token))
  }

  /** `token` occurs in `s` starting at position `i`. */
  predicate OccursAt(s: string, token: string, i: nat) {
    i + |token| <= |s| && s[i..i + |token|] == token
  }

  /** `Contains` is exactly substring occurrence at some position. */
  lemma {:induction false} ContainsIsSubstring(s: string, token: string)
    ensures Contains(s, token) <==> exists i: nat :: OccursAt(s, token, i)
    decreases |s|
  {
    if StartsWith(s, token) {
      assert OccursAt(s, token, 0);
    } else if |s| > 0 {
      ContainsIsSubstring(s[1..], token);
      if Contains(s[1..], token) {
        var i: nat :| OccursAt(s[1..], token, i);
        assert s[1..][i..i + |token|] == s[i + 1..i + 1 + |token|];
        assert OccursAt(s, token, i + 1);
      }
      forall i: nat | OccursAt(s, token, i)
        ensures Contains(s[1..], token)
      {
        assert i != 0;
        assert s[1..][i - 1..i - 1 + |token|] == s[i..i + |token|];
        assert OccursAt(s[1..], token, i - 1);
      }
    }
  }

  /** A string shorter than the token cannot contain it. */
  lemma {:induction false} ShorterLacks(s: string, token: string)
    requires |s| < |token|
    ensures !Contains(s, token)
    decreases |s|
  {
    if |s| > 0 {
      ShorterLacks(s[1..], token);
    }
  }

  /** A string none of whose characters starts the token cannot contain it. */
  lemma {:induction false} LacksFirstChar(s: string, token: string)
    requires |token| > 0 && forall i :: 0 <= i < |s| ==> s[i] != token[0]
    ensures !Contains(s, token)
    decreases |s|
  {
    if |s| > 0 {
      LacksFirstChar(s[1..], token);
      if |token| <= |s| {
        assert s[..|token|][0] != token[0];
      }
    }
  }
}
