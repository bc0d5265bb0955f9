/**
 The two string tests the configuration makes with regular expressions:
 `/^REACT_APP/i` (an anchored, case-insensitive literal prefix) and
 `/\.map/` (an unanchored literal, i.e. a substring search).
 */
module Strings {

  /** ASCII upper-casing: `a`..`z` become `A`..`Z`, every other character is kept.
      A non-Unicode `/i` pattern never equates a non-ASCII character with an
      ASCII one, so for the ASCII pattern `REACT_APP` this is exact. */
  function AsciiUpper(c: char): char
  {
    if 'a' <= c <= 'z' then (c as int - 32) as char else c
  }

  /** `s` starts with `prefix`, comparing characters ignoring ASCII case. */
  predicate StartsWithIgnoringCase(s: string, prefix: string)
  {
    |prefix| <= |s| && forall i :: 0 <= i < |prefix| ==> AsciiUpper(s[i]) == AsciiUpper(prefix[i])
  }

  const ReactAppPrefix: string := "REACT_APP"

  /** The anchored, case-insensitive test for the `REACT_APP` prefix made on
      every process variable name in webpack.config.js: each of the key's nine
      leading characters must be the upper-case or the lower-case form of the
      pattern's character, so a key shorter than the pattern never passes. */
  predicate HasReactAppPrefix(key: string): (r: bool)
    ensures r <==> |key| >= 9 && forall i :: 0 <= i < 9 ==> key[i] == "REACT_APP"[i] || key[i] == "react_app"[i]
  {
    StartsWithIgnoringCase(key, ReactAppPrefix)
  }

  /** The anchor `^`: a key merely containing `REACT_APP` later on is refused,
      while any mix of cases is accepted. */
  lemma ReactAppPrefixExamples()
    ensures HasReactAppPrefix("REACT_APP_API_URL")
    ensures HasReactAppPrefix("react_app_title")
    ensures HasReactAppPrefix("React_App")
    ensures !HasReactAppPrefix("MY_REACT_APP_KEY")
    ensures !HasReactAppPrefix("REACT_AP")
    ensures !HasReactAppPrefix("NODE_ENV")
    ensures !HasReactAppPrefix("SECRET_KEY")
  {
    assert "MY_REACT_APP_KEY"[0] == 'M';
    assert "SECRET_KEY"[0] == 'S';
  }

  /** `sub` occurs somewhere in `s` (what `/sub/.test(s)` decides for a literal pattern). */
  predicate Contains(s: string, sub: string)
    decreases |s|
  {
    if |s| < |sub| then false
    else s[..|sub|] == sub || Contains(s[1..], sub)
  }

  /** `sub` starts at index `i` of `s`. */
  predicate OccursAt(s: string, sub: string, i: int)
  {
    0 <= i <= |s| - |sub| && s[i..i + |sub|] == sub
  }

  /** `Contains` agrees with the position-based reading: some index `i` has
      `sub` starting at it. */
  lemma {:induction false} ContainsIffOccursAt(s: string, sub: string)
    ensures Contains(s, sub) <==> exists i :: OccursAt(s, sub, i)
    decreases |s|
  {
    if |s| >= |sub| && s[..|sub|] != sub {
      ContainsIffOccursAt(s[1..], sub);
      if Contains(s[1..], sub) {
        var i :| OccursAt(s[1..], sub, i);
        assert OccursAt(s, sub, i + 1);
      }
      if exists i :: OccursAt(s, sub, i) {
        var i :| OccursAt(s, sub, i);
        assert i != 0;
        assert OccursAt(s[1..], sub, i - 1);
      }
    } else if |s| >= |sub| {
      assert OccursAt(s, sub, 0);
    }
  }

  /** A string containing `sub` still does after anything is put around it. */
  lemma ContainsExtended(s: string, sub: string, before: string, after: string)
    requires Contains(s, sub)
    ensures Contains(before + s + after, sub)
  {
    ContainsIffOccursAt(s, sub);
    var i :| OccursAt(s, sub, i);
    var t := before + s + after;
    assert t[|before| + i..|before| + i + |sub|] == s[i..i + |sub|];
    assert OccursAt(t, sub, |before| + i);
    ContainsIffOccursAt(t, sub);
  }

  /** Every character of `sub` is a character of a string that contains it. */
  lemma ContainsHasEveryChar(s: string, sub: string, j: int)
    requires Contains(s, sub) && 0 <= j < |sub|
    ensures sub[j] in s
  {
  }
}
