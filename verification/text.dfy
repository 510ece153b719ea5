/**
 * String helpers behind the case-insensitive substring filters:
 * `a.toLowerCase().includes(b.toLowerCase())` and `startsWith`.
 * Lower-casing is ASCII-only (see README, "Left out").
 */
module Text {

  /** Lower-cases one ASCII letter; every other character is kept. */
  function LowerChar(c: char): char
  {
    if 'A' <= c <= 'Z' then (c as int + 32) as char else c
  }

  /** `toLowerCase`, restricted to ASCII. */
  function Lower(s: string): (r: string)
    ensures |r| == |s|
    ensures forall i :: 0 <= i < |s| ==> r[i] == LowerChar(s[i])
    ensures forall i :: 0 <= i < |r| ==> !('A' <= r[i] <= 'Z')
    ensures forall i :: 0 <= i < |s| && !('A' <= s[i] <= 'Z') ==> r[i] == s[i]
  {
    if s == [] then [] else [LowerChar(s[0])] + Lower(s[1..])
  }

  /** Lower-casing twice is lower-casing once. */
  lemma {:induction false} LowerIdempotent(s: string)
    ensures Lower(Lower(s)) == Lower(s)
  {
    if s != [] {
      LowerIdempotent(s[1..]);
      assert Lower(s)[1..] == Lower(s[1..]);
    }
  }

  /** `s.startsWith(prefix)`. */
  predicate StartsWith(s: string, prefix: string): (b: bool)
    ensures b <==> |prefix| <= |s| && forall i :: 0 <= i < |prefix| ==> s[i] == prefix[i]
    ensures b ==> s == prefix + s[|prefix|..]
  {
    |prefix| <= |s| && s[..|prefix|] == prefix
  }

  /** `sub` occurs in `s` starting at index `i`. */
  predicate OccursAt(s: string, sub: string, i: int)
  {
    0 <= i && i + |sub| <= |s| && s[i..i + |sub|] == sub
  }

  /** `sub` occurs somewhere in `s`. */
  ghost predicate OccursIn(s: string, sub: string)
  {
    exists i :: OccursAt(s, sub, i)
  }

  /** `s.includes(sub)`: try every start position from left to right. */
  predicate Contains(s: string, sub: string)
    decreases |s|
  {
    StartsWith(s, sub) || (s != [] && Contains(s[1..], sub))
  }

  /** `Contains` holds exactly when `sub` occurs at some position of `s`. */
  lemma {:induction false} ContainsIffOccurs(s: string, sub: string)
    ensures Contains(s, sub) <==> exists i :: OccursAt(s, sub, i)
    decreases |s|
  {
    if StartsWith(s, sub) {
      assert OccursAt(s, sub, 0);
    } else if s != [] {
      ContainsIffOccurs(s[1..], sub);
      if exists i :: OccursAt(s[1..], sub, i) {
        var i :| OccursAt(s[1..], sub, i);
        assert s[1..][i..i + |sub|] == s[i + 1..i + 1 + |sub|];
        assert OccursAt(s, sub, i + 1);
      }
      if exists i :: OccursAt(s, sub, i) {
        var i :| OccursAt(s, sub, i);
        if i != 0 {
          assert s[1..][i - 1..i - 1 + |sub|] == s[i..i + |sub|];
          assert OccursAt(s[1..], sub, i - 1);
        }
      }
    }
  }

  /** Case-insensitive substring test, as both filters of the application write it. */
  predicate Includes(haystack: string, needle: string): (b: bool)
    ensures b <==> OccursIn(Lower(haystack), Lower(needle))
  {
    ContainsIffOccurs(Lower(haystack), Lower(needle));
    Contains(Lower(haystack), Lower(needle))
  }

  /** The outcome of `Includes` does not depend on the case of either argument. */
  lemma CaseInsensitive(haystack: string, needle: string)
    ensures Includes(Lower(haystack), needle) == Includes(haystack, needle)
    ensures Includes(haystack, Lower(needle)) == Includes(haystack, needle)
  {
    LowerIdempotent(haystack);
    LowerIdempotent(needle);
  }

  /** Every string includes itself, whatever its case. */
  lemma {:induction false} IncludesItself(s: string)
    ensures Includes(s, s)
  {
    assert StartsWith(Lower(s), Lower(s));
  }

  /** `paris` holds no `lon`, tried at each start position. */
  lemma ParisLacksLon()
    ensures !Contains("paris", "lon")
  {
    assert "paris"[1..] == "aris" && "aris"[1..] == "ris" && "ris"[1..] == "is" && "is"[1..] == "s";
    assert "paris"[0] != "lon"[0] && "aris"[0] != "lon"[0] && "ris"[0] != "lon"[0];
    assert !Contains("is", "lon");
  }

  /** A location filter `lon` matches `London` and not `Paris`. */
  lemma LocationExample()
    ensures Includes("London", "lon")
    ensures !Includes("Paris", "lon")
  {
    assert Lower("London") == "london" && Lower("lon") == "lon";
    assert StartsWith("london", "lon");
    assert Lower("Paris") == "paris";
    ParisLacksLon();
  }
}
