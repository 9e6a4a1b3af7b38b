/** The two string operations the components use: `toLowerCase` and `includes`. */
module Text {

  /** Lower-casing of one character (letters A to Z). */
  function LowerChar(c: char): char {
    if 'A' <= c <= 'Z' then (c as int - 'A' as int + 'a' as int) as char else c
  }

  /** `s.toLowerCase()`: the same length, each character lower-cased. */
  function Lower(s: string): (r: string)
    ensures |r| == |s|
    ensures forall i :: 0 <= i < |s| ==> r[i] == LowerChar(s[i])
  {
    if s == [] then [] else [LowerChar(s[0])] + Lower(s[1..])
  }

  /** Lower-casing twice is lower-casing once. */
  lemma LowerIdempotent(s: string)
    ensures Lower(Lower(s)) == Lower(s)
  {
  }

  /** `s.includes(t)`: `t` occurs in `s` at some offset; the empty string occurs everywhere. */
  predicate Contains(s: string, t: string)
    decreases |s|
  {
    t <= s || (s != [] && Contains(s[1..], t))
  }

  /** A witness offset makes `Contains` true. */
  lemma {:induction false} ContainsAt(s: string, t: string, k: nat)
    requires k + |t| <= |s| && s[k..k + |t|] == t
    ensures Contains(s, t)
  {
    if k > 0 {
      assert s[1..][k - 1..k - 1 + |t|] == s[k..k + |t|];
      ContainsAt(s[1..], t, k - 1);
    } else {
      assert t <= s;
    }
  }
}
