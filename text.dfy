/**
 * The string operations the pages' search boxes and labels are built from:
 * `toLowerCase`, `toUpperCase`, `includes` and "first letter upper-cased".
 * Case mapping is modelled over ASCII; every other character maps to itself.
 */
module Text {

  function LowerChar(c: char): char {
    if 'A' <= c <= 'Z' then (c as int + 32) as char else c
  }

  function UpperChar(c: char): char {
    if 'a' <= c <= 'z' then (c as int - 32) as char else c
  }

  /** `s.toLowerCase()` over ASCII. */
  function Lower(s: string): (r: string)
    ensures |r| == |s|
    ensures forall i :: 0 <= i < |s| ==> r[i] == LowerChar(s[i])
  {
    if s == [] then [] else [LowerChar(s[0])] + Lower(s[1..])
  }

  /** `s.toUpperCase()` over ASCII. */
  function Upper(s: string): (r: string)
    ensures |r| == |s|
    ensures forall i :: 0 <= i < |s| ==> r[i] == UpperChar(s[i])
  {
    if s == [] then [] else [UpperChar(s[0])] + Upper(s[1..])
  }

  /** `s.includes(t)`: `t` occurs in `s` as a contiguous piece. */
  predicate Contains(s: string, t: string)
    decreases |s|
  {
    t <= s || (s != [] && Contains(s[1..], t))
  }

  /** `s.toLowerCase().includes(term.toLowerCase())`, the match test shared by every search box. */
  predicate ContainsCI(s: string, term: string) {
    Contains(Lower(s), Lower(term))
  }

  /** `s.charAt(0).toUpperCase() + s.slice(1)`. */
  function Capitalize(s: string): (r: string)
    ensures |r| == |s|
    ensures s != [] ==> r[0] == UpperChar(s[0]) && r[1..] == s[1..]
  {
    if s == [] then [] else [UpperChar(s[0])] + s[1..]
  }

  lemma LowerCharIdempotent(c: char)
    ensures LowerChar(LowerChar(c)) == LowerChar(c)
  {
  }

  /** Lower-casing twice is lower-casing once. */
  lemma LowerIdempotent(s: string)
    ensures Lower(Lower(s)) == Lower(s)
  {
    var once := Lower(s);
    var twice := Lower(once);
    forall i | 0 <= i < |s| ensures twice[i] == once[i] {
      LowerCharIdempotent(s[i]);
    }
  }

  /** Upper-casing a term does not change what it matches. */
  lemma LowerOfUpper(s: string)
    ensures Lower(Upper(s)) == Lower(s)
  {
    var a := Lower(Upper(s));
    var b := Lower(s);
    forall i | 0 <= i < |s| ensures a[i] == b[i] {
    }
  }

  lemma LowerAppend(s: string, t: string)
    ensures Lower(s + t) == Lower(s) + Lower(t)
  {
    var a := Lower(s + t);
    var b := Lower(s) + Lower(t);
    forall i | 0 <= i < |s + t| ensures a[i] == b[i] {
      if i < |s| {
        assert (s + t)[i] == s[i];
      } else {
        assert (s + t)[i] == t[i - |s|];
      }
    }
  }

  lemma ContainsSelf(s: string)
    ensures Contains(s, s)
  {
  }

  /** A piece of a match is a match: if `s` contains `t + u`, it contains `t`. */
  lemma {:induction false} ContainsPrefixOfMatch(s: string, t: string, u: string)
    requires Contains(s, t + u)
    ensures Contains(s, t)
    decreases |s|
  {
    if t + u <= s {
      assert t <= s by {
        assert forall i :: 0 <= i < |t| ==> (t + u)[i] == t[i];
      }
    } else {
      ContainsPrefixOfMatch(s[1..], t, u);
    }
  }

  /** The empty term matches every field. */
  lemma ContainsCIEmpty(s: string)
    ensures ContainsCI(s, "")
  {
  }

  /** Every field matches a search for itself, whatever the case of the search. */
  lemma ContainsCISelf(s: string)
    ensures ContainsCI(s, s)
    ensures ContainsCI(s, Upper(s))
  {
    ContainsSelf(Lower(s));
    LowerOfUpper(s);
  }

  /** Case does not matter on either side of the search. */
  lemma ContainsCICaseInsensitive(s: string, term: string)
    ensures ContainsCI(s, term) == ContainsCI(Lower(s), term) == ContainsCI(Upper(s), term)
    ensures ContainsCI(s, term) == ContainsCI(s, Lower(term)) == ContainsCI(s, Upper(term))
  {
    LowerIdempotent(s);
    LowerIdempotent(term);
    LowerOfUpper(s);
    LowerOfUpper(term);
  }

  /** Typing more characters can only narrow a search: a match of `t + u` is a match of `t`. */
  lemma ContainsCINarrowing(s: string, t: string, u: string)
    requires ContainsCI(s, t + u)
    ensures ContainsCI(s, t)
  {
    LowerAppend(t, u);
    ContainsPrefixOfMatch(Lower(s), Lower(t), Lower(u));
  }
}
