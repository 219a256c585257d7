/**
 * `Array.prototype.filter` and the order-preserving sub-list relation it
 * establishes, shared by the five list pages.
 */
module Lists {

  /** `r` is `s` with some elements left out, the rest kept in their order. */
  predicate SubSeq<T(==)>(r: seq<T>, s: seq<T>)
    decreases |s|
  {
    if s == [] then r == []
    else (r != [] && r[0] == s[0] && SubSeq(r[1..], s[1..])) || SubSeq(r, s[1..])
  }

  /** `s.filter(keep)`. */
  function Filter<T(==)>(s: seq<T>, keep: T -> bool): (r: seq<T>)
    ensures SubSeq(r, s)
    ensures |r| <= |s|
    ensures forall x :: x in r ==> x in s && keep(x)
    ensures forall x :: x in s && keep(x) ==> x in r
    ensures (forall x :: x in s ==> keep(x)) <==> |r| == |s|
    ensures |r| == |s| ==> r == s
    ensures forall x :: x in s ==> multiset(r)[x] == if keep(x) then multiset(s)[x] else 0
  {
    if s == [] then []
    else
      assert s == [s[0]] + s[1..];
      assert multiset(s) == multiset{s[0]} + multiset(s[1..]);
      if keep(s[0]) then
        var rest := Filter(s[1..], keep);
        assert ([s[0]] + rest)[1..] == rest;
        assert multiset([s[0]] + rest) == multiset{s[0]} + multiset(rest);
        [s[0]] + rest
      else
        assert s[0] in s;
        Filter(s[1..], keep)
  }

  /** Every passing element is kept as often as it occurs: `[1, 2, 1]` filtered for 1 is `[1, 1]`. */
  lemma FilterKeepsRepeats()
    ensures Filter([1, 2, 1], (x: int) => x == 1) == [1, 1]
  {
    var s := [1, 2, 1];
    assert s[1..] == [2, 1] && s[1..][1..] == [1] && [1][1..] == [];
  }

  /** The "Showing shown of total" footer of a list page. */
  datatype Counts = Counts(shown: nat, total: nat)

  /** The footer for a list and its filtered part. */
  function Footer<T(==)>(s: seq<T>, keep: T -> bool): (c: Counts)
    ensures c.total == |s| && c.shown <= c.total
    ensures c.shown == c.total <==> forall x :: x in s ==> keep(x)
  {
    Counts(|Filter(s, keep)|, |s|)
  }

  /** Filtering with a stronger test keeps a sub-list of what a weaker test keeps. */
  lemma {:induction false} FilterMonotone<T>(s: seq<T>, strong: T -> bool, weak: T -> bool)
    requires forall x :: x in s && strong(x) ==> weak(x)
    ensures SubSeq(Filter(s, strong), Filter(s, weak))
    decreases |s|
  {
    if s != [] {
      assert forall x :: x in s[1..] ==> x in s;
      FilterMonotone(s[1..], strong, weak);
      var a, b := Filter(s[1..], strong), Filter(s[1..], weak);
      if strong(s[0]) {
        assert Filter(s, strong) == [s[0]] + a;
        assert Filter(s, weak) == [s[0]] + b;
        assert ([s[0]] + a)[1..] == a && ([s[0]] + b)[1..] == b;
      } else if weak(s[0]) {
        assert Filter(s, strong) == a;
        assert Filter(s, weak) == [s[0]] + b;
        assert ([s[0]] + b)[1..] == b;
      }
    }
  }
}
