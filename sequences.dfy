/**
 * Python list comprehensions with a condition, over sequences: the order
 * they keep and the elements they keep.
 */
module Sequences {

  /** `s` with some elements left out, the rest in their original order. */
  predicate IsSubsequence<T(==)>(r: seq<T>, s: seq<T>)
    decreases |s|
  {
    if r == [] then true
    else if s == [] then false
    else if r[0] == s[0] then IsSubsequence(r[1..], s[1..])
    else IsSubsequence(r, s[1..])
  }

  /** Leaving out the first element of a subsequence keeps it one. */
  lemma {:induction false} SubsequenceTail<T>(r: seq<T>, s: seq<T>)
    requires r != [] && IsSubsequence(r, s)
    ensures IsSubsequence(r[1..], s)
    decreases |s|, 0
  {
    if r[0] == s[0] {
      if r[1..] != [] { SubsequenceTail(r[1..], s[1..]); SubsequenceSkip(r[1..], s[0], s[1..]); }
    } else {
      SubsequenceTail(r, s[1..]);
      if r[1..] != [] { SubsequenceSkip(r[1..], s[0], s[1..]); }
    }
  }

  /** A subsequence of `s` is a subsequence of `s` with one more element in front. */
  lemma {:induction false} SubsequenceSkip<T>(r: seq<T>, x: T, s: seq<T>)
    requires IsSubsequence(r, s)
    ensures IsSubsequence(r, [x] + s)
    decreases |s|, 1
  {
    if r != [] && r[0] == x {
      SubsequenceTail(r, s);
      assert ([x] + s)[1..] == s;
    } else if r != [] {
      assert ([x] + s)[1..] == s;
    }
  }

  /**
   * `[x for x in s if p(x)]`: keeps, in order, every occurrence of every
   * element that satisfies `p`, and nothing else.
   */
  function Filter<T(==, !new)>(s: seq<T>, p: T -> bool): (r: seq<T>)
    ensures IsSubsequence(r, s)
    ensures forall x :: x in r <==> x in s && p(x)
    ensures forall x :: multiset(r)[x] == if p(x) then multiset(s)[x] else 0
  {
    if s == [] then []
    else
      var rest := Filter(s[1..], p);
      assert s == [s[0]] + s[1..];
      SubsequenceSkip(rest, s[0], s[1..]);
      if p(s[0]) then [s[0]] + rest else rest
  }
}
