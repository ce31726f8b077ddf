/**
 * Sequence helpers shared by the model: `Array.prototype.filter` and the
 * subsequence relation it produces.
 */
module Seqs {

  /** `s` occurs in `t` in the same relative order (greedy leftmost matching). */
  ghost predicate IsSubsequence<T>(s: seq<T>, t: seq<T>)
    decreases |t|
  {
    if s == [] then true
    else if t == [] then false
    else if s[0] == t[0] then IsSubsequence(s[1..], t[1..])
    else IsSubsequence(s, t[1..])
  }

  /** `Array.prototype.filter`: the elements of `s` that `keep` accepts, in order. */
  function Filter<T(==)>(s: seq<T>, keep: T -> bool): (r: seq<T>)
    ensures |r| <= |s|
    ensures forall x | x in r :: x in s && keep(x)
    ensures forall x | x in s :: keep(x) ==> x in r
    ensures IsSubsequence(r, s)
    ensures forall x | x in s :: multiset(r)[x] == if keep(x) then multiset(s)[x] else 0
  {
    if s == [] then []
    else if keep(s[0]) then
      assert s == [s[0]] + s[1..];
      [s[0]] + Filter(s[1..], keep)
    else
      var rest := Filter(s[1..], keep);
      SubsequenceDropHead(rest, s);
      assert s == [s[0]] + s[1..];
      rest
  }

  /** Skipping a head element of the longer sequence keeps the relation. */
  lemma {:induction false} SubsequenceDropHead<T>(s: seq<T>, t: seq<T>)
    requires t != [] && IsSubsequence(s, t[1..])
    ensures IsSubsequence(s, t)
    decreases |t|, 0
  {
    if s != [] && s[0] == t[0] {
      // matching t[0] greedily leaves s[1..] to be found in t[1..], which
      // holds since s[1..] is found wherever s is
      SubsequenceTail(s, t[1..]);
    }
  }

  /** Dropping the head of the shorter sequence keeps the relation. */
  lemma {:induction false} SubsequenceTail<T>(s: seq<T>, t: seq<T>)
    requires s != [] && IsSubsequence(s, t)
    ensures IsSubsequence(s[1..], t)
    decreases |t|, 1
  {
    if t != [] {
      if s[0] == t[0] {
        SubsequenceDropHead(s[1..], t);
      } else {
        SubsequenceTail(s, t[1..]);
        SubsequenceDropHead(s[1..], t);
      }
    }
  }

  /** A filter that accepts every element returns the sequence itself. */
  lemma {:induction false} FilterKeepsAll<T>(s: seq<T>, keep: T -> bool)
    requires forall x :: x in s ==> keep(x)
    ensures Filter(s, keep) == s
  {
    if s != [] {
      FilterKeepsAll(s[1..], keep);
    }
  }

  /** Pushing two elements one after the other appends both. */
  lemma PushTwice<T>(s: seq<T>, a: T, b: T)
    ensures (s + [a]) + [b] == s + [a, b]
  {
    assert (s + [a]) + [b] == s + ([a] + [b]);
  }
}
