/** Array operations the TypeScript code uses as library calls (`filter`, `reduce`,
    `reverse`), as functions over sequences. */
module Seqs {

  /** `Array.prototype.filter`: the elements satisfying p, in their original order. */
  function Filter<T>(s: seq<T>, p: T -> bool): (r: seq<T>)
    ensures |r| <= |s|
    ensures forall i :: 0 <= i < |r| ==> r[i] in s && p(r[i])
    ensures forall i :: 0 <= i < |s| && p(s[i]) ==> s[i] in r
  {
    if s == [] then []
    else Filter(s[..|s| - 1], p) + (if p(s[|s| - 1]) then [s[|s| - 1]] else [])
  }

  /** Filtering a concatenation filters each part, keeping the parts in order. */
  lemma {:induction false} FilterAppend<T>(a: seq<T>, b: seq<T>, p: T -> bool)
    ensures Filter(a + b, p) == Filter(a, p) + Filter(b, p)
  {
    if b == [] {
      assert a + b == a;
    } else {
      assert (a + b)[..|a + b| - 1] == a + b[..|b| - 1];
      FilterAppend(a, b[..|b| - 1], p);
    }
  }

  /** A value is kept exactly when it occurs in the input and satisfies p. */
  lemma FilterMembers<T>(s: seq<T>, p: T -> bool)
    ensures forall x :: x in Filter(s, p) <==> x in s && p(x)
  {
    var r := Filter(s, p);
    forall x | x in r
      ensures x in s && p(x)
    {
      var i :| 0 <= i < |r| && r[i] == x;
    }
    forall x | x in s && p(x)
      ensures x in r
    {
      var i :| 0 <= i < |s| && s[i] == x;
    }
  }

  /** Two predicates that never hold together select at most |s| elements between them. */
  lemma {:induction false} FilterDisjointBound<T>(s: seq<T>, p: T -> bool, q: T -> bool)
    requires forall i :: 0 <= i < |s| ==> !(p(s[i]) && q(s[i]))
    ensures |Filter(s, p)| + |Filter(s, q)| <= |s|
  {
    if s != [] {
      FilterDisjointBound(s[..|s| - 1], p, q);
    }
  }

  /** A weaker predicate selects at least as many elements. */
  lemma {:induction false} FilterWeakerLonger<T>(s: seq<T>, p: T -> bool, q: T -> bool)
    requires forall i :: 0 <= i < |s| && p(s[i]) ==> q(s[i])
    ensures |Filter(s, p)| <= |Filter(s, q)|
  {
    if s != [] {
      FilterWeakerLonger(s[..|s| - 1], p, q);
    }
  }

  /** A prefix of b is a prefix of anything b is extended to. */
  lemma PrefixOfAppend<T>(a: seq<T>, b: seq<T>, c: seq<T>)
    requires a <= b
    ensures a <= b + c
  {
    assert (b + c)[..|a|] == b[..|a|];
  }

  /** `reduce((acc, x) => acc + f(x), 0)`. */
  function SumOf<T>(s: seq<T>, f: T -> real): real
  {
    if s == [] then 0.0 else SumOf(s[..|s| - 1], f) + f(s[|s| - 1])
  }

  /** `reduce((acc, x) => acc + f(x), 0)` over integer values. */
  function IntSumOf<T>(s: seq<T>, f: T -> int): int
  {
    if s == [] then 0 else IntSumOf(s[..|s| - 1], f) + f(s[|s| - 1])
  }

  /** `Array.prototype.reverse`, as a value. */
  function Reverse<T>(s: seq<T>): (r: seq<T>)
    ensures |r| == |s|
    ensures forall i :: 0 <= i < |s| ==> r[i] == s[|s| - 1 - i]
  {
    if s == [] then [] else Reverse(s[1..]) + [s[0]]
  }

  /** Reversing twice gives the sequence back. */
  lemma ReverseInvolutive<T>(s: seq<T>)
    ensures Reverse(Reverse(s)) == s
  {
  }

  /** `a.reverse()` on an array: reverses its elements in place. */
  method ReverseInPlace<T>(a: array<T>)
    modifies a
    ensures a[..] == Reverse(old(a[..]))
  {
    var lo, hi := 0, a.Length - 1;
    while lo < hi
      invariant 0 <= lo <= hi + 1 <= a.Length
      invariant lo + hi == a.Length - 1
      invariant forall k :: 0 <= k < lo || hi < k < a.Length ==> a[k] == old(a[a.Length - 1 - k])
      invariant forall k :: lo <= k <= hi ==> a[k] == old(a[k])
    {
      a[lo], a[hi] := a[hi], a[lo];
      lo, hi := lo + 1, hi - 1;
    }
  }
}
