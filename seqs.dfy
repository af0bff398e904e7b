/** Sequence helpers shared by the model: the element-wise mapping that every
    "append one converted record per platform record" loop computes. */
module Seqs {

  /** `f` applied to every element of `s`, in order. */
  function Map<A, B>(f: A -> B, s: seq<A>): (r: seq<B>)
    ensures |r| == |s|
    ensures forall i :: 0 <= i < |s| ==> r[i] == f(s[i])
  {
    if s == [] then [] else Map(f, s[..|s| - 1]) + [f(s[|s| - 1])]
  }

  /** Mapping one more element appends its image. */
  lemma MapStep<A, B>(f: A -> B, s: seq<A>, j: nat)
    requires j < |s|
    ensures Map(f, s[..j + 1]) == Map(f, s[..j]) + [f(s[j])]
  {
    assert s[..j + 1][..j] == s[..j];
  }

  /** Appending the prefixes of `s` one element at a time. */
  lemma AppendPrefixStep<A>(a: seq<A>, s: seq<A>, i: nat)
    requires i < |s|
    ensures a + s[..i + 1] == (a + s[..i]) + [s[i]]
  {
    assert s[..i + 1] == s[..i] + [s[i]];
  }

  /** A slice that lies within the left operand of a concatenation. */
  lemma SliceOfAppend<A>(a: seq<A>, b: seq<A>, lo: nat, hi: nat)
    requires lo <= hi <= |a|
    ensures (a + b)[lo..hi] == a[lo..hi]
  {
    assert forall k :: lo <= k < hi ==> (a + b)[k] == a[k];
  }

  /** A slice that lies within the right operand of a concatenation. */
  lemma SliceOfAppendRight<A>(a: seq<A>, b: seq<A>, lo: nat, hi: nat)
    requires lo <= hi <= |b|
    ensures (a + b)[|a| + lo .. |a| + hi] == b[lo..hi]
  {
    assert forall k :: lo <= k < hi ==> (a + b)[|a| + k] == b[k];
  }

  /** Four single appends add a block of four. */
  lemma AppendFour<A>(s: seq<A>, a: A, b: A, c: A, d: A)
    ensures s + [a] + [b] + [c] + [d] == s + [a, b, c, d]
  {
  }

  /** Regrouping a chain of concatenations. */
  lemma AppendAssoc<A>(s: seq<A>, a: seq<A>, b: seq<A>, c: seq<A>)
    ensures s + a + b + c == s + (a + (b + c))
  {
  }

  function Min(a: int, b: int): (m: int)
    ensures m <= a && m <= b && (m == a || m == b)
  {
    if a < b then a else b
  }
}
