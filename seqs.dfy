/**
 * Facts about sequence concatenation and slicing, stated once over any
 * element type so that proofs about strings, chunks and events can use them
 * without unfolding the elements.
 */
module Seqs {

  lemma AppendAssociates<T>(a: seq<T>, b: seq<T>, c: seq<T>)
    ensures a + b + c == a + (b + c)
  {
  }

  /** The suffix from j, followed by b, starts with a[j] and continues with the suffix from j + 1. */
  lemma SuffixAppendUncons<T>(a: seq<T>, b: seq<T>, j: nat)
    requires j < |a|
    ensures (a[j..] + b)[0] == a[j]
    ensures (a[j..] + b)[1..] == a[j + 1..] + b
  {
    assert (a[j..] + b)[1..] == a[j..][1..] + b;
  }

  /** The suffix from j starts with a[j] and continues with the suffix from j + 1. */
  lemma SuffixUncons<T>(a: seq<T>, j: nat)
    requires j < |a|
    ensures a[j..][0] == a[j] && a[j..][1..] == a[j + 1..]
  {
  }
}
