/** Order-preserving selection over sequences. */
module Sequences {

  /** `a` can be obtained from `b` by deleting elements, so `a` keeps the order of `b`. */
  predicate Subsequence<T(==)>(a: seq<T>, b: seq<T>)
    decreases |b|
  {
    if |a| == 0 then true
    else if |b| == 0 then false
    else Subsequence(a, b[1..]) || (a[0] == b[0] && Subsequence(a[1..], b[1..]))
  }

  /** A subsequence is no longer than the sequence it is taken from, and draws
      every element from it. */
  lemma {:induction false} SubsequenceMembers<T>(a: seq<T>, b: seq<T>)
    requires Subsequence(a, b)
    ensures |a| <= |b|
    ensures forall x :: x in a ==> x in b
    decreases |b|
  {
    if |a| > 0 {
      if Subsequence(a, b[1..]) {
        SubsequenceMembers(a, b[1..]);
      } else {
        SubsequenceMembers(a[1..], b[1..]);
        forall x | x in a
          ensures x in b
        {
          if x != a[0] {
            assert x in a[1..];
          }
        }
      }
    }
  }
}
