/** Order-preserving selection from a sequence. */
module Seqs {

  /** `a` can be obtained from `b` by deleting elements, keeping the
      remaining ones in their original order. */
  ghost predicate IsSubsequence<T>(a: seq<T>, b: seq<T>)
    decreases |b|
  {
    if b == [] then a == []
    else IsSubsequence(a, b[1..]) || (a != [] && a[0] == b[0] && IsSubsequence(a[1..], b[1..]))
  }
}
