/** Small shared vocabulary: optional values, the answer of a storage query,
    and two facts about sequences used by the key space and the storefront. */
module Common {

  /** The value a cache lookup yields: `None` is Python's `None` for a miss. */
  datatype Option<T> = None | Some(value: T)

  /** What a call into the storage layer yields: the rows it returned, or the
      exception it raised, kept as the text `str(e)` would give. */
  datatype Query<T> = Answer(value: T) | Fault(detail: string)

  function Min(a: int, b: int): int
  {
    if a <= b then a else b
  }

  /** `a` can be obtained from `b` by deleting elements (order is kept). */
  predicate IsSubsequence<T(==)>(a: seq<T>, b: seq<T>)
    decreases |b|
  {
    if a == [] then true
    else if b == [] then false
    else if a[0] == b[0] then IsSubsequence(a[1..], b[1..])
    else IsSubsequence(a, b[1..])
  }

  /** A prefix of a subsequence is again a subsequence. */
  lemma {:induction false} SubsequencePrefix<T>(b: seq<T>, c: seq<T>, n: nat)
    requires n <= |b| && IsSubsequence(b, c)
    ensures IsSubsequence(b[..n], c)
    decreases |c|
  {
    if n > 0 {
      if b[0] == c[0] {
        SubsequencePrefix(b[1..], c[1..], n - 1);
        assert b[..n][1..] == b[1..][..n - 1];
      } else {
        SubsequencePrefix(b, c[1..], n);
      }
    }
  }
}
