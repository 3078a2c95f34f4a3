/** Small shared vocabulary: a value that may be absent, and sequence
    regrouping. */
module Wrappers {
  /** Python's `None`, or a value. */
  datatype Option<T> = None | Some(value: T)

  /** Regrouping a concatenation, stated once so that proofs about logs and
      traces need not rediscover it. */
  lemma AppendIsAssociative<T>(a: seq<T>, b: seq<T>, c: seq<T>)
    ensures (a + b) + c == a + (b + c)
  {
  }
}
