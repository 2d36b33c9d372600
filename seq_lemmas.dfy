/** Slicing facts over sequences of any element type, stated once so that
    proofs about melds and tiles need not rediscover them. */
module SeqLemmas {
  /** One more element of a prefix. */
  lemma PrefixStep<T>(s: seq<T>, i: nat)
    requires i < |s|
    ensures s[..i + 1] == s[..i] + [s[i]]
    ensures s[..i + 1][..i] == s[..i]
  {
  }

  /** The slices before, at and after position j. */
  lemma Slices<T>(b: seq<T>, j: nat)
    requires j < |b|
    ensures b[..j + 1] + b[j + 1..] == b && b[..j + 1][..j] == b[..j]
  {
  }
}
