/** Vocabulary for sequences. */
module Sequences {
  predicate NoRepeats(items: seq<string>) {
    forall m, n :: 0 <= m < n < |items| ==> items[m] != items[n]
  }

  /** `"".join(chunks)` */
  function Join(chunks: seq<string>): string {
    if chunks == [] then "" else chunks[0] + Join(chunks[1..])
  }

  lemma ConcatAssoc<T>(a: seq<T>, b: seq<T>, c: seq<T>)
    ensures a + (b + c) == a + b + c
  {
  }

  /** The last item of a concatenation is the last of its second part, and can be replaced there. */
  lemma LastReplaced<T>(a: seq<T>, b: seq<T>, x: T)
    requires b != []
    ensures (a + b)[|a + b| - 1] == b[|b| - 1]
    ensures (a + b)[..|a + b| - 1] + [x] == a + (b[..|b| - 1] + [x])
  {
  }
}
