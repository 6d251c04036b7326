/** Facts about sequences shared by the translation's proofs. */
module Seqs {

  /** Concatenation is associative. Stated once so that proofs about long
      concatenations of translated items need not re-derive it by
      extensionality in a large context. */
  lemma AppendAssoc<T>(x: seq<T>, y: seq<T>, z: seq<T>)
    ensures x + (y + z) == x + y + z
  {
  }

  /** Appending four pieces one at a time appends their concatenation. */
  lemma AppendFour<T>(v: seq<T>, a: seq<T>, b: seq<T>, c: seq<T>, d: seq<T>)
    ensures v + a + b + c + d == v + (a + b + c + d)
  {
    AppendAssoc(v, a, b);
    AppendAssoc(v, a + b, c);
    AppendAssoc(v, a + b + c, d);
  }
}
