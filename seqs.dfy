/** Facts about sequences shared by the modules that accumulate records, queries and delays. */
module Seqs {

  /** Concatenation regroups freely: appending after an append is one append of the joined tail. */
  lemma AppendAssoc<T>(a: seq<T>, b: seq<T>, c: seq<T>)
    ensures (a + b) + c == a + (b + c)
  {
  }
}
