/** Small facts about sequences, stated once so that bigger proofs can cite them
    instead of rediscovering them. */
module Seqs {
  /** A slice is its first element followed by the rest of it. */
  lemma SliceCons<T>(s: seq<T>, k: nat, e: nat)
    requires k < e <= |s|
    ensures [s[k]] + s[k + 1..e] == s[k..e]
  {
  }

  /** The slice from the start to the end is the whole sequence. */
  lemma SliceAll<T>(s: seq<T>)
    ensures s[0..|s|] == s
  {
  }

  /** An empty slice is the empty sequence. */
  lemma SliceEmpty<T>(s: seq<T>, i: nat)
    requires i <= |s|
    ensures s[i..i] == []
  {
  }

  /** A slice of length one. */
  lemma SliceOne<T>(s: seq<T>, i: nat)
    requires i < |s|
    ensures s[i..i + 1] == [s[i]]
  {
  }

  /** Two adjacent slices make up the slice that spans both. */
  lemma SliceSplit<T>(s: seq<T>, i: nat, j: nat, e: nat)
    requires i <= j <= e <= |s|
    ensures s[i..j] + s[j..e] == s[i..e]
  {
  }

  lemma AppendAssoc<T>(a: seq<T>, b: seq<T>, c: seq<T>)
    ensures (a + b) + c == a + (b + c)
  {
  }
}
