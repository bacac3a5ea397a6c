/**
 * Facts about slicing and concatenating sequences, stated once for any element
 * type so that the proofs about words, stats and claims can cite them without
 * re-deriving sequence extensionality in a larger context.
 */
module Seqs {
  lemma DropAppend<T>(a: seq<T>, u: seq<T>, i: nat)
    requires i <= |a|
    ensures (a + u)[i..] == a[i..] + u
  {
  }

  lemma DropPastPrefix<T>(a: seq<T>, u: seq<T>, k: nat)
    requires k <= |u|
    ensures (a + u)[|a| + k..] == u[k..]
  {
  }

  lemma AppendAssociates<T>(a: seq<T>, b: seq<T>, c: seq<T>)
    ensures a + b + c == a + (b + c)
  {
  }

  lemma DropLastAppend<T>(a: seq<T>, b: seq<T>)
    requires b != []
    ensures (a + b)[..|a + b| - 1] == a + b[..|b| - 1]
    ensures (a + b)[|a + b| - 1] == b[|b| - 1]
  {
  }

  lemma TakeAppend<T>(a: seq<T>, u: seq<T>, i: nat)
    requires i <= |a|
    ensures (a + u)[..i] == a[..i]
  {
  }

  lemma SplitAt<T>(s: seq<T>, i: nat)
    requires i <= |s|
    ensures s[..i] + s[i..] == s
  {
  }
}
