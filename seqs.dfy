/**
 * Facts about sequences used by the loop proofs, stated once for any element
 * type. Called as lemmas, each fact is proved once here, away from the large
 * contexts of the loops that use it, where the same `assert` costs the solver
 * far more.
 */
module Seqs {
  /** Taking the whole sequence gives it back. */
  lemma TakeAll<T>(s: seq<T>)
    ensures s[..|s|] == s
  {
  }

  /** A prefix of a longer prefix is the shorter prefix. */
  lemma TakeTake<T>(s: seq<T>, i: nat, j: nat)
    requires i <= j <= |s|
    ensures s[..j][..i] == s[..i]
  {
  }

  /** Concatenation of sequences is associative. */
  lemma ConcatAssoc<T>(a: seq<T>, b: seq<T>, c: seq<T>)
    ensures (a + b) + c == a + (b + c)
  {
  }
}
