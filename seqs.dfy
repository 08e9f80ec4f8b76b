/** Facts about sequences shared by the listing pipeline and the selection lists. */
module Seqs {

  /** Every value occurs at most once in `s` (what a JavaScript `Set` guarantees). */
  ghost predicate NoDuplicates<T>(s: seq<T>) {
    forall x | x in s :: multiset(s)[x] == 1
  }

  /** Two positions of a duplicate-free sequence hold different values. */
  lemma DistinctAt<T>(s: seq<T>, i: int, j: int)
    requires NoDuplicates(s)
    requires 0 <= i < j < |s|
    ensures s[i] != s[j]
  {
    var x := s[i];
    assert s == s[..j] + [s[j]] + s[j + 1..];
    assert s[..j][i] == x;
    assert multiset(s)[x] == multiset(s[..j])[x] + multiset([s[j]])[x] + multiset(s[j + 1..])[x];
  }

  /** Appending a value not yet present keeps a sequence duplicate-free. */
  lemma AppendFreshKeepsNoDuplicates<T>(s: seq<T>, v: T)
    requires NoDuplicates(s) && v !in s
    ensures NoDuplicates(s + [v])
  {
    var r := s + [v];
    assert multiset(r) == multiset(s) + multiset{v};
    forall u | u in r ensures multiset(r)[u] == 1 {
      if u != v {
        assert u in s;
      }
    }
  }

  /** `a` is obtained from `b` by dropping elements, without reordering or altering the rest. */
  predicate IsSubsequence<T(==)>(a: seq<T>, b: seq<T>) {
    if a == [] then true
    else if b == [] then false
    else if a[0] == b[0] then IsSubsequence(a[1..], b[1..])
    else IsSubsequence(a, b[1..])
  }

  /** Stated as a lemma so that a proof about concatenations can use it without unfolding the sequences. */
  lemma ConcatAssociative<T>(a: seq<T>, b: seq<T>, c: seq<T>)
    ensures a + (b + c) == (a + b) + c
  {
  }
}
