/**
 * `Array.prototype.sort` with a comparator, as ECMAScript 2019 and later require it:
 * a stable sort. `after(a, b)` stands for `compareFn(a, b) > 0`, that is, "a must be
 * placed behind b"; elements the comparator calls equal keep their relative order.
 *
 * The specification is `StableSort`, a functional insertion sort; `InsertionSort`
 * sorts an array in place and is proved to produce exactly `StableSort` of its old
 * contents. The lemmas show that `StableSort` permutes, orders and is stable.
 */
module Sorting {

  /** `after` is a strict weak order: asymmetric, and "not after" is transitive. */
  ghost predicate StrictWeakOrder<T(!new)>(after: (T, T) -> bool) {
    && (forall a, b :: after(a, b) ==> !after(b, a))
    && (forall a, b, c :: after(a, c) ==> after(a, b) || after(b, c))
  }

  /** No element is placed behind one that comes later in `s`. */
  predicate Sorted<T>(s: seq<T>, after: (T, T) -> bool) {
    forall i, j :: 0 <= i < j < |s| ==> !after(s[i], s[j])
  }

  /** Neither of `a` and `b` must come behind the other: the comparator returns 0. */
  predicate Tied<T>(a: T, b: T, after: (T, T) -> bool) {
    !after(a, b) && !after(b, a)
  }

  /** The elements of `s` tied with `y`, in their order in `s`. */
  function TiedWith<T>(s: seq<T>, y: T, after: (T, T) -> bool): seq<T> {
    if s == [] then []
    else TiedWith(s[..|s| - 1], y, after) + (if Tied(s[|s| - 1], y, after) then [s[|s| - 1]] else [])
  }

  /** Inserts `x` behind every element of `s` that it does not have to precede. */
  function Insert<T>(s: seq<T>, x: T, after: (T, T) -> bool): seq<T> {
    if s == [] then [x]
    else if after(s[|s| - 1], x) then Insert(s[..|s| - 1], x, after) + [s[|s| - 1]]
    else s + [x]
  }

  /** The stable sort of `s`: each element in turn is inserted into the sorted prefix. */
  function StableSort<T>(s: seq<T>, after: (T, T) -> bool): seq<T> {
    if s == [] then [] else Insert(StableSort(s[..|s| - 1], after), s[|s| - 1], after)
  }

  lemma {:induction false} InsertPermutes<T>(s: seq<T>, x: T, after: (T, T) -> bool)
    ensures multiset(Insert(s, x, after)) == multiset(s) + multiset{x}
  {
    if s != [] && after(s[|s| - 1], x) {
      InsertPermutes(s[..|s| - 1], x, after);
      assert s == s[..|s| - 1] + [s[|s| - 1]];
    }
  }

  /** The sorted sequence holds exactly the elements of the input, with their multiplicities. */
  lemma {:induction false} StableSortPermutes<T>(s: seq<T>, after: (T, T) -> bool)
    ensures multiset(StableSort(s, after)) == multiset(s)
  {
    if s != [] {
      StableSortPermutes(s[..|s| - 1], after);
      InsertPermutes(StableSort(s[..|s| - 1], after), s[|s| - 1], after);
      assert s == s[..|s| - 1] + [s[|s| - 1]];
      assert multiset(s) == multiset(s[..|s| - 1]) + multiset{s[|s| - 1]};
    }
  }

  /** If neither `x` nor any element of `s` must come behind `z`, no element of `Insert(s, x)` must. */
  lemma InsertBounded<T>(s: seq<T>, x: T, z: T, after: (T, T) -> bool)
    requires !after(x, z) && forall k :: 0 <= k < |s| ==> !after(s[k], z)
    ensures forall i :: 0 <= i < |Insert(s, x, after)| ==> !after(Insert(s, x, after)[i], z)
  {
    var p := Insert(s, x, after);
    InsertPermutes(s, x, after);
    forall i | 0 <= i < |p| ensures !after(p[i], z) {
      assert p[i] in multiset(p);
      if p[i] != x {
        assert p[i] in s;
      }
    }
  }

  lemma {:induction false} InsertSorted<T(!new)>(s: seq<T>, x: T, after: (T, T) -> bool)
    requires StrictWeakOrder(after) && Sorted(s, after)
    ensures Sorted(Insert(s, x, after), after)
  {
    if s == [] {
    } else {
      var init, last := s[..|s| - 1], s[|s| - 1];
      if after(last, x) {
        assert Sorted(init, after) by {
          forall i, j | 0 <= i < j < |init| ensures !after(init[i], init[j]) {
            assert init[i] == s[i] && init[j] == s[j];
          }
        }
        InsertSorted(init, x, after);
        forall k | 0 <= k < |init| ensures !after(init[k], last) {
          assert init[k] == s[k];
        }
        InsertBounded(init, x, last, after);
        assert Insert(s, x, after) == Insert(init, x, after) + [last];
      } else {
        forall i | 0 <= i < |s| ensures !after(s[i], x) {
          if i < |s| - 1 {
            assert !after(s[i], last);
          }
        }
      }
    }
  }

  /** Sorting leaves no element ahead of one it must follow. */
  lemma {:induction false} StableSortSorted<T(!new)>(s: seq<T>, after: (T, T) -> bool)
    requires StrictWeakOrder(after)
    ensures Sorted(StableSort(s, after), after)
  {
    if s != [] {
      StableSortSorted(s[..|s| - 1], after);
      InsertSorted(StableSort(s[..|s| - 1], after), s[|s| - 1], after);
    }
  }

  lemma {:induction false} InsertKeepsTies<T(!new)>(s: seq<T>, x: T, y: T, after: (T, T) -> bool)
    requires StrictWeakOrder(after)
    ensures TiedWith(Insert(s, x, after), y, after)
         == TiedWith(s, y, after) + (if Tied(x, y, after) then [x] else [])
  {
    if s == [] {
      assert Insert(s, x, after) == [] + [x];
    } else {
      var init, last := s[..|s| - 1], s[|s| - 1];
      if after(last, x) {
        InsertKeepsTies(init, x, y, after);
        var p := Insert(init, x, after);
        assert (p + [last])[..|p|] == p;
      } else {
        assert (s + [x])[..|s|] == s;
      }
    }
  }

  /** Stability: the elements tied with any `y` keep their relative order. */
  lemma {:induction false} StableSortStable<T(!new)>(s: seq<T>, y: T, after: (T, T) -> bool)
    requires StrictWeakOrder(after)
    ensures TiedWith(StableSort(s, after), y, after) == TiedWith(s, y, after)
  {
    if s != [] {
      StableSortStable(s[..|s| - 1], y, after);
      InsertKeepsTies(StableSort(s[..|s| - 1], after), s[|s| - 1], y, after);
    }
  }

  /**
   * Where the insertion of `x` ends: behind `s[..j]` when the elements from `j` on
   * must all come behind `x` and the one before them need not.
   */
  lemma {:induction false} InsertSplits<T>(s: seq<T>, x: T, j: int, after: (T, T) -> bool)
    requires 0 <= j <= |s| && (j == 0 || !after(s[j - 1], x))
    requires forall k :: j <= k < |s| ==> after(s[k], x)
    ensures Insert(s, x, after) == s[..j] + [x] + s[j..]
  {
    if j == |s| {
      assert s[..j] == s && s[j..] == [];
    } else {
      var init, last := s[..|s| - 1], s[|s| - 1];
      assert after(last, x);
      if j > 0 {
        assert init[j - 1] == s[j - 1];
      }
      forall k | j <= k < |init| ensures after(init[k], x) {
        assert init[k] == s[k];
      }
      InsertSplits(init, x, j, after);
      assert init[..j] == s[..j];
      assert init[j..] + [last] == s[j..];
    }
  }

  /** A sequence holding `s[..j]`, then `x`, then `s[j..]` in its first `|s| + 1` places. */
  lemma Splice<T>(b: seq<T>, s: seq<T>, x: T, j: int)
    requires 0 <= j <= |s| < |b| && b[j] == x
    requires forall k :: 0 <= k < j ==> b[k] == s[k]
    requires forall k :: j < k <= |s| ==> b[k] == s[k - 1]
    ensures b[..|s| + 1] == s[..j] + [x] + s[j..]
  {
    var r := s[..j] + [x] + s[j..];
    forall k | 0 <= k <= |s| ensures b[k] == r[k] {
      if k < j {
        assert r[k] == s[k];
      } else if k > j {
        assert r[k] == s[k - 1];
      }
    }
  }

  /** Inserts `a[i]` into the sorted prefix `a[..i]`, shifting the elements it must precede one place right. */
  method InsertAt<T>(a: array<T>, i: int, after: (T, T) -> bool)
    requires 0 <= i < a.Length
    modifies a
    ensures a[..i + 1] == Insert(old(a[..i]), old(a[i]), after)
    ensures a[i + 1..] == old(a[i + 1..])
  {
    var x := a[i];
    ghost var s := a[..i];
    var j := i;
    while j > 0 && after(a[j - 1], x)
      invariant 0 <= j <= i
      invariant forall k :: 0 <= k < j ==> a[k] == s[k]
      invariant forall k :: j < k <= i ==> a[k] == s[k - 1]
      invariant forall k :: i < k < a.Length ==> a[k] == old(a[k])
      invariant forall k :: j <= k < i ==> after(s[k], x)
    {
      a[j] := a[j - 1];
      j := j - 1;
    }
    InsertSplits(s, x, j, after);
    a[j] := x;
    Splice(a[..], s, x, j);
  }

  /** Sorts `a` in place by inserting each element into the sorted prefix before it. */
  method InsertionSort<T>(a: array<T>, after: (T, T) -> bool)
    modifies a
    ensures a[..] == StableSort(old(a[..]), after)
  {
    ghost var orig := a[..];
    var i := 0;
    while i < a.Length
      invariant 0 <= i <= a.Length
      invariant a[..i] == StableSort(orig[..i], after)
      invariant a[i..] == orig[i..]
    {
      assert orig[..i + 1][..i] == orig[..i];
      InsertAt(a, i, after);
      i := i + 1;
    }
    assert orig[..a.Length] == orig;
  }
}
