/**
 * The list edits behind every checkbox in the filter panel and the listing form:
 * `list.filter(x => x !== v)` and "remove if included, else append".
 */
module SelectionList {
  import opened Seqs

  /** `xs.filter(x => x !== v)`: every occurrence of `v` goes, the rest keeps its order. */
  function Without<T(==)>(xs: seq<T>, v: T): (r: seq<T>)
    ensures v !in r
    ensures multiset(r) == multiset(xs)[v := 0]
    ensures IsSubsequence(r, xs)
  {
    if xs == [] then []
    else
      var rest := Without(xs[1..], v);
      assert xs == [xs[0]] + xs[1..];
      if xs[0] == v then
        (assert rest == [] || rest[0] != xs[0]; rest)
      else
        [xs[0]] + rest
  }

  /** Removing a value that is not there changes nothing. */
  lemma {:induction false} WithoutAbsent<T>(xs: seq<T>, v: T)
    requires v !in xs
    ensures Without(xs, v) == xs
  {
    if xs != [] {
      WithoutAbsent(xs[1..], v);
    }
  }

  /** Removal distributes over concatenation. */
  lemma {:induction false} WithoutAppend<T>(xs: seq<T>, ys: seq<T>, v: T)
    ensures Without(xs + ys, v) == Without(xs, v) + Without(ys, v)
  {
    if xs != [] {
      var zs := xs + ys;
      assert zs[0] == xs[0] && zs[1..] == xs[1..] + ys;
      WithoutAppend(xs[1..], ys, v);
      if xs[0] == v {
        assert Without(zs, v) == Without(zs[1..], v);
        assert Without(xs, v) == Without(xs[1..], v);
      } else {
        assert Without(zs, v) == [xs[0]] + Without(zs[1..], v);
        assert Without(xs, v) == [xs[0]] + Without(xs[1..], v);
      }
    } else {
      assert xs + ys == ys;
    }
  }

  /** A checkbox click: remove every occurrence of a selected value, or append an unselected one. */
  function Toggle<T(==)>(xs: seq<T>, v: T): (r: seq<T>)
    ensures v !in xs ==> r == xs + [v]
    ensures v in xs ==> multiset(r) == multiset(xs)[v := 0] && IsSubsequence(r, xs)
    ensures (v in r) == (v !in xs)
  {
    if v in xs then Without(xs, v) else xs + [v]
  }

  /** Clicking an unselected value twice restores the original selection. */
  lemma ToggleTwiceAbsent<T>(xs: seq<T>, v: T)
    requires v !in xs
    ensures Toggle(Toggle(xs, v), v) == xs
  {
    WithoutAppend(xs, [v], v);
    WithoutAbsent(xs, v);
    assert Without([v], v) == [];
  }

  /** Clicking a selected value twice leaves a single copy of it, now at the end, and the rest in order. */
  lemma ToggleTwicePresent<T>(xs: seq<T>, v: T)
    requires v in xs
    ensures Toggle(Toggle(xs, v), v) == Without(xs, v) + [v]
  {
  }

  /** A selection without repeats never gains one through a toggle. */
  lemma ToggleKeepsNoDuplicates<T>(xs: seq<T>, v: T)
    requires NoDuplicates(xs)
    ensures NoDuplicates(Toggle(xs, v))
  {
    var r := Toggle(xs, v);
    forall u | u in r ensures multiset(r)[u] == 1 {
      if u != v {
        assert u in multiset(r);
        assert u in xs;
      }
    }
  }
}
