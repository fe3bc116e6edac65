/** The two Array.prototype operations the storefront's pages rely on:
    `filter`, and the comparator `sort`, which section 23.1.3.30 of ECMA-262
    (ECMAScript 2023) requires to be stable. Every comparator in the
    storefront has the shape `(a, b) => key(a) - key(b)` for an integer key,
    so the sort is modelled as "stable sort ascending by `key`". */
module EcmaArray {

  /** `s.filter(keep)`: the elements that pass, in their original order. */
  function Filter<T>(s: seq<T>, keep: T -> bool): (r: seq<T>)
    ensures |r| <= |s|
    decreases |s|
  {
    if |s| == 0 then []
    else
      var init, last := s[..|s| - 1], s[|s| - 1];
      assert s == init + [last];
      Filter(init, keep) + (if keep(last) then [last] else [])
  }

  lemma {:induction false} FilterConcat<T>(a: seq<T>, b: seq<T>, keep: T -> bool)
    ensures Filter(a + b, keep) == Filter(a, keep) + Filter(b, keep)
    decreases |b|
  {
    if |b| == 0 {
      assert a + b == a;
    } else {
      var init, last := b[..|b| - 1], b[|b| - 1];
      assert (a + b)[..|a + b| - 1] == a + init;
      assert (a + b)[|a + b| - 1] == last;
      FilterConcat(a, init, keep);
    }
  }

  /** Filtering keeps everything when every element passes. */
  lemma {:induction false} FilterKeepsAll<T>(s: seq<T>, keep: T -> bool)
    requires forall i :: 0 <= i < |s| ==> keep(s[i])
    ensures Filter(s, keep) == s
    decreases |s|
  {
    if |s| > 0 {
      assert s == s[..|s| - 1] + [s[|s| - 1]];
      FilterKeepsAll(s[..|s| - 1], keep);
    }
  }

  /** Filtering a one-element sequence. */
  lemma FilterSingleton<T>(x: T, keep: T -> bool)
    ensures Filter([x], keep) == if keep(x) then [x] else []
  {
    assert [x][..0] == [];
  }

  /** Filtering drops everything when nothing passes. */
  lemma {:induction false} FilterKeepsNone<T>(s: seq<T>, keep: T -> bool)
    requires forall i :: 0 <= i < |s| ==> !keep(s[i])
    ensures Filter(s, keep) == []
    decreases |s|
  {
    if |s| > 0 {
      FilterKeepsNone(s[..|s| - 1], keep);
    }
  }

  /** Everything the filter returns passes and comes from `s`, and every
      element of `s` that passes is returned. */
  lemma {:induction false} FilterExactly<T>(s: seq<T>, keep: T -> bool)
    ensures forall i :: 0 <= i < |Filter(s, keep)| ==> keep(Filter(s, keep)[i]) && Filter(s, keep)[i] in s
    ensures forall i :: 0 <= i < |s| && keep(s[i]) ==> s[i] in Filter(s, keep)
    decreases |s|
  {
    if |s| > 0 {
      var init, last := s[..|s| - 1], s[|s| - 1];
      FilterExactly(init, keep);
      var r, fi := Filter(s, keep), Filter(init, keep);
      assert r == fi + (if keep(last) then [last] else []);
      forall i | 0 <= i < |r|
        ensures keep(r[i]) && r[i] in s
      {
        if i < |fi| {
          assert r[i] == fi[i] && fi[i] in init;
        } else {
          assert r[i] == last;
        }
      }
      forall i | 0 <= i < |s| && keep(s[i])
        ensures s[i] in r
      {
        if i < |s| - 1 {
          assert s[i] == init[i] && init[i] in fi;
        }
      }
    }
  }

  /** Filters whose predicates agree on the elements of `s` agree. */
  lemma {:induction false} FilterSamePredicate<T>(s: seq<T>, p: T -> bool, q: T -> bool)
    requires forall i :: 0 <= i < |s| ==> p(s[i]) == q(s[i])
    ensures Filter(s, p) == Filter(s, q)
    decreases |s|
  {
    if |s| > 0 {
      FilterSamePredicate(s[..|s| - 1], p, q);
    }
  }

  // ---------------------------------------------------------------------
  // Stable sort by an integer key

  ghost predicate SortedBy<T>(s: seq<T>, key: T -> int) {
    forall i, j :: 0 <= i < j < |s| ==> key(s[i]) <= key(s[j])
  }

  /** The predicate "has key k", used to pick out one class of ties. */
  function KeyIs<T>(key: T -> int, k: int): T -> bool {
    x => key(x) == k
  }

  /** Inserts `x` into `t` after every element whose key is not larger:
      one step of a stable insertion sort. */
  function Insert<T>(t: seq<T>, x: T, key: T -> int): seq<T>
    decreases |t|
  {
    if |t| == 0 || key(t[|t| - 1]) <= key(x) then t + [x]
    else Insert(t[..|t| - 1], x, key) + [t[|t| - 1]]
  }

  /** The stable ascending sort of `s` by `key`, built by insertion. Its
      meaning is given by the lemmas below: a permutation of `s`
      (StableSortPermutes), non-decreasing in `key` (StableSortSorts), with
      every class of ties in input order (StableSortKeepsTies). */
  function StableSort<T>(s: seq<T>, key: T -> int): seq<T>
    decreases |s|
  {
    if |s| == 0 then []
    else Insert(StableSort(s[..|s| - 1], key), s[|s| - 1], key)
  }

  lemma {:induction false} InsertPermutes<T>(t: seq<T>, x: T, key: T -> int)
    ensures multiset(Insert(t, x, key)) == multiset(t) + multiset{x}
    decreases |t|
  {
    if !(|t| == 0 || key(t[|t| - 1]) <= key(x)) {
      var init, last := t[..|t| - 1], t[|t| - 1];
      assert t == init + [last];
      InsertPermutes(init, x, key);
    }
  }

  /** The sort result is a permutation of its input. */
  lemma {:induction false} StableSortPermutes<T>(s: seq<T>, key: T -> int)
    ensures multiset(StableSort(s, key)) == multiset(s)
    decreases |s|
  {
    if |s| > 0 {
      var init, last := s[..|s| - 1], s[|s| - 1];
      assert s == init + [last];
      StableSortPermutes(init, key);
      InsertPermutes(StableSort(init, key), last, key);
    }
  }

  /** The sort result is non-decreasing in the key. */
  lemma {:induction false} StableSortSorts<T>(s: seq<T>, key: T -> int)
    ensures SortedBy(StableSort(s, key), key)
    decreases |s|
  {
    if |s| > 0 {
      StableSortSorts(s[..|s| - 1], key);
      InsertKeepsSorted(StableSort(s[..|s| - 1], key), s[|s| - 1], key);
    }
  }

  lemma {:induction false} InsertLength<T>(t: seq<T>, x: T, key: T -> int)
    ensures |Insert(t, x, key)| == |t| + 1
    decreases |t|
  {
    if !(|t| == 0 || key(t[|t| - 1]) <= key(x)) {
      InsertLength(t[..|t| - 1], x, key);
    }
  }

  /** Every element of `Insert(t, x, key)` comes from `t` or is `x`. */
  lemma {:induction false} InsertFrom<T>(t: seq<T>, x: T, key: T -> int, i: int)
    requires 0 <= i <= |t|
    ensures |Insert(t, x, key)| == |t| + 1
    ensures Insert(t, x, key)[i] == x || exists m :: 0 <= m < |t| && t[m] == Insert(t, x, key)[i]
    decreases |t|
  {
    InsertLength(t, x, key);
    if |t| == 0 || key(t[|t| - 1]) <= key(x) {
      if i < |t| { assert t[i] == Insert(t, x, key)[i]; }
    } else {
      var init, last := t[..|t| - 1], t[|t| - 1];
      InsertLength(init, x, key);
      if i < |t| {
        InsertFrom(init, x, key, i);
        var r := Insert(init, x, key);
        if r[i] != x {
          var m :| 0 <= m < |init| && init[m] == r[i];
          assert t[m] == r[i];
        }
      } else {
        assert Insert(t, x, key)[i] == t[|t| - 1];
      }
    }
  }

  lemma {:induction false} InsertKeepsSorted<T>(t: seq<T>, x: T, key: T -> int)
    requires SortedBy(t, key)
    ensures SortedBy(Insert(t, x, key), key)
    decreases |t|
  {
    if |t| == 0 || key(t[|t| - 1]) <= key(x) {
    } else {
      var init, last := t[..|t| - 1], t[|t| - 1];
      InsertKeepsSorted(init, x, key);
      var r' := Insert(init, x, key);
      var r := r' + [last];
      assert Insert(t, x, key) == r;
      forall i, j | 0 <= i < j < |r| ensures key(r[i]) <= key(r[j]) {
        if j == |r| - 1 {
          InsertLength(init, x, key);
          InsertFrom(init, x, key, i);
          if r'[i] != x {
            var m :| 0 <= m < |init| && init[m] == r'[i];
            assert t[m] == r'[i];
          }
        }
      }
    }
  }

  /** Filtering a sequence extended by one element. */
  lemma FilterSnoc<T>(s: seq<T>, x: T, keep: T -> bool)
    ensures Filter(s + [x], keep) == Filter(s, keep) + (if keep(x) then [x] else [])
  {
    assert (s + [x])[..|s|] == s;
  }

  /** Inserting `x` leaves every class of ties other than x's untouched and
      puts `x` last in its own class. */
  lemma {:induction false} InsertKeepsTies<T>(t: seq<T>, x: T, key: T -> int, k: int)
    ensures Filter(Insert(t, x, key), KeyIs(key, k))
         == Filter(t, KeyIs(key, k)) + (if key(x) == k then [x] else [])
    decreases |t|
  {
    var p := KeyIs(key, k);
    var xs := if key(x) == k then [x] else [];
    assert p(x) == (key(x) == k);
    if |t| == 0 || key(t[|t| - 1]) <= key(x) {
      calc {
        Filter(Insert(t, x, key), p);
        Filter(t + [x], p);
        { FilterSnoc(t, x, p); }
        Filter(t, p) + xs;
      }
    } else {
      var init, last := t[..|t| - 1], t[|t| - 1];
      var ls := if key(last) == k then [last] else [];
      assert p(last) == (key(last) == k);
      calc {
        Filter(Insert(t, x, key), p);
        Filter(Insert(init, x, key) + [last], p);
        { FilterSnoc(Insert(init, x, key), last, p); }
        Filter(Insert(init, x, key), p) + ls;
        { InsertKeepsTies(init, x, key, k); }
        Filter(init, p) + xs + ls;
        { if key(x) == k { assert ls == []; } else { assert xs == []; } }
        Filter(init, p) + ls + xs;
        { FilterSnoc(init, last, p); assert init + [last] == t; }
        Filter(t, p) + xs;
      }
    }
  }

  /** Stability: for every key value, the elements with that key appear in
      the sorted result in the same order as in the input. */
  lemma {:induction false} StableSortKeepsTies<T>(s: seq<T>, key: T -> int, k: int)
    ensures Filter(StableSort(s, key), KeyIs(key, k)) == Filter(s, KeyIs(key, k))
    decreases |s|
  {
    if |s| > 0 {
      var p := KeyIs(key, k);
      var init, last := s[..|s| - 1], s[|s| - 1];
      calc {
        Filter(StableSort(s, key), p);
        Filter(Insert(StableSort(init, key), last, key), p);
        { InsertKeepsTies(StableSort(init, key), last, key, k); }
        Filter(StableSort(init, key), p) + (if key(last) == k then [last] else []);
        { StableSortKeepsTies(init, key, k); }
        Filter(init, p) + (if key(last) == k then [last] else []);
        { FilterSnoc(init, last, p); assert init + [last] == s; }
        Filter(s, p);
      }
    }
  }

  /** A sorted sequence whose last key is 0 (and no key is below 0) lies
      wholly in the 0-class. */
  lemma SortedEndingInZero<T>(r: seq<T>, key: T -> int)
    requires |r| > 0 && SortedBy(r, key) && key(r[|r| - 1]) == 0
    requires forall i :: 0 <= i < |r| ==> key(r[i]) == 0 || key(r[i]) == 1
    ensures Filter(r, KeyIs(key, 0)) == r && Filter(r, KeyIs(key, 1)) == []
  {
    var p0, p1 := KeyIs(key, 0), KeyIs(key, 1);
    forall i | 0 <= i < |r| ensures p0(r[i]) && !p1(r[i]) {
      if i < |r| - 1 {
        assert key(r[i]) <= key(r[|r| - 1]);
      }
    }
    FilterKeepsAll(r, p0);
    FilterKeepsNone(r, p1);
  }

  /** A sequence sorted by a key that only takes the values 0 and 1 is its
      0-class followed by its 1-class. */
  lemma {:induction false} SortedTwoClasses<T>(r: seq<T>, key: T -> int)
    requires SortedBy(r, key)
    requires forall i :: 0 <= i < |r| ==> key(r[i]) == 0 || key(r[i]) == 1
    ensures r == Filter(r, KeyIs(key, 0)) + Filter(r, KeyIs(key, 1))
    decreases |r|
  {
    if |r| > 0 {
      var init, last := r[..|r| - 1], r[|r| - 1];
      var p0, p1 := KeyIs(key, 0), KeyIs(key, 1);
      if key(last) == 1 {
        assert r == init + [last];
        assert !p0(last) && p1(last);
        FilterSnoc(init, last, p0);
        FilterSnoc(init, last, p1);
        assert SortedBy(init, key);
        SortedTwoClasses(init, key);
        assert r == Filter(init, p0) + (Filter(init, p1) + [last]);
      } else {
        SortedEndingInZero(r, key);
      }
    }
  }

  /** Sorting by a 0/1 key puts the whole 0-class, in input order, before
      the whole 1-class, in input order. */
  lemma TwoClassSort<T>(s: seq<T>, key: T -> int)
    requires forall i :: 0 <= i < |s| ==> key(s[i]) == 0 || key(s[i]) == 1
    ensures StableSort(s, key) == Filter(s, KeyIs(key, 0)) + Filter(s, KeyIs(key, 1))
  {
    var r := StableSort(s, key);
    StableSortPermutes(s, key);
    StableSortSorts(s, key);
    forall i | 0 <= i < |r| ensures key(r[i]) == 0 || key(r[i]) == 1 {
      assert r[i] in multiset(s);
      var j :| 0 <= j < |s| && s[j] == r[i];
    }
    SortedTwoClasses(r, key);
    StableSortKeepsTies(s, key, 0);
    StableSortKeepsTies(s, key, 1);
  }

  lemma InsertPastLarger<T>(t: seq<T>, j: int, x: T, key: T -> int)
    requires 0 < j <= |t| && key(t[j - 1]) > key(x)
    ensures Insert(t[..j], x, key) + t[j..] == Insert(t[..j - 1], x, key) + t[j - 1..]
  {
    assert t[..j][..j - 1] == t[..j - 1];
    assert t[j - 1..] == [t[j - 1]] + t[j..];
  }

  lemma InsertStops<T>(t: seq<T>, j: int, x: T, key: T -> int)
    requires 0 <= j <= |t| && (j == 0 || key(t[j - 1]) <= key(x))
    ensures Insert(t[..j], x, key) == t[..j] + [x]
  {
  }

  lemma StableSortPrefix<T>(s: seq<T>, i: int, key: T -> int)
    requires 0 <= i < |s|
    ensures StableSort(s[..i + 1], key) == Insert(StableSort(s[..i], key), s[i], key)
  {
    assert s[..i + 1][..i] == s[..i];
  }

  /** Swapping `x` with the element just before it moves the gap one step
      to the left. */
  lemma SwapDown<T>(t: seq<T>, x: T, j: int, rest: seq<T>, before: seq<T>, after: seq<T>)
    requires 0 < j <= |t| && before == t[..j] + [x] + t[j..] + rest
    requires after == before[j - 1 := x][j := t[j - 1]]
    ensures after == t[..j - 1] + [x] + t[j - 1..] + rest
  {
    var target := t[..j - 1] + [x] + t[j - 1..] + rest;
    assert |after| == |target|;
    forall n | 0 <= n < |after|
      ensures after[n] == target[n]
    {
      if n < j - 1 {
        assert before[n] == t[n];
      } else if j + 1 < n {
        assert before[n] == target[n];
      }
    }
  }

  /** The array as a gap-free sequence: the first `i + 1` cells and the rest. */
  lemma SplitAt<T>(u: seq<T>, front: seq<T>, rest: seq<T>)
    requires u == front + rest
    ensures u[..|front|] == front && u[|front|..] == rest
  {
  }

  /** One pass of the insertion sort: moves `a[i]` down past the larger
      keys before it, leaving `a[..i + 1]` equal to inserting it into the
      old `a[..i]`. */
  method SinkInto<T>(a: array<T>, i: int, key: T -> int)
    requires 0 <= i < a.Length
    modifies a
    ensures a[..i + 1] == Insert(old(a[..i]), old(a[i]), key)
    ensures a[i + 1..] == old(a[i + 1..])
  {
    ghost var t := a[..i];
    ghost var rest := a[i + 1..];
    var x := a[i];
    var j := i;
    assert a[..] == a[..i] + [a[i]] + a[i + 1..];
    assert t[..j] == t && t[j..] == [];
    while j > 0 && key(a[j - 1]) > key(a[j])
      invariant 0 <= j <= i && |t| == i
      invariant a[..] == t[..j] + [x] + t[j..] + rest
      invariant Insert(t, x, key) == Insert(t[..j], x, key) + t[j..]
    {
      ghost var before := a[..];
      assert before[j - 1] == t[j - 1] && before[j] == x;
      a[j - 1], a[j] := a[j], a[j - 1];
      SwapDown(t, x, j, rest, before, a[..]);
      InsertPastLarger(t, j, x, key);
      j := j - 1;
    }
    InsertStops(t, j, x, key);
    SplitAt(a[..], t[..j] + [x] + t[j..], rest);
  }

  /** `a.sort((x, y) => key(x) - key(y))` in place: an insertion sort, which
      is stable, proved to leave exactly StableSort of the old contents. */
  method SortInPlace<T>(a: array<T>, key: T -> int)
    modifies a
    ensures a[..] == StableSort(old(a[..]), key)
  {
    ghost var s := a[..];
    var i := 0;
    while i < a.Length
      invariant 0 <= i <= a.Length
      invariant a[..i] == StableSort(s[..i], key)
      invariant a[i..] == s[i..]
    {
      assert a[i] == s[i];
      SinkInto(a, i, key);
      StableSortPrefix(s, i, key);
      assert a[i + 1..] == s[i + 1..] by {
        assert s[i..][1..] == s[i + 1..];
      }
      i := i + 1;
    }
    assert a[..] == a[..a.Length];
    assert s == s[..a.Length];
  }
}
