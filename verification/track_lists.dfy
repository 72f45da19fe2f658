/**
 * The chain every track-list builder applies to raw records: keep the
 * publishable ones (`filter`), order them by an ordinal field (`sort` with an
 * `a.k - b.k` comparator, which is stable), and convert each (`map`).
 */
module TrackLists {

  /** `xs.filter(p)`. */
  function Filter<T>(xs: seq<T>, p: T -> bool): (r: seq<T>)
    ensures |r| <= |xs|
    decreases |xs|
  {
    if xs == [] then []
    else (if p(xs[0]) then [xs[0]] else []) + Filter(xs[1..], p)
  }

  lemma {:induction false} FilterSubMultiset<T>(xs: seq<T>, p: T -> bool)
    ensures multiset(Filter(xs, p)) <= multiset(xs)
    decreases |xs|
  {
    if xs != [] {
      FilterSubMultiset(xs[1..], p);
      assert xs == [xs[0]] + xs[1..];
      assert multiset(xs) == multiset{xs[0]} + multiset(xs[1..]);
    }
  }

  lemma {:induction false} FilterPassing<T>(xs: seq<T>, p: T -> bool)
    ensures forall x :: x in Filter(xs, p) ==> x in xs && p(x)
    decreases |xs|
  {
    if xs != [] {
      FilterPassing(xs[1..], p);
      assert xs == [xs[0]] + xs[1..];
    }
  }

  lemma {:induction false} FilterComplete<T>(xs: seq<T>, p: T -> bool)
    ensures forall x :: x in xs && p(x) ==> x in Filter(xs, p)
    decreases |xs|
  {
    if xs != [] {
      FilterComplete(xs[1..], p);
      assert xs == [xs[0]] + xs[1..];
    }
  }

  /** The filter keeps exactly the elements that pass, none more often than in the input. */
  lemma FilterKeepsPassing<T>(xs: seq<T>, p: T -> bool)
    ensures var r := Filter(xs, p);
      && (forall i :: 0 <= i < |r| ==> r[i] in xs && p(r[i]))
      && (forall i :: 0 <= i < |xs| && p(xs[i]) ==> xs[i] in r)
      && multiset(r) <= multiset(xs)
  {
    FilterPassing(xs, p);
    FilterComplete(xs, p);
    FilterSubMultiset(xs, p);
  }

  /** An element that fails the test makes the filtered list strictly shorter. */
  lemma {:induction false} FilterDropsFailing<T>(xs: seq<T>, p: T -> bool, i: nat)
    requires i < |xs| && !p(xs[i])
    ensures |Filter(xs, p)| < |xs|
    decreases |xs|
  {
    if i > 0 {
      assert xs[1..][i - 1] == xs[i];
      FilterDropsFailing(xs[1..], p, i - 1);
    }
  }

  lemma {:induction false} FilterConcat<T>(a: seq<T>, b: seq<T>, p: T -> bool)
    ensures Filter(a + b, p) == Filter(a, p) + Filter(b, p)
    decreases |a|
  {
    if a != [] {
      var h := if p(a[0]) then [a[0]] else [];
      var fb := Filter(b, p);
      assert Filter(a + b, p) == h + Filter(a[1..] + b, p) by {
        assert (a + b)[0] == a[0];
        assert (a + b)[1..] == a[1..] + b;
      }
      assert Filter(a[1..] + b, p) == Filter(a[1..], p) + fb by {
        FilterConcat(a[1..], b, p);
      }
      assert h + (Filter(a[1..], p) + fb) == (h + Filter(a[1..], p)) + fb;
    } else {
      assert a + b == b;
    }
  }

  lemma {:induction false} FilterNone<T>(xs: seq<T>, p: T -> bool)
    requires forall x :: x in xs ==> !p(x)
    ensures Filter(xs, p) == []
    decreases |xs|
  {
    if xs != [] {
      assert xs[0] in xs;
      FilterNone(xs[1..], p);
    }
  }

  predicate SortedBy<T>(xs: seq<T>, key: T -> int) {
    forall i, j :: 0 <= i < j < |xs| ==> key(xs[i]) <= key(xs[j])
  }

  /** Places `x` after every element, from the front, whose key is not greater than its own. */
  function Insert<T>(x: T, xs: seq<T>, key: T -> int): (r: seq<T>)
    ensures |r| == |xs| + 1
    decreases |xs|
  {
    if xs == [] || key(x) < key(xs[0]) then [x] + xs
    else [xs[0]] + Insert(x, xs[1..], key)
  }

  /** `xs.sort((a, b) => key(a) - key(b))`, as insertion of each element in turn into the sorted prefix. */
  function SortByKey<T>(xs: seq<T>, key: T -> int): (r: seq<T>)
    ensures |r| == |xs|
    decreases |xs|
  {
    if xs == [] then []
    else Insert(xs[|xs| - 1], SortByKey(xs[..|xs| - 1], key), key)
  }

  lemma ConsSorted<T>(y: T, ys: seq<T>, key: T -> int)
    requires SortedBy(ys, key) && (ys == [] || key(y) <= key(ys[0]))
    ensures SortedBy([y] + ys, key)
  {
    var r := [y] + ys;
    forall i, j | 0 <= i < j < |r| ensures key(r[i]) <= key(r[j]) {
      if i > 0 {
        assert r[i] == ys[i - 1] && r[j] == ys[j - 1];
      } else {
        assert r[j] == ys[j - 1];
        assert key(ys[0]) <= key(ys[j - 1]) || j - 1 == 0;
      }
    }
  }

  /** Inserting into a sorted list keeps it sorted; the new head is `x` or the old head. */
  lemma {:induction false} InsertSorted<T>(x: T, xs: seq<T>, key: T -> int)
    requires SortedBy(xs, key)
    ensures SortedBy(Insert(x, xs, key), key)
    ensures Insert(x, xs, key)[0] == x || (xs != [] && Insert(x, xs, key)[0] == xs[0])
    decreases |xs|
  {
    if xs == [] || key(x) < key(xs[0]) {
      ConsSorted(x, xs, key);
    } else {
      SortedTail(xs, key);
      InsertSorted(x, xs[1..], key);
      var rest := Insert(x, xs[1..], key);
      assert rest[0] == x || rest[0] == xs[1];
      ConsSorted(xs[0], rest, key);
    }
  }

  /** Inserting adds exactly one occurrence of `x` and nothing else. */
  lemma {:induction false} InsertPermutation<T>(x: T, xs: seq<T>, key: T -> int)
    ensures multiset(Insert(x, xs, key)) == multiset(xs) + multiset{x}
    decreases |xs|
  {
    if xs != [] && key(xs[0]) <= key(x) {
      var rest := Insert(x, xs[1..], key);
      InsertPermutation(x, xs[1..], key);
      assert Insert(x, xs, key) == [xs[0]] + rest;
      assert multiset([xs[0]] + rest) == multiset{xs[0]} + multiset(rest);
      assert xs == [xs[0]] + xs[1..];
      assert multiset(xs) == multiset{xs[0]} + multiset(xs[1..]);
    }
  }

  /** The sort yields an ascending list. */
  lemma {:induction false} SortByKeySorted<T>(xs: seq<T>, key: T -> int)
    ensures SortedBy(SortByKey(xs, key), key)
    decreases |xs|
  {
    if xs != [] {
      SortByKeySorted(xs[..|xs| - 1], key);
      InsertSorted(xs[|xs| - 1], SortByKey(xs[..|xs| - 1], key), key);
    }
  }

  /** The sort yields a permutation of its input. */
  lemma {:induction false} SortByKeyPermutation<T>(xs: seq<T>, key: T -> int)
    ensures multiset(SortByKey(xs, key)) == multiset(xs)
    decreases |xs|
  {
    if xs != [] {
      var init := xs[..|xs| - 1];
      SortByKeyPermutation(init, key);
      InsertPermutation(xs[|xs| - 1], SortByKey(init, key), key);
      assert xs == init + [xs[|xs| - 1]];
    }
  }

  /** The elements whose key is `k`, in order. */
  function WithKey<T>(xs: seq<T>, key: T -> int, k: int): seq<T>
    decreases |xs|
  {
    if xs == [] then []
    else (if key(xs[0]) == k then [xs[0]] else []) + WithKey(xs[1..], key, k)
  }

  lemma {:induction false} WithKeyConcat<T>(a: seq<T>, b: seq<T>, key: T -> int, k: int)
    ensures WithKey(a + b, key, k) == WithKey(a, key, k) + WithKey(b, key, k)
    decreases |a|
  {
    if a == [] {
      assert a + b == b;
    } else {
      var h := if key(a[0]) == k then [a[0]] else [];
      assert (a + b)[0] == a[0];
      assert (a + b)[1..] == a[1..] + b;
      WithKeyConcat(a[1..], b, key, k);
      assert h + (WithKey(a[1..], key, k) + WithKey(b, key, k))
          == (h + WithKey(a[1..], key, k)) + WithKey(b, key, k);
    }
  }

  /** No element of a list sorted from a key above `k` has key `k`. */
  lemma {:induction false} WithKeyAbove<T>(xs: seq<T>, key: T -> int, k: int)
    requires SortedBy(xs, key) && xs != [] && k < key(xs[0])
    ensures WithKey(xs, key, k) == []
    decreases |xs|
  {
    if |xs| > 1 {
      assert key(xs[0]) <= key(xs[1]);
      WithKeyAbove(xs[1..], key, k);
    } else {
      assert xs[1..] == [];
    }
  }

  lemma SortedTail<T>(xs: seq<T>, key: T -> int)
    requires SortedBy(xs, key) && xs != []
    ensures SortedBy(xs[1..], key)
  {
    forall i, j | 0 <= i < j < |xs| - 1 ensures key(xs[1..][i]) <= key(xs[1..][j]) {
      assert xs[1..][i] == xs[i + 1] && xs[1..][j] == xs[j + 1];
    }
  }

  lemma InsertUnfold<T>(x: T, xs: seq<T>, key: T -> int)
    ensures xs == [] || key(x) < key(xs[0]) ==> Insert(x, xs, key) == [x] + xs
    ensures xs != [] && key(xs[0]) <= key(x) ==> Insert(x, xs, key) == [xs[0]] + Insert(x, xs[1..], key)
  {
  }

  lemma WithKeyCons<T>(y: T, ys: seq<T>, key: T -> int, k: int)
    ensures WithKey([y] + ys, key, k) == (if key(y) == k then [y] else []) + WithKey(ys, key, k)
  {
    assert ([y] + ys)[0] == y;
    assert ([y] + ys)[1..] == ys;
  }

  /** Putting the same head on two lists whose ties differ by a suffix keeps that difference. */
  lemma WithKeySameHead<T>(y: T, r: seq<T>, t: seq<T>, extra: seq<T>, key: T -> int, k: int)
    requires WithKey(r, key, k) == WithKey(t, key, k) + extra
    ensures WithKey([y] + r, key, k) == WithKey([y] + t, key, k) + extra
  {
    WithKeyCons(y, r, key, k);
    WithKeyCons(y, t, key, k);
    var h := if key(y) == k then [y] else [];
    assert h + (WithKey(t, key, k) + extra) == (h + WithKey(t, key, k)) + extra;
  }

  lemma {:induction false} InsertKeepsTies<T>(x: T, xs: seq<T>, key: T -> int, k: int)
    requires SortedBy(xs, key)
    ensures WithKey(Insert(x, xs, key), key, k) == WithKey(xs, key, k) + (if key(x) == k then [x] else [])
    decreases |xs|
  {
    var hx := if key(x) == k then [x] else [];
    InsertUnfold(x, xs, key);
    if xs == [] {
      WithKeyCons(x, [], key, k);
      assert [x] + [] == [x];
    } else if key(x) < key(xs[0]) {
      WithKeyCons(x, xs, key, k);
      if key(x) == k {
        WithKeyAbove(xs, key, k);
      }
    } else {
      SortedTail(xs, key);
      var rest := Insert(x, xs[1..], key);
      InsertKeepsTies(x, xs[1..], key, k);
      WithKeySameHead(xs[0], rest, xs[1..], hx, key, k);
      assert [xs[0]] + xs[1..] == xs;
      assert Insert(x, xs, key) == [xs[0]] + rest;
      assert WithKey(Insert(x, xs, key), key, k) == WithKey([xs[0]] + rest, key, k);
      assert WithKey([xs[0]] + rest, key, k) == WithKey([xs[0]] + xs[1..], key, k) + hx;
      assert WithKey([xs[0]] + xs[1..], key, k) == WithKey(xs, key, k);
      assert WithKey(Insert(x, xs, key), key, k) == WithKey(xs, key, k) + hx;
    }
  }

  lemma SortByKeyUnfold<T>(xs: seq<T>, key: T -> int)
    requires xs != []
    ensures SortByKey(xs, key) == Insert(xs[|xs| - 1], SortByKey(xs[..|xs| - 1], key), key)
  {
  }

  lemma WithKeyOne<T>(x: T, key: T -> int, k: int)
    ensures WithKey([x], key, k) == if key(x) == k then [x] else []
  {
    assert [x][1..] == [];
  }

  /** The sort is stable: elements with the same key keep their input order. */
  lemma {:induction false} SortIsStable<T>(xs: seq<T>, key: T -> int, k: int)
    ensures WithKey(SortByKey(xs, key), key, k) == WithKey(xs, key, k)
    decreases |xs|
  {
    if xs != [] {
      var init, last := xs[..|xs| - 1], xs[|xs| - 1];
      var hx := if key(last) == k then [last] else [];
      var sorted := SortByKey(init, key);
      assert WithKey(SortByKey(xs, key), key, k) == WithKey(sorted, key, k) + hx by {
        SortByKeyUnfold(xs, key);
        SortByKeySorted(init, key);
        InsertKeepsTies(last, sorted, key, k);
      }
      assert WithKey(sorted, key, k) == WithKey(init, key, k) by {
        SortIsStable(init, key, k);
      }
      assert WithKey(xs, key, k) == WithKey(init, key, k) + hx by {
        assert xs == init + [last];
        WithKeyConcat(init, [last], key, k);
        WithKeyOne(last, key, k);
      }
    }
  }

  lemma SameElements<T>(a: seq<T>, b: seq<T>)
    requires multiset(a) == multiset(b)
    ensures forall i :: 0 <= i < |a| ==> a[i] in b
  {
    forall i | 0 <= i < |a| ensures a[i] in b {
      assert a[i] in multiset(a);
    }
  }

  /**
   * Filter, then sort: the kept records in ascending key order, each kept
   * record exactly as often as in the input.
   */
  function KeepSorted<T>(xs: seq<T>, keep: T -> bool, key: T -> int): (r: seq<T>)
    ensures SortedBy(r, key)
    ensures multiset(r) == multiset(Filter(xs, keep))
    ensures |r| <= |xs|
    ensures forall i :: 0 <= i < |r| ==> r[i] in xs && keep(r[i])
    ensures forall i :: 0 <= i < |xs| && keep(xs[i]) ==> xs[i] in r
  {
    var kept := Filter(xs, keep);
    var r := SortByKey(kept, key);
    SortByKeySorted(kept, key);
    SortByKeyPermutation(kept, key);
    FilterKeepsPassing(xs, keep);
    SameElements(r, kept);
    SameElements(kept, r);
    r
  }
}
