/** The stable sort by Type that precedes every delta encoding. */
module StableSorting {
  ghost predicate Sorted<T>(xs: seq<T>, key: T -> nat) {
    forall a, b | 0 <= a < b < |xs| :: key(xs[a]) <= key(xs[b])
  }

  /** The elements with one key, in the order they appear. */
  function WithKey<T>(xs: seq<T>, key: T -> nat, k: nat): seq<T> {
    if xs == [] then []
    else (if key(xs[0]) == k then [xs[0]] else []) + WithKey(xs[1..], key, k)
  }

  function Insert<T>(x: T, xs: seq<T>, key: T -> nat): seq<T> {
    if xs == [] || key(x) <= key(xs[0]) then [x] + xs else [xs[0]] + Insert(x, xs[1..], key)
  }

  function Sort<T>(xs: seq<T>, key: T -> nat): seq<T> {
    if xs == [] then [] else Insert(xs[0], Sort(xs[1..], key), key)
  }

  lemma {:induction false} InsertContents<T>(x: T, xs: seq<T>, key: T -> nat)
    ensures multiset(Insert(x, xs, key)) == multiset([x] + xs)
  {
    if xs != [] && key(x) > key(xs[0]) {
      InsertContents(x, xs[1..], key);
      assert xs == [xs[0]] + xs[1..];
    }
  }

  lemma {:induction false} InsertSorts<T>(x: T, xs: seq<T>, key: T -> nat)
    requires Sorted(xs, key)
    ensures Sorted(Insert(x, xs, key), key)
  {
    if xs != [] && key(x) > key(xs[0]) {
      var rest := Insert(x, xs[1..], key);
      InsertSorts(x, xs[1..], key);
      InsertContents(x, xs[1..], key);
      forall b | 0 <= b < |rest| ensures key(xs[0]) <= key(rest[b]) {
        assert rest[b] in multiset(rest);
        assert rest[b] in [x] + xs[1..];
      }
    }
  }

  lemma {:induction false} InsertKeepsOrder<T>(x: T, xs: seq<T>, key: T -> nat, k: nat)
    requires Sorted(xs, key)
    ensures WithKey(Insert(x, xs, key), key, k) == WithKey([x] + xs, key, k)
  {
    if xs != [] && key(x) > key(xs[0]) {
      InsertKeepsOrder(x, xs[1..], key, k);
      assert ([x] + xs[1..])[1..] == xs[1..];
      assert ([x] + xs)[1..] == xs;
    }
  }

  /** Sort is a stable sort: ordered by key, a permutation, and elements sharing a
      key keep their relative order. */
  lemma {:induction false} SortIsStable<T>(xs: seq<T>, key: T -> nat)
    ensures Sorted(Sort(xs, key), key)
    ensures multiset(Sort(xs, key)) == multiset(xs)
    ensures forall k: nat :: WithKey(Sort(xs, key), key, k) == WithKey(xs, key, k)
  {
    if xs != [] {
      var rest := Sort(xs[1..], key);
      SortIsStable(xs[1..], key);
      InsertSorts(xs[0], rest, key);
      InsertContents(xs[0], rest, key);
      assert xs == [xs[0]] + xs[1..];
      forall k: nat ensures WithKey(Sort(xs, key), key, k) == WithKey(xs, key, k) {
        InsertKeepsOrder(xs[0], rest, key, k);
        assert ([xs[0]] + rest)[1..] == rest;
      }
    }
  }

  /** Those three facts leave no choice: two ordered lists that agree key by key are equal. */
  lemma {:induction false} StableSortIsUnique<T>(xs: seq<T>, ys: seq<T>, key: T -> nat)
    requires Sorted(xs, key) && Sorted(ys, key)
    requires forall k: nat :: WithKey(xs, key, k) == WithKey(ys, key, k)
    ensures xs == ys
  {
    assert xs != [] ==> WithKey(xs, key, key(xs[0])) != [];
    assert ys != [] ==> WithKey(ys, key, key(ys[0])) != [];
    if xs != [] && ys != [] {
      HeadKey(xs, ys, key);
      HeadKey(ys, xs, key);
      var k0 := key(xs[0]);
      assert WithKey(xs, key, k0)[0] == xs[0] && WithKey(ys, key, k0)[0] == ys[0];
      forall k: nat ensures WithKey(xs[1..], key, k) == WithKey(ys[1..], key, k) {
        var hx := if key(xs[0]) == k then [xs[0]] else [];
        assert WithKey(xs, key, k) == hx + WithKey(xs[1..], key, k);
        assert WithKey(ys, key, k) == hx + WithKey(ys[1..], key, k);
        assert WithKey(xs[1..], key, k) == WithKey(xs, key, k)[|hx|..];
      }
      StableSortIsUnique(xs[1..], ys[1..], key);
      assert xs == [xs[0]] + xs[1..] && ys == [ys[0]] + ys[1..];
    }
  }

  lemma HeadKey<T>(xs: seq<T>, ys: seq<T>, key: T -> nat)
    requires xs != [] && ys != [] && Sorted(ys, key)
    requires forall k: nat :: WithKey(xs, key, k) == WithKey(ys, key, k)
    ensures key(ys[0]) <= key(xs[0])
  {
    assert WithKey(xs, key, key(xs[0])) != [];
    SomeWithKey(ys, key, key(xs[0]));
  }

  lemma {:induction false} SomeWithKey<T>(ys: seq<T>, key: T -> nat, k: nat)
    requires WithKey(ys, key, k) != []
    ensures exists b | 0 <= b < |ys| :: key(ys[b]) == k
  {
    if key(ys[0]) != k {
      SomeWithKey(ys[1..], key, k);
      var b :| 0 <= b < |ys[1..]| && key(ys[1..][b]) == k;
      assert key(ys[b + 1]) == k;
    }
  }

  /** Sorting a list already in order changes nothing. */
  lemma SortOfSorted<T>(xs: seq<T>, key: T -> nat)
    requires Sorted(xs, key)
    ensures Sort(xs, key) == xs
  {
    SortIsStable(xs, key);
    StableSortIsUnique(Sort(xs, key), xs, key);
  }
}
