/** Stable sorting by an integer key, as the library sorts of Rust and JavaScript do it. `Ranks`
    says by positions what the result is; it leaves no choice. */
module StableSort {

  /** Puts the element before the first one that must come strictly after it. */
  function Insert<T>(x: T, sorted: seq<T>, key: T -> int): (r: seq<T>)
    ensures |r| == |sorted| + 1
  {
    if sorted == [] || key(x) <= key(sorted[0]) then [x] + sorted
    else [sorted[0]] + Insert(x, sorted[1..], key)
  }

  /** Ascending by the key; equal keys keep their order. */
  function SortBy<T>(s: seq<T>, key: T -> int): (r: seq<T>)
    ensures |r| == |s|
  {
    if s == [] then [] else Insert(s[0], SortBy(s[1..], key), key)
  }

  ghost predicate Ordered<T>(s: seq<T>, key: T -> int) {
    forall i, j :: 0 <= i < j < |s| ==> key(s[i]) <= key(s[j])
  }

  /** The elements with one key, in order. */
  function WithKey<T>(s: seq<T>, key: T -> int, k: int): seq<T> {
    if s == [] then []
    else (if key(s[0]) == k then [s[0]] else []) + WithKey(s[1..], key, k)
  }

  lemma {:induction false} InsertPermutes<T>(x: T, sorted: seq<T>, key: T -> int)
    ensures multiset(Insert(x, sorted, key)) == multiset(sorted) + multiset{x}
  {
    if sorted != [] && key(x) > key(sorted[0]) {
      InsertPermutes(x, sorted[1..], key);
      assert sorted == [sorted[0]] + sorted[1..];
    }
  }

  lemma {:induction false} InsertOrdered<T>(x: T, sorted: seq<T>, key: T -> int)
    requires Ordered(sorted, key)
    ensures Ordered(Insert(x, sorted, key), key)
  {
    if sorted != [] && key(x) > key(sorted[0]) {
      var rest := sorted[1..];
      assert forall i :: 0 <= i < |rest| ==> rest[i] == sorted[i + 1];
      InsertOrdered(x, rest, key);
      InsertPermutes(x, rest, key);
      var inner := Insert(x, rest, key);
      forall i | 0 <= i < |inner| ensures key(sorted[0]) <= key(inner[i]) {
        assert inner[i] in multiset(inner);
        if inner[i] != x { assert inner[i] in rest; }
      }
    }
  }

  lemma {:induction false} WithKeyCons<T>(x: T, s: seq<T>, key: T -> int, k: int)
    ensures WithKey([x] + s, key, k) == (if key(x) == k then [x] else []) + WithKey(s, key, k)
  {
    assert ([x] + s)[1..] == s;
  }

  lemma {:induction false} InsertKeepsKey<T>(x: T, sorted: seq<T>, key: T -> int, k: int)
    ensures WithKey(Insert(x, sorted, key), key, k) == WithKey([x] + sorted, key, k)
  {
    WithKeyCons(x, sorted, key, k);
    if sorted != [] && key(x) > key(sorted[0]) {
      var rest := sorted[1..];
      InsertKeepsKey(x, rest, key, k);
      WithKeyCons(x, rest, key, k);
      WithKeyCons(sorted[0], Insert(x, rest, key), key, k);
      WithKeyCons(sorted[0], rest, key, k);
      assert [sorted[0]] + rest == sorted;
    }
  }

  /** The result is an ordered permutation in which equal keys keep their order. */
  lemma {:induction false} SortByIsStable<T>(s: seq<T>, key: T -> int)
    ensures Ordered(SortBy(s, key), key)
    ensures multiset(SortBy(s, key)) == multiset(s)
    ensures forall k :: WithKey(SortBy(s, key), key, k) == WithKey(s, key, k)
  {
    if s != [] {
      var rest := SortBy(s[1..], key);
      SortByIsStable(s[1..], key);
      InsertOrdered(s[0], rest, key);
      InsertPermutes(s[0], rest, key);
      assert s == [s[0]] + s[1..];
      assert ([s[0]] + rest)[1..] == rest;
      forall k ensures WithKey(SortBy(s, key), key, k) == WithKey(s, key, k) {
        InsertKeepsKey(s[0], rest, key, k);
      }
    }
  }

  lemma HeadShows<T>(s: seq<T>, key: T -> int)
    requires s != []
    ensures WithKey(s, key, key(s[0])) != []
  {
  }

  /** Order and the subsequence of every key determine the result: there is one stable sort. */
  lemma {:induction false} StableSortIsUnique<T>(a: seq<T>, b: seq<T>, key: T -> int)
    requires Ordered(a, key) && Ordered(b, key)
    requires forall k :: WithKey(a, key, k) == WithKey(b, key, k)
    ensures a == b
  {
    if a == [] {
      if b != [] { HeadShows(b, key); }
    } else if b == [] {
      HeadShows(a, key);
    } else {
      SameHead(a, b, key);
      SameHead(b, a, key);
      assert a[0] == WithKey(a, key, key(a[0]))[0];
      assert b[0] == WithKey(b, key, key(b[0]))[0];
      forall k ensures WithKey(a[1..], key, k) == WithKey(b[1..], key, k) {
        var h := if key(a[0]) == k then [a[0]] else [];
        assert WithKey(a, key, k) == h + WithKey(a[1..], key, k);
        assert WithKey(b, key, k) == h + WithKey(b[1..], key, k);
        assert (h + WithKey(a[1..], key, k))[|h|..] == WithKey(a[1..], key, k);
        assert (h + WithKey(b[1..], key, k))[|h|..] == WithKey(b[1..], key, k);
      }
      StableSortIsUnique(a[1..], b[1..], key);
      assert a == [a[0]] + a[1..] && b == [b[0]] + b[1..];
    }
  }

  lemma {:induction false} KeyOccurs<T>(s: seq<T>, key: T -> int, k: int)
    requires WithKey(s, key, k) != []
    ensures exists i :: 0 <= i < |s| && key(s[i]) == k
  {
    if key(s[0]) != k {
      KeyOccurs(s[1..], key, k);
      var i :| 0 <= i < |s[1..]| && key(s[1..][i]) == k;
      assert key(s[i + 1]) == k;
    }
  }

  lemma SameHead<T>(a: seq<T>, b: seq<T>, key: T -> int)
    requires a != [] && b != [] && Ordered(b, key)
    requires forall k :: WithKey(a, key, k) == WithKey(b, key, k)
    ensures key(b[0]) <= key(a[0])
  {
    var k := key(a[0]);
    HeadShows(a, key);
    assert WithKey(b, key, k) != [];
    KeyOccurs(b, key, k);
    var i :| 0 <= i < |b| && key(b[i]) == k;
    assert i == 0 || key(b[0]) <= key(b[i]);
  }
}
