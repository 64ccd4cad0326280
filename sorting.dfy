/** `Array.prototype.sort` with a numeric comparator, as the pages use it
    (`(a, b) => b.k - a.k` for non-increasing, `(a, b) => a.k - b.k` for
    non-decreasing order). The engine's sort is stable; this model is an
    insertion sort that puts an element before every element of equal key
    that came after it, which is the stable order. */
module Sorting {
  import opened Common

  /** Non-increasing by `key`. */
  ghost predicate SortedDesc<T>(s: seq<T>, key: T -> real)
  {
    forall i, j :: 0 <= i < j < |s| ==> key(s[i]) >= key(s[j])
  }

  /** Non-decreasing by `key`. */
  ghost predicate SortedAsc<T>(s: seq<T>, key: T -> real)
  {
    forall i, j :: 0 <= i < j < |s| ==> key(s[i]) <= key(s[j])
  }

  /** The elements whose key is `k`: a stable sort keeps the order of
      exactly these among themselves, for every `k`. */
  function HasKey<T>(key: T -> real, k: real): T -> bool
  {
    x => key(x) == k
  }

  /** Every element with key `k`, in order. */
  ghost predicate StableAfter<T(!new)>(r: seq<T>, s: seq<T>, key: T -> real)
  {
    forall k :: Filter(r, HasKey(key, k)) == Filter(s, HasKey(key, k))
  }

  function InsertDesc<T(==, !new)>(x: T, s: seq<T>, key: T -> real): (r: seq<T>)
    requires SortedDesc(s, key)
    ensures |r| == |s| + 1
    ensures r[0] == x || (s != [] && r[0] == s[0])
    ensures SortedDesc(r, key)
    ensures multiset(r) == multiset(s) + multiset{x}
    ensures StableAfter(r, [x] + s, key)
  {
    if s == [] || key(s[0]) <= key(x) then
      InsertFront(x, s, key);
      [x] + s
    else
      SortedTail(s, key);
      var rest := InsertDesc(x, s[1..], key);
      InsertPast(x, s, key, rest);
      [s[0]] + rest
  }

  lemma SortedTail<T>(s: seq<T>, key: T -> real)
    requires SortedDesc(s, key) && s != []
    ensures SortedDesc(s[1..], key)
  {
    forall i, j | 0 <= i < j < |s[1..]| ensures key(s[1..][i]) >= key(s[1..][j]) {
      assert s[1..][i] == s[i + 1] && s[1..][j] == s[j + 1];
    }
  }

  /** Putting `x` in front of keys no larger than its own keeps the list
      sorted. */
  lemma InsertFront<T(!new)>(x: T, s: seq<T>, key: T -> real)
    requires SortedDesc(s, key)
    requires s == [] || key(s[0]) <= key(x)
    ensures SortedDesc([x] + s, key)
    ensures StableAfter([x] + s, [x] + s, key)
  {
    var r := [x] + s;
    forall i, j | 0 <= i < j < |r| ensures key(r[i]) >= key(r[j]) {
      assert r[j] == s[j - 1];
      if i > 0 {
        assert r[i] == s[i - 1];
      } else if j > 1 {
        assert key(s[0]) >= key(s[j - 1]);
      }
    }
  }

  /** Passing the head of `s` when `x` has a smaller key keeps the list
      sorted, and keeps each key's elements in order. */
  lemma InsertPast<T(!new)>(x: T, s: seq<T>, key: T -> real, rest: seq<T>)
    requires SortedDesc(s, key) && s != [] && key(s[0]) > key(x)
    requires |rest| == |s[1..]| + 1 && SortedDesc(rest, key)
    requires rest[0] == x || (s[1..] != [] && rest[0] == s[1..][0])
    requires multiset(rest) == multiset(s[1..]) + multiset{x}
    requires StableAfter(rest, [x] + s[1..], key)
    ensures SortedDesc([s[0]] + rest, key)
    ensures multiset([s[0]] + rest) == multiset(s) + multiset{x}
    ensures StableAfter([s[0]] + rest, [x] + s, key)
  {
    var r := [s[0]] + rest;
    assert key(s[0]) >= key(rest[0]);
    forall i, j | 0 <= i < j < |r| ensures key(r[i]) >= key(r[j]) {
      assert r[j] == rest[j - 1];
      if i > 0 {
        assert r[i] == rest[i - 1];
      } else if j > 1 {
        assert key(rest[0]) >= key(rest[j - 1]);
      }
    }
    assert s == [s[0]] + s[1..];
    forall k ensures Filter(r, HasKey(key, k)) == Filter([x] + s, HasKey(key, k)) {
      InsertStable(x, s, key, k, rest);
    }
  }

  /** The step of `InsertPast` for one key: `x` only moves past elements
      of strictly larger key. */
  lemma InsertStable<T(!new)>(x: T, s: seq<T>, key: T -> real, k: real, rest: seq<T>)
    requires s != [] && key(s[0]) > key(x)
    requires Filter(rest, HasKey(key, k)) == Filter([x] + s[1..], HasKey(key, k))
    ensures Filter([s[0]] + rest, HasKey(key, k)) == Filter([x] + s, HasKey(key, k))
  {
    var p := HasKey(key, k);
    var head := [s[0]] + rest;
    assert head[0] == s[0] && head[1..] == rest;
    var xs := [x] + s;
    assert xs[0] == x && xs[1..] == s;
    var xt := [x] + s[1..];
    assert xt[0] == x && xt[1..] == s[1..];
    assert Filter(head, p) == (if p(s[0]) then [s[0]] else []) + Filter(rest, p);
    assert Filter(s, p) == (if p(s[0]) then [s[0]] else []) + Filter(s[1..], p);
    assert Filter(xs, p) == (if p(x) then [x] else []) + Filter(s, p);
    assert Filter(xt, p) == (if p(x) then [x] else []) + Filter(s[1..], p);
    assert !(p(s[0]) && p(x));
  }

  /** The list reordered so that keys never increase; a permutation of the
      input in which elements of equal key keep their input order. */
  function SortDescBy<T(==, !new)>(s: seq<T>, key: T -> real): (r: seq<T>)
    ensures |r| == |s|
    ensures SortedDesc(r, key)
    ensures multiset(r) == multiset(s)
    ensures forall k :: Filter(r, HasKey(key, k)) == Filter(s, HasKey(key, k))
  {
    if s == [] then []
    else
      assert s == [s[0]] + s[1..];
      var rest := SortDescBy(s[1..], key);
      var r := InsertDesc(s[0], rest, key);
      SortStep(s, key, rest, r);
      r
  }

  /** Inserting the head into the sorted tail keeps each key's elements in
      their input order. */
  lemma SortStep<T(!new)>(s: seq<T>, key: T -> real, rest: seq<T>, r: seq<T>)
    requires s != []
    requires forall k :: Filter(rest, HasKey(key, k)) == Filter(s[1..], HasKey(key, k))
    requires StableAfter(r, [s[0]] + rest, key)
    ensures forall k :: Filter(r, HasKey(key, k)) == Filter(s, HasKey(key, k))
  {
    forall k ensures Filter(r, HasKey(key, k)) == Filter(s, HasKey(key, k)) {
      FilterAppend([s[0]], rest, HasKey(key, k));
      FilterAppend([s[0]], s[1..], HasKey(key, k));
      assert s == [s[0]] + s[1..];
    }
  }

  /** The list reordered so that keys never decrease; a permutation of the
      input in which elements of equal key keep their input order. Sorting
      by the negated key is the same stable order. */
  function SortAscBy<T(==, !new)>(s: seq<T>, key: T -> real): (r: seq<T>)
    ensures |r| == |s|
    ensures SortedAsc(r, key)
    ensures multiset(r) == multiset(s)
    ensures forall k :: Filter(r, HasKey(key, k)) == Filter(s, HasKey(key, k))
  {
    var neg := (x: T) => -key(x);
    var r := SortDescBy(s, neg);
    assert forall i, j :: 0 <= i < j < |r| ==> neg(r[i]) >= neg(r[j]);
    assert forall k :: Filter(r, HasKey(key, k)) == Filter(s, HasKey(key, k)) by {
      forall k ensures Filter(r, HasKey(key, k)) == Filter(s, HasKey(key, k)) {
        assert Filter(r, HasKey(neg, -k)) == Filter(s, HasKey(neg, -k));
        FilterSameTest(r, HasKey(neg, -k), HasKey(key, k));
        FilterSameTest(s, HasKey(neg, -k), HasKey(key, k));
      }
    }
    r
  }

  /** After a non-increasing sort, the first `n` elements hold keys at
      least as large as every element left out. */
  lemma TakeSortedDescIsTop<T(!new)>(s: seq<T>, key: T -> real, n: nat, y: T)
    requires n < |s|
    requires y in SortDescBy(s, key)[n..]
    ensures forall i :: 0 <= i < n ==> key(SortDescBy(s, key)[i]) >= key(y)
  {
    var r := SortDescBy(s, key);
    var k :| n <= k < |r| && r[k] == y;
  }

  /** In a non-decreasing list, an element the first `n` positions hold
      fewer times than the whole list has a key no smaller than any of
      those `n`. */
  lemma PrefixSortedAscIsBottom<T>(s: seq<T>, key: T -> real, n: nat, y: T)
    requires SortedAsc(s, key)
    requires n <= |s|
    requires multiset(s[..n])[y] < multiset(s)[y]
    ensures forall i :: 0 <= i < n ==> key(s[i]) <= key(y)
  {
    assert s == s[..n] + s[n..];
    assert y in multiset(s[n..]);
    var k :| 0 <= k < |s[n..]| && s[n..][k] == y;
    assert s[n + k] == y;
  }
}
