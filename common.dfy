/** Value types and sequence operations shared by the server, the client
    store and every page of the purchasing panel. The pages only ever
    build new lists with `filter`, `map`, spread and `forEach`-push; those
    shapes are defined once here and the pages instantiate them. */
module Common {

  datatype Option<T> = None | Some(value: T)

  /** What a page handler does with its collection: hand a new collection
      to the store's setter, stop with a browser alert, or return without
      touching anything (no setter call). */
  datatype Outcome<T> = Commit(value: T) | Alert(message: string) | Skip

  /** `findIndex(e => e === x)` / the dictionary lookup `acc[x]`: the
      first position holding `x`, or `|s|` when there is none. */
  function IndexOf<T(==)>(s: seq<T>, x: T): (i: nat)
    ensures i <= |s|
    ensures i < |s| ==> s[i] == x
    ensures forall j :: 0 <= j < i ==> s[j] != x
  {
    if s == [] then 0 else if s[0] == x then 0 else 1 + IndexOf(s[1..], x)
  }

  /** A position holding `x` with no `x` before it is the first one. */
  lemma IndexOfIs<T>(s: seq<T>, x: T, p: nat)
    requires p < |s| && s[p] == x
    requires forall j :: 0 <= j < p ==> s[j] != x
    ensures IndexOf(s, x) == p
  {
  }

  /** No value occurs twice. */
  predicate Distinct<T(==)>(s: seq<T>)
  {
    forall i, j :: 0 <= i < j < |s| ==> s[i] != s[j]
  }

  /** `a` is `b` with some elements left out, the rest in their order. */
  predicate IsSubsequence<T(==)>(a: seq<T>, b: seq<T>)
  {
    a == [] || (b != [] && ((a[0] == b[0] && IsSubsequence(a[1..], b[1..])) || IsSubsequence(a, b[1..])))
  }

  /** `Array.prototype.filter`: the elements satisfying `p`, in order. */
  function Filter<T(==, !new)>(s: seq<T>, p: T -> bool): (r: seq<T>)
    ensures |r| <= |s|
    ensures forall x :: x in r <==> x in s && p(x)
  {
    if s == [] then []
    else
      var rest := Filter(s[1..], p);
      if p(s[0]) then [s[0]] + rest else rest
  }

  /** A filter keeps the surviving elements in their original order. */
  lemma {:induction false} FilterIsSubsequence<T(!new)>(s: seq<T>, p: T -> bool)
    ensures IsSubsequence(Filter(s, p), s)
  {
    if s != [] {
      FilterIsSubsequence(s[1..], p);
      var r := Filter(s, p);
      if p(s[0]) {
        assert r[0] == s[0] && r[1..] == Filter(s[1..], p);
      }
    }
  }

  /** A filter keeps every kept value as often as the input holds it and
      drops every other value entirely. */
  lemma {:induction false} FilterCount<T(!new)>(s: seq<T>, p: T -> bool, x: T)
    ensures multiset(Filter(s, p))[x] == if p(x) then multiset(s)[x] else 0
  {
    if s != [] {
      FilterCount(s[1..], p, x);
      assert s == [s[0]] + s[1..];
    }
  }

  /** Filtering commutes with concatenation: the kept elements stay in
      their original relative order. */
  lemma {:induction false} FilterAppend<T(!new)>(a: seq<T>, b: seq<T>, p: T -> bool)
    ensures Filter(a + b, p) == Filter(a, p) + Filter(b, p)
  {
    if a == [] {
      assert a + b == b;
    } else {
      var ab := a + b;
      assert ab[0] == a[0] && ab[1..] == a[1..] + b;
      FilterAppend(a[1..], b, p);
    }
  }

  /** A filter that keeps every element gives back the same list. */
  lemma {:induction false} FilterKeepsAll<T(!new)>(s: seq<T>, p: T -> bool)
    requires forall x :: x in s ==> p(x)
    ensures Filter(s, p) == s
  {
    if s != [] {
      FilterKeepsAll(s[1..], p);
    }
  }

  /** A test no element passes filters out everything. */
  lemma {:induction false} FilterDropsAll<T(!new)>(s: seq<T>, p: T -> bool)
    requires forall x :: x in s ==> !p(x)
    ensures Filter(s, p) == []
  {
    if s != [] {
      FilterDropsAll(s[1..], p);
    }
  }

  /** Two tests that agree on every element filter alike. */
  lemma {:induction false} FilterSameTest<T(!new)>(s: seq<T>, p: T -> bool, q: T -> bool)
    requires forall x :: p(x) == q(x)
    ensures Filter(s, p) == Filter(s, q)
  {
    if s != [] {
      FilterSameTest(s[1..], p, q);
    }
  }

  /** The element test of `v => v !== x`. */
  function IsNot<T(==)>(x: T): T -> bool
  {
    y => y != x
  }

  /** `s.filter(v => v !== x)`: every occurrence of `x` removed, every
      other element kept with its multiplicity and order. */
  function Without<T(==, !new)>(s: seq<T>, x: T): (r: seq<T>)
    ensures x !in r
    ensures forall y :: y != x ==> multiset(r)[y] == multiset(s)[y]
    ensures x !in s ==> r == s
    ensures IsSubsequence(r, s)
  {
    var r := Filter(s, IsNot(x));
    FilterIsSubsequence(s, IsNot(x));
    assert forall y :: y != x ==> multiset(r)[y] == multiset(s)[y] by {
      forall y | y != x {
        FilterCount(s, IsNot(x), y);
      }
    }
    assert x !in s ==> r == s by {
      if x !in s { FilterKeepsAll(s, IsNot(x)); }
    }
    r
  }

  /** `s.find(r => key(r) === k)`: the first element with that key. */
  function FindFirst<T>(s: seq<T>, key: T -> string, k: string): (r: Option<T>)
    ensures r.Some? <==> exists i :: 0 <= i < |s| && key(s[i]) == k
    ensures r.Some? ==> key(r.value) == k
    ensures r.Some? ==> exists i :: (0 <= i < |s| && s[i] == r.value &&
                                     forall j :: 0 <= j < i ==> key(s[j]) != k)
  {
    if s == [] then None
    else if key(s[0]) == k then Some(s[0])
    else
      var r := FindFirst(s[1..], key, k);
      assert forall i :: 1 <= i < |s| ==> s[i] == s[1..][i - 1];
      assert r.Some? ==> exists i :: 0 <= i < |s[1..]| && key(s[1..][i]) == k;
      r
  }

  /** `den > 0 ? num / den : 0`: a ratio that is never a division by zero
      (price per unit, pricing index). */
  function Ratio(num: int, den: int): (r: real)
    ensures den > 0 ==> r * den as real == num as real
    ensures den <= 0 ==> r == 0.0
    ensures den > 0 && num >= 0 ==> r >= 0.0
  {
    if den > 0 then num as real / den as real else 0.0
  }

  /** `Array.prototype.map`. */
  function Map<A, B>(s: seq<A>, f: A -> B): (r: seq<B>)
    ensures |r| == |s|
    ensures forall i :: 0 <= i < |s| ==> r[i] == f(s[i])
  {
    seq(|s|, i requires 0 <= i < |s| => f(s[i]))
  }

  /** Mapping commutes with concatenation. */
  lemma MapAppend<A, B>(a: seq<A>, b: seq<A>, f: A -> B)
    ensures Map(a + b, f) == Map(a, f) + Map(b, f)
  {
    assert forall i :: 0 <= i < |a| ==> (a + b)[i] == a[i];
    assert forall i :: |a| <= i < |a + b| ==> (a + b)[i] == b[i - |a|];
  }

  /** Mapping two orderings of the same elements gives two orderings of
      the same images. */
  lemma {:induction false} MapPermutes<A, B>(a: seq<A>, b: seq<A>, f: A -> B)
    requires multiset(a) == multiset(b)
    ensures multiset(Map(a, f)) == multiset(Map(b, f))
    decreases |a|
  {
    if a != [] {
      assert a[0] in multiset(b);
      var j :| 0 <= j < |b| && b[j] == a[0];
      DropMatching(a, b, j);
      MapPermutes(a[1..], b[..j] + b[j + 1..], f);
      MapCons(a, f);
      MapRemoveAt(b, j, f);
    } else {
      assert b == [];
    }
  }

  /** The images of a non-empty list: the head's and the tail's. */
  lemma MapCons<A, B>(a: seq<A>, f: A -> B)
    requires a != []
    ensures multiset(Map(a, f)) == multiset{f(a[0])} + multiset(Map(a[1..], f))
  {
    var tail := Map(a[1..], f);
    assert Map(a, f) == [f(a[0])] + tail by {
      assert forall i :: 1 <= i < |a| ==> a[i] == a[1..][i - 1];
    }
  }

  /** The images of a list: those without position `j` and the image at
      `j`. */
  lemma MapRemoveAt<A, B>(b: seq<A>, j: nat, f: A -> B)
    requires j < |b|
    ensures multiset(Map(b, f)) == multiset(Map(b[..j] + b[j + 1..], f)) + multiset{f(b[j])}
  {
    var left, right := b[..j], b[j + 1..];
    assert b == left + [b[j]] + right;
    MapAppend(left + [b[j]], right, f);
    MapAppend(left, [b[j]], f);
    MapAppend(left, right, f);
  }

  /** Taking the head of `a` out of `b` where `b` holds it leaves two
      orderings of the same elements. */
  lemma DropMatching<A>(a: seq<A>, b: seq<A>, j: nat)
    requires multiset(a) == multiset(b)
    requires a != [] && j < |b| && b[j] == a[0]
    ensures multiset(a[1..]) == multiset(b[..j] + b[j + 1..])
  {
    var x := a[0];
    var left, right := b[..j], b[j + 1..];
    assert b == left + [x] + right;
    assert a == [x] + a[1..];
    forall y ensures multiset(a[1..])[y] == multiset(left + right)[y] {
      assert multiset(a)[y] == multiset{x}[y] + multiset(a[1..])[y];
      assert multiset(b)[y] == multiset(left)[y] + multiset{x}[y] + multiset(right)[y];
    }
  }

  /** Cutting a reordering of `s` anywhere splits the images of `s`
      between the two pieces. */
  lemma MapSplitPermuted<A, B>(s: seq<A>, sorted: seq<A>, n: nat, f: A -> B)
    requires multiset(sorted) == multiset(s)
    requires n <= |sorted|
    ensures multiset(Map(s, f)) == multiset(Map(sorted[..n], f)) + multiset(Map(sorted[n..], f))
  {
    assert sorted == sorted[..n] + sorted[n..];
    MapAppend(sorted[..n], sorted[n..], f);
    MapPermutes(sorted, s, f);
  }

  /** A prefix holds no element more often than the whole list. */
  lemma TakeSubMultiset<T>(s: seq<T>, n: nat)
    ensures multiset(Take(s, n)) <= multiset(s)
  {
    var t := Take(s, n);
    assert s == t + s[|t|..];
  }

  /** `s.map(e => p(e) ? x : e)`: the elements matching `p` are replaced
      by `x` in place; length and all other positions are kept. */
  function ReplaceWhere<T>(s: seq<T>, p: T -> bool, x: T): (r: seq<T>)
    ensures |r| == |s|
    ensures forall i :: 0 <= i < |s| ==> r[i] == if p(s[i]) then x else s[i]
  {
    seq(|s|, i requires 0 <= i < |s| => if p(s[i]) then x else s[i])
  }

  /** The rows of an uploaded sheet that `parse` accepts, in file order
      (the `forEach` + `push` of every upload handler). */
  function FilterMap<R, T>(rows: seq<R>, parse: R -> Option<T>): (r: seq<T>)
    ensures |r| <= |rows|
  {
    if rows == [] then []
    else
      var front := FilterMap(rows[..|rows| - 1], parse);
      match parse(rows[|rows| - 1])
      case Some(v) => front + [v]
      case None => front
  }

  /** Every collected value is the parse of some row. */
  lemma {:induction false} FilterMapSound<R, T>(rows: seq<R>, parse: R -> Option<T>, k: nat)
    requires k < |FilterMap(rows, parse)|
    ensures exists i :: 0 <= i < |rows| && parse(rows[i]) == Some(FilterMap(rows, parse)[k])
  {
    var front := FilterMap(rows[..|rows| - 1], parse);
    if k < |front| {
      FilterMapSound(rows[..|rows| - 1], parse, k);
      var i :| 0 <= i < |rows[..|rows| - 1]| && parse(rows[..|rows| - 1][i]) == Some(front[k]);
      assert rows[i] == rows[..|rows| - 1][i];
    } else {
      assert parse(rows[|rows| - 1]) == Some(FilterMap(rows, parse)[k]);
    }
  }

  /** Collecting commutes with concatenation: accepted rows keep their
      file order. */
  lemma {:induction false} FilterMapAppend<R, T>(a: seq<R>, b: seq<R>, parse: R -> Option<T>)
    ensures FilterMap(a + b, parse) == FilterMap(a, parse) + FilterMap(b, parse)
  {
    if b == [] {
      assert a + b == a;
    } else {
      assert (a + b)[..|a + b| - 1] == a + b[..|b| - 1];
      FilterMapAppend(a, b[..|b| - 1], parse);
    }
  }

  /** A sheet in which no row is accepted yields nothing. */
  lemma {:induction false} FilterMapNoneAccepted<R, T>(rows: seq<R>, parse: R -> Option<T>)
    requires forall i :: 0 <= i < |rows| ==> parse(rows[i]).None?
    ensures FilterMap(rows, parse) == []
  {
    if rows != [] {
      FilterMapNoneAccepted(rows[..|rows| - 1], parse);
    }
  }

  /** The upload loop: walk the parsed sheet and push every accepted row. */
  method CollectRows<R, T>(rows: seq<R>, parse: R -> Option<T>) returns (out: seq<T>)
    ensures out == FilterMap(rows, parse)
  {
    out := [];
    for i := 0 to |rows|
      invariant out == FilterMap(rows[..i], parse)
    {
      assert rows[..i + 1][..i] == rows[..i];
      match parse(rows[i]) {
        case Some(v) => out := out + [v];
        case None =>
      }
    }
    assert rows[..|rows|] == rows;
  }

  /** `prev.includes(x) ? prev.filter(v => v !== x) : [...prev, x]`:
      the membership of `x` flips and every other value keeps its
      membership. */
  function Toggle<T(==, !new)>(s: seq<T>, x: T): (r: seq<T>)
    ensures x in r <==> x !in s
    ensures forall y :: y != x ==> (y in r <==> y in s)
    ensures x in s ==> r == Without(s, x)
    ensures x !in s ==> r == s + [x]
  {
    if x in s then
      var r := Without(s, x);
      assert forall y :: y != x ==> (y in r <==> y in s) by {
        forall y | y != x ensures y in r <==> y in s {
          assert multiset(r)[y] == multiset(s)[y];
        }
      }
      r
    else s + [x]
  }

  /** Toggling an absent value twice gives back the original list. */
  lemma ToggleTwice<T(!new)>(s: seq<T>, x: T)
    requires x !in s
    ensures Toggle(Toggle(s, x), x) == s
  {
    FilterAppend(s, [x], IsNot(x));
    FilterKeepsAll(s, IsNot(x));
    assert Filter([x], IsNot(x)) == [];
    assert s + [] == s;
  }

  /** Multiplying by a positive factor keeps strict order. */
  lemma MulLess(a: real, b: real, c: real)
    requires a < b && c > 0.0
    ensures a * c < b * c
  {
  }

  /** Multiplying by a positive factor keeps order. */
  lemma MulLessEq(a: real, b: real, c: real)
    requires a <= b && c > 0.0
    ensures a * c <= b * c
  {
  }

  /** Sum of an integer measure over a list, accumulated left to right
      (the `reduce((sum, e) => sum + f(e), 0)` of the pages). */
  function SumOf<T>(s: seq<T>, f: T -> int): int
  {
    if s == [] then 0 else SumOf(s[..|s| - 1], f) + f(s[|s| - 1])
  }

  /** A sum of measures that are never negative is never negative. */
  lemma {:induction false} SumOfNonNegative<T>(s: seq<T>, f: T -> int)
    requires forall x :: x in s ==> f(x) >= 0
    ensures SumOf(s, f) >= 0
  {
    if s != [] {
      SumOfNonNegative(s[..|s| - 1], f);
    }
  }

  /** Summing over a concatenation adds the two sums. */
  lemma {:induction false} SumOfAppend<T>(a: seq<T>, b: seq<T>, f: T -> int)
    ensures SumOf(a + b, f) == SumOf(a, f) + SumOf(b, f)
  {
    if b == [] {
      assert a + b == a;
    } else {
      assert (a + b)[..|a + b| - 1] == a + b[..|b| - 1];
      SumOfAppend(a, b[..|b| - 1], f);
    }
  }

  /** Summing from the front gives the same total. */
  lemma {:induction false} SumOfCons<T>(x: T, s: seq<T>, f: T -> int)
    ensures SumOf([x] + s, f) == f(x) + SumOf(s, f)
  {
    SumOfAppend([x], s, f);
    assert [x][..0] == [];
  }

  /** The measure that counts elements. */
  function One<T>(x: T): int
  {
    1
  }

  /** Summing `One` counts the elements. */
  lemma {:induction false} SumOfOne<T>(s: seq<T>)
    ensures SumOf(s, One) == |s|
  {
    if s != [] {
      SumOfOne(s[..|s| - 1]);
    }
  }

  /** `s.slice(0, n)`. */
  function Take<T>(s: seq<T>, n: nat): (r: seq<T>)
    ensures |r| == if n < |s| then n else |s|
    ensures r <= s
  {
    if n < |s| then s[..n] else s
  }
}
