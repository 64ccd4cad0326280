/** The `reduce` into a string-keyed dictionary that the analytics pages
    use: `acc[key]` is created from the first record with that key and then
    updated by every record with that key, and `Object.values(acc)` lists
    the groups in the order their keys were first seen. (Keys that look like
    array indices, which JavaScript lists first, never arise for the keys
    that carry a `-` separator; see README for the one exception.) */
module Grouping {
  import opened Common

  /** The records that fell under one dictionary key, in input order. */
  datatype Group<T> = Group(key: string, members: seq<T>)

  function Keys<T>(gs: seq<Group<T>>): (ks: seq<string>)
    ensures |ks| == |gs|
    ensures forall i :: 0 <= i < |gs| ==> ks[i] == gs[i].key
  {
    seq(|gs|, i requires 0 <= i < |gs| => gs[i].key)
  }

  /** One step of the reduce: `x` joins the group of its key, or opens a
      new group at the end. */
  function AddToGroups<T>(gs: seq<Group<T>>, x: T, key: T -> string): seq<Group<T>>
  {
    var i := IndexOf(Keys(gs), key(x));
    if i < |gs| then gs[i := Group(gs[i].key, gs[i].members + [x])]
    else gs + [Group(key(x), [x])]
  }

  /** The whole reduce, as groups of records; no group is empty. */
  function GroupBy<T>(s: seq<T>, key: T -> string): (gs: seq<Group<T>>)
    ensures forall i :: 0 <= i < |gs| ==> gs[i].members != []
  {
    if s == [] then [] else AddToGroups(GroupBy(s[..|s| - 1], key), s[|s| - 1], key)
  }

  /** Group keys are distinct, every member has its group's key, and every
      record's key has a group. */
  lemma {:induction false} GroupByShape<T>(s: seq<T>, key: T -> string)
    ensures forall i, j :: 0 <= i < j < |GroupBy(s, key)| ==> GroupBy(s, key)[i].key != GroupBy(s, key)[j].key
    ensures forall i, j :: 0 <= i < |GroupBy(s, key)| && 0 <= j < |GroupBy(s, key)[i].members| ==>
      key(GroupBy(s, key)[i].members[j]) == GroupBy(s, key)[i].key
    ensures forall n :: 0 <= n < |s| ==> key(s[n]) in Keys(GroupBy(s, key))
  {
    if s != [] {
      var front := s[..|s| - 1];
      var x := s[|s| - 1];
      var gs := GroupBy(front, key);
      GroupByShape(front, key);
      var i := IndexOf(Keys(gs), key(x));
      var r := GroupBy(s, key);
      assert r == AddToGroups(gs, x, key);
      assert forall n :: 0 <= n < |front| ==> s[n] == front[n];
      forall g | g in Keys(gs) ensures g in Keys(r) {
        var m :| 0 <= m < |gs| && Keys(gs)[m] == g;
        assert Keys(r)[m] == g;
      }
      if i < |gs| { assert Keys(r)[i] == key(x); } else { assert Keys(r)[|gs|] == key(x); }
      forall a, b | 0 <= a < |r| && 0 <= b < |r[a].members|
        ensures key(r[a].members[b]) == r[a].key
      {
        if a < |gs| && b < |gs[a].members| {
          assert r[a].members[b] == gs[a].members[b];
        }
      }
      forall a, b | 0 <= a < b < |r| ensures r[a].key != r[b].key {
        if b == |gs| {
          assert Keys(gs)[a] == gs[a].key;
        }
      }
    }
  }

  /** The key test a group collects by. */
  function KeyIs<T>(key: T -> string, k: string): T -> bool
  {
    x => key(x) == k
  }

  /** Each group holds exactly the records of its key, in input order:
      grouping loses no record and invents none. */
  lemma {:induction false} GroupMembers<T(!new)>(s: seq<T>, key: T -> string, i: nat)
    requires i < |GroupBy(s, key)|
    ensures GroupBy(s, key)[i].members == Filter(s, KeyIs(key, GroupBy(s, key)[i].key))
  {
    var front := s[..|s| - 1];
    var x := s[|s| - 1];
    var gs := GroupBy(front, key);
    GroupByShape(front, key);
    var j := IndexOf(Keys(gs), key(x));
    assert GroupBy(s, key) == AddToGroups(gs, x, key);
    var g := GroupBy(s, key)[i];
    var p := KeyIs(key, g.key);
    assert s == front + [x];
    FilterAppend(front, [x], p);
    assert Filter([x], p) == if p(x) then [x] else [];
    if i < |gs| {
      GroupMembers(front, key, i);
      if i != j {
        assert g.key == gs[i].key;
        assert key(x) != g.key by {
          if j < |gs| { assert Keys(gs)[j] == gs[j].key; }
          else { assert Keys(gs)[i] == gs[i].key; }
        }
      }
    } else {
      assert g == Group(key(x), [x]);
      forall y | y in front ensures !p(y) {
        var n :| 0 <= n < |front| && front[n] == y;
      }
      FilterDropsAll(front, p);
    }
  }

  /** Total of a per-record measure over all groups. */
  function GroupsTotal<T>(gs: seq<Group<T>>, f: T -> int): int
  {
    if gs == [] then 0 else GroupsTotal(gs[..|gs| - 1], f) + SumOf(gs[|gs| - 1].members, f)
  }

  lemma {:induction false} GroupsTotalUpdate<T>(gs: seq<Group<T>>, i: nat, g: Group<T>, f: T -> int)
    requires i < |gs|
    ensures GroupsTotal(gs[i := g], f) == GroupsTotal(gs, f) - SumOf(gs[i].members, f) + SumOf(g.members, f)
  {
    var last := |gs| - 1;
    if i == last {
      assert gs[i := g][..last] == gs[..last];
    } else {
      assert gs[i := g][..last] == gs[..last][i := g];
      GroupsTotalUpdate(gs[..last], i, g, f);
    }
  }

  /** Every record lands in exactly one group, so summing a measure over
      the groups gives its sum over the records. */
  lemma {:induction false} GroupByPreservesTotal<T>(s: seq<T>, key: T -> string, f: T -> int)
    ensures GroupsTotal(GroupBy(s, key), f) == SumOf(s, f)
  {
    if s != [] {
      var front := s[..|s| - 1];
      var x := s[|s| - 1];
      var gs := GroupBy(front, key);
      var j := IndexOf(Keys(gs), key(x));
      assert GroupBy(s, key) == AddToGroups(gs, x, key);
      assert SumOf(s, f) == SumOf(front, f) + f(x);
      GroupByPreservesTotal(front, key, f);
      if j < |gs| {
        var m := gs[j].members;
        assert (m + [x])[..|m|] == m;
        assert SumOf(m + [x], f) == SumOf(m, f) + f(x);
        GroupsTotalUpdate(gs, j, Group(gs[j].key, m + [x]), f);
      } else {
        var r := gs + [Group(key(x), [x])];
        assert r[..|gs|] == gs;
        assert [x][..0] == [];
        assert SumOf([x], f) == f(x);
        assert GroupsTotal(r, f) == GroupsTotal(gs, f) + SumOf([x], f);
      }
    }
  }

  /** The accumulator of one group after its records, oldest first: the
      first record creates it with `zero` and every record, the first
      included, updates it with `step`. */
  function FoldGroup<T, A>(m: seq<T>, zero: T -> A, step: (A, T) -> A): A
    requires m != []
  {
    if |m| == 1 then step(zero(m[0]), m[0])
    else step(FoldGroup(m[..|m| - 1], zero, step), m[|m| - 1])
  }

  /** `Object.values(acc)` after the reduce. */
  function Reduced<T, A>(gs: seq<Group<T>>, zero: T -> A, step: (A, T) -> A): seq<A>
    requires forall i :: 0 <= i < |gs| ==> gs[i].members != []
  {
    seq(|gs|, i requires 0 <= i < |gs| => FoldGroup(gs[i].members, zero, step))
  }

  /** An accumulator created from a record carries that record's key. */
  lemma {:induction false} FoldGroupKey<T(!new), A(!new)>(m: seq<T>, zero: T -> A, step: (A, T) -> A, key: T -> string, keyOf: A -> string)
    requires m != []
    requires forall x :: keyOf(zero(x)) == key(x)
    requires forall a, x :: keyOf(step(a, x)) == keyOf(a)
    ensures keyOf(FoldGroup(m, zero, step)) == key(m[0])
  {
    if |m| == 1 {
      assert keyOf(step(zero(m[0]), m[0])) == keyOf(zero(m[0]));
    } else {
      var front := m[..|m| - 1];
      FoldGroupKey(front, zero, step, key, keyOf);
      assert front[0] == m[0];
      assert keyOf(step(FoldGroup(front, zero, step), m[|m| - 1])) == keyOf(FoldGroup(front, zero, step));
    }
  }

  /** One record more: the accumulator of its key is stepped, or a fresh
      one is appended. */
  lemma {:induction false} ReducedAdd<T, A>(gs: seq<Group<T>>, x: T, key: T -> string, zero: T -> A, step: (A, T) -> A)
    requires forall i :: 0 <= i < |gs| ==> gs[i].members != []
    ensures forall i :: 0 <= i < |AddToGroups(gs, x, key)| ==> AddToGroups(gs, x, key)[i].members != []
    ensures Reduced(AddToGroups(gs, x, key), zero, step) ==
      var j := IndexOf(Keys(gs), key(x));
      var acc := Reduced(gs, zero, step);
      if j < |gs| then acc[j := step(acc[j], x)] else acc + [step(zero(x), x)]
  {
    var j := IndexOf(Keys(gs), key(x));
    var r := AddToGroups(gs, x, key);
    if j < |gs| {
      var m := gs[j].members;
      assert (m + [x])[..|m|] == m;
      assert FoldGroup(m + [x], zero, step) == step(FoldGroup(m, zero, step), x);
    } else {
      assert FoldGroup([x], zero, step) == step(zero(x), x);
    }
  }

  /** The reduce loop: look the record's key up among the accumulators,
      update that one, or append a fresh one. */
  method ReduceByKey<T(!new), A(!new)>(s: seq<T>, key: T -> string, zero: T -> A, step: (A, T) -> A, keyOf: A -> string)
    returns (acc: seq<A>)
    requires forall x :: keyOf(zero(x)) == key(x)
    requires forall a, x :: keyOf(step(a, x)) == keyOf(a)
    ensures acc == Reduced(GroupBy(s, key), zero, step)
  {
    acc := [];
    for n := 0 to |s|
      invariant acc == Reduced(GroupBy(s[..n], key), zero, step)
    {
      var x := s[n];
      var gs := GroupBy(s[..n], key);
      assert s[..n + 1][..n] == s[..n] && s[..n + 1][n] == x;
      assert GroupBy(s[..n + 1], key) == AddToGroups(gs, x, key);
      var accKeys := seq(|acc|, k requires 0 <= k < |acc| => keyOf(acc[k]));
      assert accKeys == Keys(gs) by {
        GroupByShape(s[..n], key);
        forall k | 0 <= k < |gs| ensures accKeys[k] == gs[k].key {
          FoldGroupKey(gs[k].members, zero, step, key, keyOf);
        }
      }
      ReducedAdd(gs, x, key, zero, step);
      var j := IndexOf(accKeys, key(x));
      if j < |acc| {
        acc := acc[j := step(acc[j], x)];
      } else {
        acc := acc + [step(zero(x), x)];
      }
    }
    assert s[..|s|] == s;
  }
}
