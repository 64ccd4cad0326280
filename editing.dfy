/** The add, edit and delete rules the collection pages share, over any
    record type with a string key (SKU, supplier id, purchase id,
    competitor id, competitor-price id):
      add    — `[...list, x]`, after a duplicate-key check where the page has one;
      edit   — `list.map(r => r.key === k ? x : r)`;
      delete — `list.filter(r => r.key !== k)`. */
module Editing {
  import opened Common

  /** The record test of a delete. */
  function KeyIsNot<T>(key: T -> string, k: string): T -> bool
  {
    r => key(r) != k
  }

  /** The record test of an edit. */
  function KeyIsEqual<T>(key: T -> string, k: string): T -> bool
  {
    r => key(r) == k
  }

  /** Delete by key: every record with key `k` goes, every other record
      stays. */
  function RemoveKey<T(==, !new)>(s: seq<T>, key: T -> string, k: string): (r: seq<T>)
    ensures forall x :: x in r <==> x in s && key(x) != k
    ensures k !in Map(s, key) ==> r == s
    ensures forall x :: key(x) != k ==> multiset(r)[x] == multiset(s)[x]
    ensures IsSubsequence(r, s)
  {
    var r := Filter(s, KeyIsNot(key, k));
    assert forall x :: key(x) != k ==> multiset(r)[x] == multiset(s)[x] by {
      forall x | key(x) != k {
        FilterCount(s, KeyIsNot(key, k), x);
      }
    }
    FilterIsSubsequence(s, KeyIsNot(key, k));
    assert k !in Map(s, key) ==> r == s by {
      if k !in Map(s, key) {
        forall x | x in s ensures KeyIsNot(key, k)(x) {
          var i :| 0 <= i < |s| && s[i] == x;
          assert Map(s, key)[i] == key(x);
        }
        FilterKeepsAll(s, KeyIsNot(key, k));
      }
    }
    r
  }

  /** Edit by key: the records with key `k` are replaced by `x` in place;
      the list keeps its length and every other position. */
  function ReplaceKey<T>(s: seq<T>, key: T -> string, k: string, x: T): (r: seq<T>)
    ensures |r| == |s|
    ensures forall i :: 0 <= i < |s| ==> r[i] == if key(s[i]) == k then x else s[i]
  {
    ReplaceWhere(s, KeyIsEqual(key, k), x)
  }

  /** An edit that keeps the key leaves the key column untouched, so unique
      keys stay unique. */
  lemma ReplaceKeyKeepsKeys<T>(s: seq<T>, key: T -> string, k: string, x: T)
    requires key(x) == k
    ensures Map(ReplaceKey(s, key, k, x), key) == Map(s, key)
    ensures Distinct(Map(s, key)) ==> Distinct(Map(ReplaceKey(s, key, k, x), key))
  {
  }

  /** Add with the duplicate-key check of the Items and Suppliers pages:
      alert when the key is taken, otherwise append. */
  function AddUnique<T>(s: seq<T>, key: T -> string, x: T, duplicateMessage: string): (r: Outcome<seq<T>>)
    ensures r.Alert? <==> key(x) in Map(s, key)
    ensures r.Alert? ==> r.message == duplicateMessage
    ensures r.Commit? ==> r.value == s + [x]
    ensures !r.Skip?
  {
    if key(x) in Map(s, key) then Alert(duplicateMessage) else Commit(s + [x])
  }

  /** Adding through the check never creates a second record with the same
      key. */
  lemma {:induction false} AddUniqueKeepsDistinct<T>(s: seq<T>, key: T -> string, x: T, m: string)
    requires Distinct(Map(s, key))
    requires AddUnique(s, key, x, m).Commit?
    ensures Distinct(Map(AddUnique(s, key, x, m).value, key))
  {
    var r := s + [x];
    forall i, j | 0 <= i < j < |r| ensures Map(r, key)[i] != Map(r, key)[j] {
      assert Map(r, key)[i] == Map(s, key)[i];
      if j == |s| {
        assert Map(r, key)[j] == key(x);
      } else {
        assert Map(r, key)[j] == Map(s, key)[j];
      }
    }
  }
}
