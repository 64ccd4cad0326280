/** The merge step of the Items and Suppliers sheet uploads: every parsed
    record overwrites the first existing record with the same key
    (`findIndex` by SKU or supplier id) or is appended, and the handler
    counts how many were added and how many updated. */
module Upsert {
  import opened Common

  /** One uploaded record merged into the working copy. */
  function UpsertOne<T>(s: seq<T>, x: T, key: T -> string): (r: seq<T>)
    ensures key(x) !in Map(s, key) ==> r == s + [x]
    ensures key(x) in Map(s, key) ==> IndexOf(Map(s, key), key(x)) < |s| && r == s[IndexOf(Map(s, key), key(x)) := x]
  {
    var i := IndexOf(Map(s, key), key(x));
    if i < |s| then s[i := x] else s + [x]
  }

  /** The working copy after the whole upload, records taken in file order. */
  function Upserted<T>(existing: seq<T>, incoming: seq<T>, key: T -> string): (r: seq<T>)
    ensures |existing| <= |r| <= |existing| + |incoming|
  {
    if incoming == [] then existing
    else UpsertOne(Upserted(existing, incoming[..|incoming| - 1], key), incoming[|incoming| - 1], key)
  }

  /** The merge loop with its two counters. Every uploaded record is either
      added or updated, and the list grows by exactly the added ones. */
  method MergeUpload<T>(existing: seq<T>, incoming: seq<T>, key: T -> string)
    returns (merged: seq<T>, added: nat, updated: nat)
    ensures merged == Upserted(existing, incoming, key)
    ensures added + updated == |incoming|
    ensures |merged| == |existing| + added
  {
    merged := existing;
    added := 0;
    updated := 0;
    for n := 0 to |incoming|
      invariant merged == Upserted(existing, incoming[..n], key)
      invariant added + updated == n
      invariant |merged| == |existing| + added
    {
      var x := incoming[n];
      assert incoming[..n + 1][..n] == incoming[..n] && incoming[..n + 1][n] == x;
      var i := IndexOf(Map(merged, key), key(x));
      if i < |merged| {
        merged := merged[i := x];
        updated := updated + 1;
      } else {
        merged := merged + [x];
        added := added + 1;
      }
    }
    assert incoming[..|incoming|] == incoming;
  }

  /** The whole upload handler: collect the rows the page accepts and,
      when there is at least one, merge them into the list; otherwise the
      list stays as it is and only a warning is shown. */
  method UploadSheet<R, T>(existing: seq<T>, rows: seq<R>, parse: R -> Option<T>, key: T -> string)
    returns (r: Outcome<seq<T>>, added: nat, updated: nat)
    ensures !r.Alert?
    ensures r.Skip? <==> FilterMap(rows, parse) == []
    ensures r.Commit? ==> r.value == Upserted(existing, FilterMap(rows, parse), key)
    ensures added + updated == |FilterMap(rows, parse)|
    ensures r.Commit? ==> |r.value| == |existing| + added
  {
    var parsed := CollectRows(rows, parse);
    if parsed == [] {
      return Skip, 0, 0;
    }
    var merged;
    merged, added, updated := MergeUpload(existing, parsed, key);
    r := Commit(merged);
  }

  /** Records already in the list stay at their positions under the same
      key; the upload only overwrites them or appends after them. */
  lemma {:induction false} UpsertedKeepsPositions<T>(existing: seq<T>, incoming: seq<T>, key: T -> string)
    ensures |Upserted(existing, incoming, key)| >= |existing|
    ensures forall i :: 0 <= i < |existing| ==> key(Upserted(existing, incoming, key)[i]) == key(existing[i])
  {
    if incoming != [] {
      UpsertedKeepsPositions(existing, incoming[..|incoming| - 1], key);
    }
  }

  /** The merged keys are exactly the old keys and the uploaded keys. */
  lemma {:induction false} UpsertedKeys<T>(existing: seq<T>, incoming: seq<T>, key: T -> string, k: string)
    ensures k in Map(Upserted(existing, incoming, key), key) <==>
      k in Map(existing, key) || k in Map(incoming, key)
  {
    if incoming != [] {
      var front := incoming[..|incoming| - 1];
      var x := incoming[|incoming| - 1];
      UpsertedKeys(existing, front, key, k);
      SnocKeys(front, x, key, k);
      assert incoming == front + [x];
      UpsertOneKeys(Upserted(existing, front, key), x, key, k);
    }
  }

  /** The keys of a list with one more record. */
  lemma SnocKeys<T>(front: seq<T>, x: T, key: T -> string, k: string)
    ensures k in Map(front + [x], key) <==> k in Map(front, key) || k == key(x)
  {
    var all := front + [x];
    if k in Map(all, key) {
      var n :| 0 <= n < |all| && Map(all, key)[n] == k;
      if n < |front| { assert Map(front, key)[n] == k; }
    }
    if k in Map(front, key) {
      var n :| 0 <= n < |front| && Map(front, key)[n] == k;
      assert Map(all, key)[n] == k;
    }
    if k == key(x) { assert Map(all, key)[|front|] == k; }
  }

  /** One upserted record adds its key and keeps every other key. */
  lemma UpsertOneKeys<T>(s: seq<T>, x: T, key: T -> string, k: string)
    ensures k in Map(UpsertOne(s, x, key), key) <==> k in Map(s, key) || k == key(x)
  {
    var r := UpsertOne(s, x, key);
    var i := IndexOf(Map(s, key), key(x));
    if k in Map(r, key) {
      var n :| 0 <= n < |r| && Map(r, key)[n] == k;
      if n < |s| && n != i { assert Map(s, key)[n] == k; }
    }
    if k in Map(s, key) {
      var n :| 0 <= n < |s| && Map(s, key)[n] == k;
      assert Map(r, key)[n] == k;
    }
    if k == key(x) {
      if i < |s| { assert Map(r, key)[i] == k; } else { assert Map(r, key)[|s|] == k; }
    }
  }

  /** Uploading into a list with unique keys keeps the keys unique, even
      when the sheet repeats a key. */
  lemma {:induction false} UpsertedDistinct<T>(existing: seq<T>, incoming: seq<T>, key: T -> string)
    requires Distinct(Map(existing, key))
    ensures Distinct(Map(Upserted(existing, incoming, key), key))
  {
    if incoming != [] {
      var front := incoming[..|incoming| - 1];
      var x := incoming[|incoming| - 1];
      var s := Upserted(existing, front, key);
      var r := Upserted(existing, incoming, key);
      UpsertedDistinct(existing, front, key);
      var ks := Map(s, key);
      var i := IndexOf(ks, key(x));
      forall a, b | 0 <= a < b < |r| ensures Map(r, key)[a] != Map(r, key)[b] {
        if i == |s| && b == |s| {
          assert ks[a] != key(x);
        } else {
          assert Map(r, key)[a] == ks[a] && Map(r, key)[b] == ks[b];
        }
      }
    }
  }

  /** The last row of the sheet with a given key is the record stored under
      that key afterwards: later rows overwrite earlier ones. */
  lemma {:induction false} UpsertedLastWins<T>(existing: seq<T>, incoming: seq<T>, key: T -> string, n: nat)
    requires n < |incoming|
    requires forall m :: n < m < |incoming| ==> key(incoming[m]) != key(incoming[n])
    ensures IndexOf(Map(Upserted(existing, incoming, key), key), key(incoming[n])) < |Upserted(existing, incoming, key)|
    ensures Upserted(existing, incoming, key)[IndexOf(Map(Upserted(existing, incoming, key), key), key(incoming[n]))] == incoming[n]
  {
    var front := incoming[..|incoming| - 1];
    var x := incoming[|incoming| - 1];
    var s := Upserted(existing, front, key);
    if n == |incoming| - 1 {
      UpsertOneLands(s, x, key);
    } else {
      assert front[n] == incoming[n];
      UpsertedLastWins(existing, front, key, n);
      UpsertOneKeepsOther(s, x, key, key(incoming[n]));
    }
  }

  /** The upserted record is the first with its key afterwards. */
  lemma UpsertOneLands<T>(s: seq<T>, x: T, key: T -> string)
    ensures IndexOf(Map(UpsertOne(s, x, key), key), key(x)) < |UpsertOne(s, x, key)|
    ensures UpsertOne(s, x, key)[IndexOf(Map(UpsertOne(s, x, key), key), key(x))] == x
  {
    var r := UpsertOne(s, x, key);
    var i := IndexOf(Map(s, key), key(x));
    if i < |s| {
      assert Map(r, key)[i] == key(x);
      assert forall j :: 0 <= j < i ==> Map(r, key)[j] == Map(s, key)[j];
      IndexOfIs(Map(r, key), key(x), i);
    } else {
      assert Map(r, key)[|s|] == key(x);
      assert forall j :: 0 <= j < |s| ==> Map(r, key)[j] == Map(s, key)[j];
      IndexOfIs(Map(r, key), key(x), |s|);
    }
  }

  /** Upserting a record of another key leaves the first record of `k`
      where it was. */
  lemma UpsertOneKeepsOther<T>(s: seq<T>, x: T, key: T -> string, k: string)
    requires key(x) != k
    requires IndexOf(Map(s, key), k) < |s|
    ensures IndexOf(Map(UpsertOne(s, x, key), key), k) == IndexOf(Map(s, key), k)
    ensures UpsertOne(s, x, key)[IndexOf(Map(s, key), k)] == s[IndexOf(Map(s, key), k)]
  {
    var r := UpsertOne(s, x, key);
    var i := IndexOf(Map(s, key), key(x));
    var p := IndexOf(Map(s, key), k);
    assert forall j :: 0 <= j < |s| && j != i ==> Map(r, key)[j] == Map(s, key)[j];
    assert p != i;
    assert Map(r, key)[p] == k;
    IndexOfIs(Map(r, key), k, p);
  }

  /** A record whose key the sheet does not mention is left as it was. */
  lemma {:induction false} UpsertedUntouched<T>(existing: seq<T>, incoming: seq<T>, key: T -> string, i: nat)
    requires i < |existing|
    requires key(existing[i]) !in Map(incoming, key)
    ensures i < |Upserted(existing, incoming, key)|
    ensures Upserted(existing, incoming, key)[i] == existing[i]
  {
    UpsertedKeepsPositions(existing, incoming, key);
    if incoming != [] {
      var front := incoming[..|incoming| - 1];
      var x := incoming[|incoming| - 1];
      assert Map(incoming, key)[|front|] == key(x);
      assert forall m :: 0 <= m < |front| ==> Map(front, key)[m] == Map(incoming, key)[m];
      UpsertedUntouched(existing, front, key, i);
    }
  }

  /** A sheet of new, distinct keys is simply appended. */
  lemma {:induction false} UpsertedFresh<T>(existing: seq<T>, incoming: seq<T>, key: T -> string)
    requires Distinct(Map(existing + incoming, key))
    ensures Upserted(existing, incoming, key) == existing + incoming
  {
    if incoming != [] {
      var front := incoming[..|incoming| - 1];
      var x := incoming[|incoming| - 1];
      assert existing + incoming == (existing + front) + [x];
      assert Map(existing + front, key) == Map(existing + incoming, key)[..|existing + front|];
      UpsertedFresh(existing, front, key);
      var s := existing + front;
      assert Map(existing + incoming, key)[|s|] == key(x);
      assert key(x) !in Map(s, key);
    }
  }
}
