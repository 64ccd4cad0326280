/** The store-locations page: a plain list of names with search, add,
    rename, delete and sheet upload. */
module LocationsPage {
  import opened Common
  import opened Text

  function NameMatches(term: string): string -> bool
  {
    name => Matches(name, term)
  }

  /** The search box: the names containing the term, ignoring case, in
      list order. */
  function Search(locations: seq<string>, term: string): (r: seq<string>)
    ensures forall n :: n in r <==> n in locations && Matches(n, term)
  {
    Filter(locations, NameMatches(term))
  }

  /** The search keeps list order, and an empty term lists everything. */
  lemma SearchKeepsOrder(locations: seq<string>, term: string)
    ensures IsSubsequence(Search(locations, term), locations)
    ensures term == "" ==> Search(locations, term) == locations
  {
    FilterIsSubsequence(locations, NameMatches(term));
    if term == "" {
      forall n | n in locations ensures NameMatches(term)(n) {
        EmptyTermMatches(n);
      }
      FilterKeepsAll(locations, NameMatches(term));
    }
  }

  /** `confirmDelete`: every occurrence of the name goes, every other name
      stays; nothing happens without a selected name. */
  function Delete(locations: seq<string>, target: string): (r: Outcome<seq<string>>)
    ensures r.Commit? <==> target != ""
    ensures r.Commit? ==> target !in r.value
    ensures r.Commit? ==> forall n :: n != target ==> multiset(r.value)[n] == multiset(locations)[n]
    ensures r.Commit? ==> IsSubsequence(r.value, locations)
  {
    if target == "" then Skip else Commit(Without(locations, target))
  }

  /** `handleSave`. `editing` is the old name when the modal renames one.
      A blank name does nothing; a new name must not be present yet; a
      rename replaces every occurrence and checks nothing. The name is
      stored as typed, untrimmed. */
  function Save(locations: seq<string>, editing: Option<string>, newName: string): (r: Outcome<seq<string>>)
    ensures r.Skip? <==> IsBlank(newName)
    ensures r.Alert? <==> !IsBlank(newName) && editing.None? && newName in locations
    ensures r.Alert? ==> r.message == "Lokasi sudah ada!"
    ensures r.Commit? && editing.None? ==> newName !in locations && r.value == locations + [newName]
    ensures r.Commit? && editing.Some? ==> |r.value| == |locations|
    ensures r.Commit? && editing.Some? ==>
      forall i :: 0 <= i < |locations| ==> r.value[i] == if locations[i] == editing.value then newName else locations[i]
  {
    if Trim(newName) == "" then Skip
    else match editing
      case Some(oldName) => Commit(ReplaceWhere(locations, (l: string) => l == oldName, newName))
      case None =>
        if newName in locations then Alert("Lokasi sudah ada!")
        else Commit(locations + [newName])
  }

  /** Adding through the duplicate check keeps the names distinct. */
  lemma {:induction false} AddKeepsDistinct(locations: seq<string>, newName: string)
    requires Distinct(locations)
    requires Save(locations, None, newName).Commit?
    ensures Distinct(Save(locations, None, newName).value)
  {
    var r := locations + [newName];
    forall i, j | 0 <= i < j < |r| ensures r[i] != r[j] {
      if j == |locations| {
        assert r[i] == locations[i];
      }
    }
  }

  /** A rename onto another name that is already present yields a
      duplicate: the rename path has no duplicate check. */
  lemma RenameMayDuplicate(locations: seq<string>, oldName: string, newName: string)
    requires !IsBlank(newName) && oldName != newName
    requires oldName in locations && newName in locations
    ensures Save(locations, Some(oldName), newName).Commit?
    ensures !Distinct(Save(locations, Some(oldName), newName).value)
  {
    var out := Save(locations, Some(oldName), newName);
    assert out.Commit?;
    var r := out.value;
    var i :| 0 <= i < |locations| && locations[i] == oldName;
    var j :| 0 <= j < |locations| && locations[j] == newName;
    assert r[i] == newName;
    assert r[j] == newName;
    SameTwiceNotDistinct(r, i, j);
  }

  lemma SameTwiceNotDistinct(r: seq<string>, i: nat, j: nat)
    requires i < |r| && j < |r| && i != j && r[i] == r[j]
    ensures !Distinct(r)
  {
    if i < j {
      assert !(r[i] != r[j]);
    } else {
      assert !(r[j] != r[i]);
    }
  }

  /** Surrounding blanks are kept in the stored name. */
  lemma SaveKeepsUntrimmedName()
    ensures Save([], None, " A ") == Commit([" A "])
  {
    assert !IsSpace('A');
    assert !IsBlank(" A ") by {
      assert " A "[1] == 'A';
    }
    assert [] + [" A "] == [" A "];
  }

  function IsNewName(locations: seq<string>): string -> bool
  {
    name => name != "" && name !in locations
  }

  /** The upload: non-empty names of the sheet that are not in the list
      yet, appended in sheet order, each as often as the sheet holds it;
      without any, nothing changes. */
  function Upload(locations: seq<string>, names: seq<string>): (r: Outcome<seq<string>>)
    ensures !r.Alert?
    ensures r.Skip? <==> forall n :: n in names ==> n == "" || n in locations
    ensures r.Commit? ==> locations <= r.value
    ensures r.Commit? ==> forall n :: n in r.value[|locations|..] <==> n in names && n != "" && n !in locations
    ensures r.Commit? ==> IsSubsequence(r.value[|locations|..], names)
    ensures r.Commit? ==> forall n :: multiset(r.value[|locations|..])[n] ==
                                      if n != "" && n !in locations then multiset(names)[n] else 0
  {
    var added := Filter(names, IsNewName(locations));
    assert (locations + added)[|locations|..] == added;
    FilterIsSubsequence(names, IsNewName(locations));
    assert forall n :: multiset(added)[n] == if n != "" && n !in locations then multiset(names)[n] else 0 by {
      forall n {
        FilterCount(names, IsNewName(locations), n);
      }
    }
    if added != [] then
      assert added[0] in added;
      Commit(locations + added)
    else
      Skip
  }

  /** A name twice in the sheet and not in the list is added twice. */
  lemma UploadKeepsSheetDuplicates()
    ensures Upload([], ["X", "X"]) == Commit(["X", "X"])
  {
    var p := IsNewName([]);
    assert Filter(["X"], p) == ["X"];
    assert ["X", "X"][1..] == ["X"];
    assert Filter(["X", "X"], p) == ["X", "X"];
  }
}
