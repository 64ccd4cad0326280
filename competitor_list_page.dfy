/** The competitor-store list: search, add, edit and delete of competitor
    stores, each tied to one of the panel's own locations. */
module CompetitorListPage {
  import opened Common
  import opened Text
  import opened Records
  import opened Editing

  function NameOrLocationMatches(term: string): Competitor -> bool
  {
    (c: Competitor) => Matches(c.name, term) || Matches(c.nearLocation, term)
  }

  /** The search box: the stores whose name or nearby location contains
      the term, ignoring case. */
  function Search(list: seq<Competitor>, term: string): (r: seq<Competitor>)
    ensures forall c :: c in r <==> c in list && (Matches(c.name, term) || Matches(c.nearLocation, term))
  {
    Filter(list, NameOrLocationMatches(term))
  }

  /** The search keeps list order, and an empty term lists every store. */
  lemma SearchKeepsOrder(list: seq<Competitor>, term: string)
    ensures IsSubsequence(Search(list, term), list)
    ensures term == "" ==> Search(list, term) == list
  {
    FilterIsSubsequence(list, NameOrLocationMatches(term));
    if term == "" {
      forall c | c in list ensures NameOrLocationMatches(term)(c) {
        EmptyTermMatches(c.name);
      }
      FilterKeepsAll(list, NameOrLocationMatches(term));
    }
  }

  /** `confirmDelete`: the stores with the selected id go, every other one
      stays; nothing happens without a selection. */
  function Delete(list: seq<Competitor>, target: string): (r: Outcome<seq<Competitor>>)
    ensures r.Commit? <==> target != ""
    ensures r.Commit? ==> forall c :: c in r.value <==> c in list && c.id != target
    ensures r.Commit? ==> IsSubsequence(r.value, list)
    ensures r.Commit? ==> forall c: Competitor :: c.id != target ==> multiset(r.value)[c] == multiset(list)[c]
  {
    if target == "" then Skip
    else
      Commit(RemoveKey(list, CompetitorId, target))
  }

  /** `handleSave`. `editing` is the store open in the modal, if any, and
      `now` the clock reading that names a new store. Without a nearby
      location nothing changes; an edit keeps the store's id and replaces
      it in place; an add appends a store with a fresh `C<now>` id. */
  function Save(list: seq<Competitor>, editing: Option<Competitor>, name: string, nearLocation: string, now: nat)
    : (r: Outcome<seq<Competitor>>)
    ensures r.Alert? <==> nearLocation == ""
    ensures r.Alert? ==> r.message == "Lokasi Toko harus dipilih"
    ensures !r.Skip?
    ensures r.Commit? && editing.None? ==>
      r.value == list + [Competitor("C" + NatToString(now), name, nearLocation)]
    ensures r.Commit? && editing.Some? ==> |r.value| == |list|
    ensures r.Commit? && editing.Some? ==>
      forall i :: 0 <= i < |list| ==>
        r.value[i] == if list[i].id == editing.value.id then Competitor(editing.value.id, name, nearLocation) else list[i]
  {
    if nearLocation == "" then Alert("Lokasi Toko harus dipilih")
    else match editing
      case Some(e) => Commit(ReplaceKey(list, CompetitorId, e.id, Competitor(e.id, name, nearLocation)))
      case None => Commit(list + [Competitor("C" + NatToString(now), name, nearLocation)])
  }

  /** An edit never changes the id column, so unique ids stay unique. */
  lemma EditKeepsIds(list: seq<Competitor>, editing: Competitor, name: string, nearLocation: string, now: nat)
    requires nearLocation != ""
    ensures Map(Save(list, Some(editing), name, nearLocation, now).value, CompetitorId) == Map(list, CompetitorId)
    ensures Distinct(Map(list, CompetitorId)) ==>
      Distinct(Map(Save(list, Some(editing), name, nearLocation, now).value, CompetitorId))
  {
    ReplaceKeyKeepsKeys(list, CompetitorId, editing.id, Competitor(editing.id, name, nearLocation));
  }
}
