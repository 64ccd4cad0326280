/** The supplier list: search, add with a duplicate-id check, edit, delete
    and a sheet upload that merges by supplier id. */
module SuppliersPage {
  import opened Common
  import opened Text
  import opened Records
  import opened Editing
  import opened Upsert

  const DuplicateIdMessage: string := "ID Supplier sudah ada!"

  function NameOrIdMatches(term: string): Supplier -> bool
  {
    (s: Supplier) => Matches(s.name, term) || Matches(s.id, term)
  }

  /** The search box: suppliers whose name or id contains the term,
      ignoring case, in list order. */
  function Search(list: seq<Supplier>, term: string): (r: seq<Supplier>)
    ensures forall s :: s in r <==> s in list && (Matches(s.name, term) || Matches(s.id, term))
    ensures IsSubsequence(r, list)
  {
    FilterIsSubsequence(list, NameOrIdMatches(term));
    Filter(list, NameOrIdMatches(term))
  }

  /** `confirmDelete`: the supplier with the selected id goes, every other
      one stays in order; nothing happens without a selection. */
  function Delete(list: seq<Supplier>, target: string): (r: Outcome<seq<Supplier>>)
    ensures r.Commit? <==> target != ""
    ensures r.Commit? ==> forall s :: s in r.value <==> s in list && s.id != target
    ensures r.Commit? ==> IsSubsequence(r.value, list)
    ensures r.Commit? ==> forall s: Supplier :: s.id != target ==> multiset(r.value)[s] == multiset(list)[s]
  {
    if target == "" then Skip
    else
      Commit(RemoveKey(list, SupplierId, target))
  }

  /** `handleSave`. `editing` is the id of the supplier open in the modal,
      `form` the submitted record. An edit replaces the supplier with that
      id in place; an add is refused when the id is taken and appends
      otherwise. */
  function Save(list: seq<Supplier>, editing: Option<string>, form: Supplier): (r: Outcome<seq<Supplier>>)
    ensures !r.Skip?
    ensures r.Alert? <==> editing.None? && form.id in Map(list, SupplierId)
    ensures r.Alert? ==> r.message == DuplicateIdMessage
    ensures r.Commit? && editing.None? ==> r.value == list + [form]
    ensures r.Commit? && editing.Some? ==> |r.value| == |list|
    ensures r.Commit? && editing.Some? ==>
      forall i :: 0 <= i < |list| ==> r.value[i] == if list[i].id == editing.value then form else list[i]
  {
    match editing
    case Some(id) => Commit(ReplaceKey(list, SupplierId, id, form))
    case None => AddUnique(list, SupplierId, form, DuplicateIdMessage)
  }

  /** The id input is read-only while editing, so the form carries the
      edited id; then every save keeps the supplier ids unique. */
  lemma SaveKeepsIdsDistinct(list: seq<Supplier>, editing: Option<string>, form: Supplier)
    requires Distinct(Map(list, SupplierId))
    requires editing.Some? ==> form.id == editing.value
    requires Save(list, editing, form).Commit?
    ensures Distinct(Map(Save(list, editing, form).value, SupplierId))
  {
    match editing
    case Some(id) => ReplaceKeyKeepsKeys(list, SupplierId, id, form);
    case None => AddUniqueKeepsDistinct(list, SupplierId, form, DuplicateIdMessage);
  }

  /** One sheet row: text cells as read ("" when missing) and the TOP cell
      after `Number`, `None` standing for NaN. */
  datatype SupplierRow = SupplierRow(id: string, name: string, phone: string, address: string, top: Option<int>)

  /** A row without id or name is skipped; phone and address default to the
      empty string and an unreadable TOP to 0. */
  function ParseRow(row: SupplierRow): (r: Option<Supplier>)
    ensures r.Some? <==> row.id != "" && row.name != ""
    ensures r.Some? ==> r.value.id == row.id && r.value.name == row.name
    ensures r.Some? ==> r.value.phone == row.phone && r.value.address == row.address
    ensures r.Some? && row.top.None? ==> r.value.top == 0
    ensures r.Some? && row.top.Some? ==> r.value.top == row.top.value
  {
    if row.id == "" || row.name == "" then None
    else Some(Supplier(row.id, row.name, row.phone, row.address, match row.top case Some(t) => t case None => 0))
  }

  /** `handleFileUpload`: the accepted rows are merged by id; existing
      suppliers keep their positions and ids, every accepted row is counted
      as added or updated, and unique ids stay unique. */
  method Upload(list: seq<Supplier>, rows: seq<SupplierRow>) returns (r: Outcome<seq<Supplier>>, added: nat, updated: nat)
    ensures !r.Alert?
    ensures r.Skip? <==> forall i :: 0 <= i < |rows| ==> rows[i].id == "" || rows[i].name == ""
    ensures r.Commit? ==> r.value == Upserted(list, FilterMap(rows, ParseRow), SupplierId)
    ensures added + updated == |FilterMap(rows, ParseRow)|
    ensures r.Commit? ==> |r.value| == |list| + added
    ensures r.Commit? ==> forall i :: 0 <= i < |list| ==> r.value[i].id == list[i].id
    ensures r.Commit? && Distinct(Map(list, SupplierId)) ==> Distinct(Map(r.value, SupplierId))
  {
    r, added, updated := UploadSheet(list, rows, ParseRow, SupplierId);
    AcceptedRows(rows);
    if r.Commit? {
      UpsertedKeepsPositions(list, FilterMap(rows, ParseRow), SupplierId);
      if Distinct(Map(list, SupplierId)) {
        UpsertedDistinct(list, FilterMap(rows, ParseRow), SupplierId);
      }
    }
  }

  /** Some row is accepted exactly when some row has both an id and a
      name. */
  lemma {:induction false} AcceptedRows(rows: seq<SupplierRow>)
    ensures FilterMap(rows, ParseRow) == [] <==> forall i :: 0 <= i < |rows| ==> rows[i].id == "" || rows[i].name == ""
  {
    if rows != [] {
      AcceptedRows(rows[..|rows| - 1]);
      var front := rows[..|rows| - 1];
      assert forall i :: 0 <= i < |front| ==> front[i] == rows[i];
    }
  }
}
