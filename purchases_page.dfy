/** The purchase log: search, add, edit, delete and a sheet upload that
    appends. Every saved purchase carries a snapshot of the item name and
    its price per unit. */
module PurchasesPage {
  import opened Common
  import opened Text
  import opened Records
  import opened Editing

  const MissingChoiceMessage: string := "Lokasi, Produk, dan Supplier harus dipilih"

  function PurchaseMatches(term: string): Purchase -> bool
  {
    (p: Purchase) => Matches(p.itemName, term) || Matches(p.sku, term) || Matches(p.location, term)
  }

  /** The search box: purchases whose item name, SKU or location contains
      the term, ignoring case, in list order. */
  function Search(list: seq<Purchase>, term: string): (r: seq<Purchase>)
    ensures forall p :: p in r <==> p in list && (Matches(p.itemName, term) || Matches(p.sku, term) || Matches(p.location, term))
    ensures IsSubsequence(r, list)
  {
    FilterIsSubsequence(list, PurchaseMatches(term));
    Filter(list, PurchaseMatches(term))
  }

  /** `confirmDelete`: the purchases with the selected id go, every other
      one stays in order; nothing happens without a selection. */
  function Delete(list: seq<Purchase>, target: string): (r: Outcome<seq<Purchase>>)
    ensures r.Commit? <==> target != ""
    ensures r.Commit? ==> forall p :: p in r.value <==> p in list && p.id != target
    ensures r.Commit? ==> IsSubsequence(r.value, list)
    ensures r.Commit? ==> forall p: Purchase :: p.id != target ==> multiset(r.value)[p] == multiset(list)[p]
  {
    if target == "" then Skip
    else
      Commit(RemoveKey(list, PurchaseId, target))
  }

  /** The purchase form. */
  datatype PurchaseForm = PurchaseForm(date: string, location: string, sku: string, supplierId: string,
                                       qty: int, value: int)

  /** The record a save stores under `id`. */
  function FormPurchase(items: seq<Item>, form: PurchaseForm, id: string): (p: Purchase)
    ensures p.id == id && p.date == form.date && p.location == form.location && p.sku == form.sku
    ensures p.supplierId == form.supplierId && p.qty == form.qty && p.value == form.value
    ensures p.itemName == ItemNameFor(items, form.sku)
    ensures p.pricePerQty == Ratio(form.value, form.qty)
  {
    Purchase(id, form.date, form.location, form.sku, ItemNameFor(items, form.sku),
             form.qty, form.value, Ratio(form.value, form.qty), form.supplierId)
  }

  /** `handleSave`. `editing` is the purchase open in the modal, `now` the
      clock reading that names a new purchase. Without location, product
      or supplier nothing changes; an edit keeps the purchase's id and
      replaces it in place; an add appends a purchase with id `PUR<now>`. */
  function Save(list: seq<Purchase>, items: seq<Item>, editing: Option<Purchase>, form: PurchaseForm, now: nat)
    : (r: Outcome<seq<Purchase>>)
    ensures !r.Skip?
    ensures r.Alert? <==> form.location == "" || form.sku == "" || form.supplierId == ""
    ensures r.Alert? ==> r.message == MissingChoiceMessage
    ensures r.Commit? && editing.None? ==> r.value == list + [FormPurchase(items, form, "PUR" + NatToString(now))]
    ensures r.Commit? && editing.Some? ==> |r.value| == |list|
    ensures r.Commit? && editing.Some? ==>
      forall i :: 0 <= i < |list| ==>
        r.value[i] == if list[i].id == editing.value.id then FormPurchase(items, form, editing.value.id) else list[i]
  {
    if form.location == "" || form.sku == "" || form.supplierId == "" then Alert(MissingChoiceMessage)
    else match editing
      case Some(e) => Commit(ReplaceKey(list, PurchaseId, e.id, FormPurchase(items, form, e.id)))
      case None => Commit(list + [FormPurchase(items, form, "PUR" + NatToString(now))])
  }

  /** An edit never changes the id column, so unique ids stay unique. */
  lemma EditKeepsIds(list: seq<Purchase>, items: seq<Item>, editing: Purchase, form: PurchaseForm, now: nat)
    requires Save(list, items, Some(editing), form, now).Commit?
    ensures Map(Save(list, items, Some(editing), form, now).value, PurchaseId) == Map(list, PurchaseId)
    ensures Distinct(Map(list, PurchaseId)) ==>
      Distinct(Map(Save(list, items, Some(editing), form, now).value, PurchaseId))
  {
    ReplaceKeyKeepsKeys(list, PurchaseId, editing.id, FormPurchase(items, form, editing.id));
  }

  /** One sheet row: text cells as read ("" when missing), QTY and value
      after `Number` (`None` standing for NaN), and the clock reading and
      random draw below 1000 taken while the row is read. */
  datatype PurchaseRow = PurchaseRow(date: string, location: string, sku: string, supplierId: string,
                                     qty: Option<int>, value: Option<int>, clock: nat, draw: nat)

  /** A row is kept when its four text cells are filled and QTY and value
      are numbers other than 0. */
  predicate Complete(row: PurchaseRow)
  {
    row.date != "" && row.location != "" && row.sku != "" && row.supplierId != ""
    && row.qty.Some? && row.qty.value != 0 && row.value.Some? && row.value.value != 0
  }

  /** The purchase a row yields, with id `PUR<clock><draw>`. */
  function ParseRow(items: seq<Item>, row: PurchaseRow): (r: Option<Purchase>)
    ensures r.Some? <==> Complete(row)
    ensures r.Some? ==> r.value.id == "PUR" + NatToString(row.clock) + NatToString(row.draw)
    ensures r.Some? ==> r.value.date == row.date && r.value.location == row.location
    ensures r.Some? ==> r.value.sku == row.sku && r.value.supplierId == row.supplierId
    ensures r.Some? ==> r.value.qty == row.qty.value && r.value.value == row.value.value
    ensures r.Some? ==> r.value.itemName == ItemNameFor(items, row.sku)
    ensures r.Some? ==> r.value.pricePerQty == Ratio(row.value.value, row.qty.value)
  {
    if !Complete(row) then None
    else
      Some(Purchase("PUR" + NatToString(row.clock) + NatToString(row.draw), row.date, row.location, row.sku,
                    ItemNameFor(items, row.sku), row.qty.value, row.value.value,
                    Ratio(row.value.value, row.qty.value), row.supplierId))
  }

  function RowParser(items: seq<Item>): PurchaseRow -> Option<Purchase>
  {
    row => ParseRow(items, row)
  }

  /** Some row is accepted exactly when some row is complete. */
  lemma {:induction false} AcceptedRows(items: seq<Item>, rows: seq<PurchaseRow>)
    ensures FilterMap(rows, RowParser(items)) == [] <==> forall i :: 0 <= i < |rows| ==> !Complete(rows[i])
  {
    if rows != [] {
      AcceptedRows(items, rows[..|rows| - 1]);
      var front := rows[..|rows| - 1];
      assert forall i :: 0 <= i < |front| ==> front[i] == rows[i];
    }
  }

  /** `handleFileUpload`: the purchases of the complete rows are appended
      after the existing ones in sheet order; without any, nothing changes. */
  method Upload(list: seq<Purchase>, items: seq<Item>, rows: seq<PurchaseRow>) returns (r: Outcome<seq<Purchase>>)
    ensures !r.Alert?
    ensures r.Skip? <==> forall i :: 0 <= i < |rows| ==> !Complete(rows[i])
    ensures r.Commit? ==> r.value == list + FilterMap(rows, RowParser(items))
    ensures r.Commit? ==> list < r.value
  {
    var parsed := CollectRows(rows, RowParser(items));
    AcceptedRows(items, rows);
    if parsed == [] {
      return Skip;
    }
    r := Commit(list + parsed);
    assert r.value[..|list|] == list;
  }

  /** Every appended purchase comes from a complete row of the sheet. */
  lemma UploadedFromCompleteRows(items: seq<Item>, rows: seq<PurchaseRow>, k: nat)
    requires k < |FilterMap(rows, RowParser(items))|
    ensures exists i :: 0 <= i < |rows| && Complete(rows[i]) && ParseRow(items, rows[i]) == Some(FilterMap(rows, RowParser(items))[k])
  {
    FilterMapSound(rows, RowParser(items), k);
  }
}
