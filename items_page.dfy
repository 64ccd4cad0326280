/** The item list: search, add with a duplicate-SKU check, edit, delete,
    the per-location price table of the item form, the supplier picker and
    a sheet upload that merges by SKU. */
module ItemsPage {
  import opened Common
  import opened Text
  import opened Records
  import opened Editing
  import opened Upsert

  const DuplicateSkuMessage: string := "SKU sudah ada!"
  const DefaultCategory: string := "Uncategorized"

  function NameOrSkuMatches(term: string): Item -> bool
  {
    (i: Item) => Matches(i.name, term) || Matches(i.sku, term)
  }

  /** The search box: items whose name or SKU contains the term, ignoring
      case, in list order. */
  function Search(items: seq<Item>, term: string): (r: seq<Item>)
    ensures forall i :: i in r <==> i in items && (Matches(i.name, term) || Matches(i.sku, term))
    ensures IsSubsequence(r, items)
  {
    FilterIsSubsequence(items, NameOrSkuMatches(term));
    Filter(items, NameOrSkuMatches(term))
  }

  /** `confirmDelete`: the item with the selected SKU goes, every other one
      stays in order; nothing happens without a selection. */
  function Delete(items: seq<Item>, target: string): (r: Outcome<seq<Item>>)
    ensures r.Commit? <==> target != ""
    ensures r.Commit? ==> forall i :: i in r.value <==> i in items && i.sku != target
    ensures r.Commit? ==> IsSubsequence(r.value, items)
    ensures r.Commit? ==> forall i: Item :: i.sku != target ==> multiset(r.value)[i] == multiset(items)[i]
  {
    if target == "" then Skip
    else
      Commit(RemoveKey(items, ItemSku, target))
  }

  /** The price table of an item: one entry for each current location and
      no other, holding that location's retail and reseller price. */
  function PriceTable(locations: seq<string>, price: string -> ItemPrice): (m: map<string, ItemPrice>)
    ensures forall l :: l in m <==> l in locations
    ensures forall l :: l in m ==> m[l] == price(l)
  {
    map l | l in locations :: price(l)
  }

  /** The `locations.forEach` loop that fills the table entry by entry. */
  method FillPrices(locations: seq<string>, price: string -> ItemPrice) returns (prices: map<string, ItemPrice>)
    ensures prices == PriceTable(locations, price)
  {
    prices := map[];
    for n := 0 to |locations|
      invariant prices == PriceTable(locations[..n], price)
    {
      assert locations[..n + 1] == locations[..n] + [locations[n]];
      prices := prices[locations[n] := price(locations[n])];
    }
    assert locations[..|locations|] == locations;
  }

  /** The item form: the typed fields and, per location, the two prices
      entered for it. */
  datatype ItemForm = ItemForm(sku: string, name: string, category: string, hpp: int,
                               price: string -> ItemPrice)

  /** The item a save stores: the form's fields, a price entry for exactly
      the current locations and the suppliers picked in the form. */
  function FormItem(form: ItemForm, locations: seq<string>, picked: seq<string>): (i: Item)
    ensures i.sku == form.sku && i.name == form.name && i.category == form.category && i.hpp == form.hpp
    ensures forall l :: l in i.prices <==> l in locations
    ensures forall l :: l in i.prices ==> i.prices[l] == form.price(l)
    ensures i.suppliers == picked
  {
    Item(form.sku, form.name, form.category, form.hpp, PriceTable(locations, form.price), picked)
  }

  /** `handleSave`. `editing` is the SKU of the item open in the modal. An
      edit replaces the item with that SKU in place; an add is refused when
      the SKU is taken and appends otherwise. */
  function Save(items: seq<Item>, editing: Option<string>, form: ItemForm, locations: seq<string>,
                picked: seq<string>): (r: Outcome<seq<Item>>)
    ensures !r.Skip?
    ensures r.Alert? <==> editing.None? && form.sku in Map(items, ItemSku)
    ensures r.Alert? ==> r.message == DuplicateSkuMessage
    ensures r.Commit? && editing.None? ==> r.value == items + [FormItem(form, locations, picked)]
    ensures r.Commit? && editing.Some? ==> |r.value| == |items|
    ensures r.Commit? && editing.Some? ==>
      forall i :: 0 <= i < |items| ==>
        r.value[i] == if items[i].sku == editing.value then FormItem(form, locations, picked) else items[i]
  {
    var x := FormItem(form, locations, picked);
    match editing
    case Some(sku) => Commit(ReplaceKey(items, ItemSku, sku, x))
    case None => AddUnique(items, ItemSku, x, DuplicateSkuMessage)
  }

  /** The SKU input is read-only while editing, so the form carries the
      edited SKU; then every save keeps the SKUs unique. */
  lemma SaveKeepsSkusDistinct(items: seq<Item>, editing: Option<string>, form: ItemForm,
                              locations: seq<string>, picked: seq<string>)
    requires Distinct(Map(items, ItemSku))
    requires editing.Some? ==> form.sku == editing.value
    requires Save(items, editing, form, locations, picked).Commit?
    ensures Distinct(Map(Save(items, editing, form, locations, picked).value, ItemSku))
  {
    var x := FormItem(form, locations, picked);
    match editing
    case Some(sku) => ReplaceKeyKeepsKeys(items, ItemSku, sku, x);
    case None => AddUniqueKeepsDistinct(items, ItemSku, x, DuplicateSkuMessage);
  }

  /** `toggleSupplier` in the supplier picker: the id's membership flips,
      every other id keeps its membership. */
  function ToggleSupplier(picked: seq<string>, id: string): (r: seq<string>)
    ensures id in r <==> id !in picked
    ensures forall other :: other != id ==> (other in r <==> other in picked)
    ensures id !in picked ==> r == picked + [id]
    ensures id !in r ==> forall other :: other != id ==> multiset(r)[other] == multiset(picked)[other]
  {
    Toggle(picked, id)
  }

  /** One sheet row: text cells as read ("" when missing), numeric cells
      after `Number` (`None` standing for NaN), and per location the retail
      and reseller cells. */
  datatype ItemRow = ItemRow(sku: string, name: string, category: string, hpp: Option<int>,
                             supplierIds: string, retail: string -> Option<int>,
                             reseller: string -> Option<int>)

  /** `n || 0` on a number: NaN and 0 both give 0. */
  function OrZero(n: Option<int>): (r: int)
    ensures n.None? ==> r == 0
    ensures n.Some? ==> r == n.value
  {
    match n
    case Some(v) => v
    case None => 0
  }

  /** The price pair a row gives a location, missing cells read as 0. */
  function RowPrice(row: ItemRow): string -> ItemPrice
  {
    l => ItemPrice(OrZero(row.retail(l)), OrZero(row.reseller(l)))
  }

  /** The supplier-id cell: no ids when the cell is empty, otherwise the
      pieces between commas with surrounding whitespace removed. */
  function SupplierIds(cell: string): (ids: seq<string>)
    ensures cell == "" ==> ids == []
    ensures cell != "" ==> |ids| == |Split(cell, ',')|
    ensures cell != "" ==> forall i :: 0 <= i < |ids| ==> ids[i] == Trim(Split(cell, ',')[i])
  {
    if cell == "" then [] else Map(Split(cell, ','), Trim)
  }

  /** Writing a list of trimmed, comma-free ids into the cell joined by
      commas reads back the same list. */
  lemma SupplierIdsRoundTrip(ids: seq<string>)
    requires |ids| >= 1
    requires forall i :: 0 <= i < |ids| ==> ',' !in ids[i] && Trim(ids[i]) == ids[i]
    requires Join(ids, ',') != ""
    ensures SupplierIds(Join(ids, ',')) == ids
  {
    SplitJoin(ids, ',');
  }

  /** A row without SKU or name is skipped; the category defaults to
      "Uncategorized", HPP and every missing price to 0. */
  function ParseRow(locations: seq<string>, row: ItemRow): (r: Option<Item>)
    ensures r.Some? <==> row.sku != "" && row.name != ""
    ensures r.Some? ==> r.value.sku == row.sku && r.value.name == row.name
    ensures r.Some? ==> r.value.category == if row.category == "" then DefaultCategory else row.category
    ensures r.Some? ==> r.value.hpp == OrZero(row.hpp)
    ensures r.Some? ==> forall l :: l in r.value.prices <==> l in locations
    ensures r.Some? ==> forall l :: l in r.value.prices ==>
      r.value.prices[l] == ItemPrice(OrZero(row.retail(l)), OrZero(row.reseller(l)))
    ensures r.Some? ==> r.value.suppliers == SupplierIds(row.supplierIds)
  {
    if row.sku == "" || row.name == "" then None
    else
      Some(Item(row.sku, row.name, if row.category == "" then DefaultCategory else row.category,
                OrZero(row.hpp), PriceTable(locations, RowPrice(row)), SupplierIds(row.supplierIds)))
  }

  function RowParser(locations: seq<string>): ItemRow -> Option<Item>
  {
    row => ParseRow(locations, row)
  }

  /** Some row is accepted exactly when some row has both SKU and name. */
  lemma {:induction false} AcceptedRows(locations: seq<string>, rows: seq<ItemRow>)
    ensures FilterMap(rows, RowParser(locations)) == [] <==>
      forall i :: 0 <= i < |rows| ==> rows[i].sku == "" || rows[i].name == ""
  {
    if rows != [] {
      AcceptedRows(locations, rows[..|rows| - 1]);
      var front := rows[..|rows| - 1];
      assert forall i :: 0 <= i < |front| ==> front[i] == rows[i];
    }
  }

  /** `handleFileUpload`: the accepted rows are merged by SKU; existing
      items keep their positions and SKUs, every accepted row is counted as
      added or updated, and unique SKUs stay unique. */
  method Upload(items: seq<Item>, locations: seq<string>, rows: seq<ItemRow>)
    returns (r: Outcome<seq<Item>>, added: nat, updated: nat)
    ensures !r.Alert?
    ensures r.Skip? <==> forall i :: 0 <= i < |rows| ==> rows[i].sku == "" || rows[i].name == ""
    ensures r.Commit? ==> r.value == Upserted(items, FilterMap(rows, RowParser(locations)), ItemSku)
    ensures added + updated == |FilterMap(rows, RowParser(locations))|
    ensures r.Commit? ==> |r.value| == |items| + added
    ensures r.Commit? ==> forall i :: 0 <= i < |items| ==> r.value[i].sku == items[i].sku
    ensures r.Commit? && Distinct(Map(items, ItemSku)) ==> Distinct(Map(r.value, ItemSku))
  {
    r, added, updated := UploadSheet(items, rows, RowParser(locations), ItemSku);
    AcceptedRows(locations, rows);
    if r.Commit? {
      UpsertedKeepsPositions(items, FilterMap(rows, RowParser(locations)), ItemSku);
      if Distinct(Map(items, ItemSku)) {
        UpsertedDistinct(items, FilterMap(rows, RowParser(locations)), ItemSku);
      }
    }
  }
}
