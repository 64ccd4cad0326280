/** The pricing index: competitor prices observed near one of the panel's
    locations, each compared with the panel's own price for the same
    product and grade, and a summary grouped by product, location and
    grade. */
module PricingIndexPage {
  import opened Common
  import opened Text
  import opened Records
  import opened Editing
  import opened Grouping

  const MissingChoiceMessage: string := "Lokasi, Kompetitor, dan Produk harus dipilih"

  /** `'retail' | 'reseller'` as the source spells the grade. */
  function GradeName(g: Grade): string
  {
    match g
    case Retail => "retail"
    case Reseller => "reseller"
  }

  function NameOrSkuMatches(term: string): CompetitorPrice -> bool
  {
    (c: CompetitorPrice) => Matches(c.competitorName, term) || Matches(c.productSku, term)
  }

  /** The search box: records whose competitor name or SKU contains the
      term, ignoring case, in list order. */
  function Search(list: seq<CompetitorPrice>, term: string): (r: seq<CompetitorPrice>)
    ensures forall c :: c in r <==> c in list && (Matches(c.competitorName, term) || Matches(c.productSku, term))
    ensures IsSubsequence(r, list)
  {
    FilterIsSubsequence(list, NameOrSkuMatches(term));
    Filter(list, NameOrSkuMatches(term))
  }

  /** `confirmDelete`: the records with the selected id go, every other one
      stays in order; nothing happens without a selection. */
  function Delete(list: seq<CompetitorPrice>, target: string): (r: Outcome<seq<CompetitorPrice>>)
    ensures r.Commit? <==> target != ""
    ensures r.Commit? ==> forall c :: c in r.value <==> c in list && c.id != target
    ensures r.Commit? ==> IsSubsequence(r.value, list)
    ensures r.Commit? ==> forall c: CompetitorPrice :: c.id != target ==> multiset(r.value)[c] == multiset(list)[c]
  {
    if target == "" then Skip
    else
      Commit(RemoveKey(list, CompetitorPriceId, target))
  }

  /** `item?.prices[location]?.[grade] || 0`: the panel's own price of the
      first item with that SKU at that location and grade, 0 when the item
      or its price entry is missing. */
  function OwnPrice(items: seq<Item>, sku: string, location: string, grade: Grade): (p: int)
    ensures FindFirst(items, ItemSku, sku).None? ==> p == 0
    ensures FindFirst(items, ItemSku, sku).Some? && location !in FindFirst(items, ItemSku, sku).value.prices ==> p == 0
    ensures FindFirst(items, ItemSku, sku).Some? && location in FindFirst(items, ItemSku, sku).value.prices ==>
      p == PriceFor(FindFirst(items, ItemSku, sku).value.prices[location], grade)
  {
    match FindFirst(items, ItemSku, sku)
    case None => 0
    case Some(item) => if location in item.prices then PriceFor(item.prices[location], grade) else 0
  }

  /** `item?.hpp || 0`. */
  function HppOf(items: seq<Item>, sku: string): (h: int)
    ensures FindFirst(items, ItemSku, sku).None? ==> h == 0
    ensures FindFirst(items, ItemSku, sku).Some? ==> h == FindFirst(items, ItemSku, sku).value.hpp
  {
    match FindFirst(items, ItemSku, sku)
    case None => 0
    case Some(item) => item.hpp
  }

  /** The index is below 1 exactly when the competitor is cheaper than the
      panel, and no own price means index 0. */
  lemma IndexBelowOneIffCheaper(competitorPrice: int, ownPrice: int)
    ensures ownPrice > 0 ==> (Ratio(competitorPrice, ownPrice) < 1.0 <==> competitorPrice < ownPrice)
    ensures ownPrice > 0 ==> (Ratio(competitorPrice, ownPrice) == 1.0 <==> competitorPrice == ownPrice)
    ensures ownPrice <= 0 ==> Ratio(competitorPrice, ownPrice) == 0.0
  {
    if ownPrice > 0 {
      ScaledCompare(Ratio(competitorPrice, ownPrice), ownPrice as real, competitorPrice as real);
    }
  }

  /** A factor times a positive amount is below, at or above the amount
      as the factor is below, at or above 1. */
  lemma ScaledCompare(r: real, c: real, p: real)
    requires c > 0.0 && r * c == p
    ensures r < 1.0 <==> p < c
    ensures r == 1.0 <==> p == c
  {
    if r < 1.0 {
      MulLess(r, 1.0, c);
    } else if r > 1.0 {
      MulLess(1.0, r, c);
    }
  }

  /** The price form. */
  datatype PriceForm = PriceForm(competitorId: string, nearLocation: string, productSku: string,
                                 grade: Grade, competitorPrice: int)

  /** The record a save stores under `id`: the competitor's name at save
      time, own price, HPP and index computed from the items. */
  function FormRecord(items: seq<Item>, competitor: Competitor, form: PriceForm, id: string): (c: CompetitorPrice)
    ensures c.id == id && c.competitorId == form.competitorId && c.competitorName == competitor.name
    ensures c.nearLocation == form.nearLocation && c.productSku == form.productSku && c.grade == form.grade
    ensures c.competitorPrice == form.competitorPrice
    ensures c.ownPrice == OwnPrice(items, form.productSku, form.nearLocation, form.grade)
    ensures c.hpp == HppOf(items, form.productSku)
    ensures c.pricingIndex == Ratio(form.competitorPrice, c.ownPrice)
  {
    var own := OwnPrice(items, form.productSku, form.nearLocation, form.grade);
    CompetitorPrice(id, form.competitorId, competitor.name, form.nearLocation, form.productSku, form.grade,
                    form.competitorPrice, own, HppOf(items, form.productSku), Ratio(form.competitorPrice, own))
  }

  /** `handleSave`. `editing` is the record open in the modal, `stores` the
      competitor-store list and `now` the clock reading that names a new
      record. Without location, product or store the user is alerted; an
      unknown store id changes nothing; an edit keeps the record's id and
      replaces it in place; an add appends a record with id `COMP<now>`. */
  function Save(list: seq<CompetitorPrice>, items: seq<Item>, stores: seq<Competitor>,
                editing: Option<CompetitorPrice>, form: PriceForm, now: nat): (r: Outcome<seq<CompetitorPrice>>)
    ensures r.Alert? <==> form.nearLocation == "" || form.productSku == "" || form.competitorId == ""
    ensures r.Alert? ==> r.message == MissingChoiceMessage
    ensures r.Skip? <==> !r.Alert? && forall i :: 0 <= i < |stores| ==> stores[i].id != form.competitorId
    ensures r.Commit? && editing.None? ==>
      r.value == list + [FormRecord(items, FindFirst(stores, CompetitorId, form.competitorId).value, form,
                                    "COMP" + NatToString(now))]
    ensures r.Commit? && editing.Some? ==> |r.value| == |list|
    ensures r.Commit? && editing.Some? ==>
      forall i :: 0 <= i < |list| ==>
        r.value[i] == if list[i].id == editing.value.id
                      then FormRecord(items, FindFirst(stores, CompetitorId, form.competitorId).value, form, editing.value.id)
                      else list[i]
  {
    if form.nearLocation == "" || form.productSku == "" || form.competitorId == "" then Alert(MissingChoiceMessage)
    else match FindFirst(stores, CompetitorId, form.competitorId)
      case None => Skip
      case Some(store) =>
        match editing
        case Some(e) => Commit(ReplaceKey(list, CompetitorPriceId, e.id, FormRecord(items, store, form, e.id)))
        case None => Commit(list + [FormRecord(items, store, form, "COMP" + NatToString(now))])
  }

  /** An edit never changes the id column, so unique ids stay unique. */
  lemma EditKeepsIds(list: seq<CompetitorPrice>, items: seq<Item>, stores: seq<Competitor>,
                     editing: CompetitorPrice, form: PriceForm, now: nat)
    requires Save(list, items, stores, Some(editing), form, now).Commit?
    ensures Map(Save(list, items, stores, Some(editing), form, now).value, CompetitorPriceId) == Map(list, CompetitorPriceId)
    ensures Distinct(Map(list, CompetitorPriceId)) ==>
      Distinct(Map(Save(list, items, stores, Some(editing), form, now).value, CompetitorPriceId))
  {
    var store := FindFirst(stores, CompetitorId, form.competitorId).value;
    ReplaceKeyKeepsKeys(list, CompetitorPriceId, editing.id, FormRecord(items, store, form, editing.id));
  }

  // ----- Summary tab -----

  /** One competitor entry of a summary row. */
  datatype Entry = Entry(name: string, price: int, index: real)

  /** One summary row: product, location, grade, the own price of the
      group's first record and the group's entries. */
  datatype SummaryRow = SummaryRow(sku: string, location: string, grade: Grade, ownPrice: int, entries: seq<Entry>)

  /** The optional filters of the summary tab ("" or `None` when unset). */
  predicate Selected(c: CompetitorPrice, location: string, sku: string, grade: Option<Grade>)
  {
    (location == "" || c.nearLocation == location) && (sku == "" || c.productSku == sku)
    && (grade.None? || c.grade == grade.value)
  }

  function SelectedBy(location: string, sku: string, grade: Option<Grade>): CompetitorPrice -> bool
  {
    c => Selected(c, location, sku, grade)
  }

  /** The group key `${sku}-${location}-${grade}`. */
  function SummaryKey(c: CompetitorPrice): string
  {
    c.productSku + "-" + c.nearLocation + "-" + GradeName(c.grade)
  }

  function RowKey(row: SummaryRow): string
  {
    row.sku + "-" + row.location + "-" + GradeName(row.grade)
  }

  function EntryOf(c: CompetitorPrice): Entry
  {
    Entry(c.competitorName, c.competitorPrice, c.pricingIndex)
  }

  /** `acc[key] = {...}` for the first record of a key. */
  function OpenRow(c: CompetitorPrice): SummaryRow
  {
    SummaryRow(c.productSku, c.nearLocation, c.grade, c.ownPrice, [])
  }

  /** `acc[key].competitors.push(...)`. */
  function AddEntry(row: SummaryRow, c: CompetitorPrice): SummaryRow
  {
    row.(entries := row.entries + [EntryOf(c)])
  }

  /** `summaryData`: filter, then the reduce over the filtered records. */
  method Summary(list: seq<CompetitorPrice>, location: string, sku: string, grade: Option<Grade>)
    returns (rows: seq<SummaryRow>)
    ensures rows == Reduced(GroupBy(Filter(list, SelectedBy(location, sku, grade)), SummaryKey), OpenRow, AddEntry)
  {
    var filtered := Filter(list, SelectedBy(location, sku, grade));
    rows := ReduceByKey(filtered, SummaryKey, OpenRow, AddEntry, RowKey);
  }

  /** A group's row takes product, location, grade and own price from its
      first record and lists an entry for every record, in input order. */
  lemma {:induction false} FoldIsRow(m: seq<CompetitorPrice>)
    requires m != []
    ensures FoldGroup(m, OpenRow, AddEntry) == OpenRow(m[0]).(entries := Map(m, EntryOf))
  {
    if |m| == 1 {
      assert Map(m, EntryOf) == [EntryOf(m[0])];
    } else {
      var front := m[..|m| - 1];
      FoldIsRow(front);
      assert front[0] == m[0];
      assert Map(m, EntryOf) == Map(front, EntryOf) + [EntryOf(m[|m| - 1])];
    }
  }

  /** Each summary row belongs to one key; its fixed fields come from the
      first selected record of that key and its entries are the selected
      records of that key, in input order. */
  lemma SummaryRowContents(s: seq<CompetitorPrice>, i: nat)
    requires i < |GroupBy(s, SummaryKey)|
    ensures var g := GroupBy(s, SummaryKey)[i];
      && g.members == Filter(s, KeyIs(SummaryKey, g.key))
      && Reduced(GroupBy(s, SummaryKey), OpenRow, AddEntry)[i] == OpenRow(g.members[0]).(entries := Map(g.members, EntryOf))
  {
    GroupMembers(s, SummaryKey, i);
    FoldIsRow(GroupBy(s, SummaryKey)[i].members);
  }

  /** Number of entries over all rows. */
  function EntryCount(rows: seq<SummaryRow>): nat
  {
    if rows == [] then 0 else EntryCount(rows[..|rows| - 1]) + |rows[|rows| - 1].entries|
  }

  lemma {:induction false} EntryCountIsGroupsTotal(gs: seq<Group<CompetitorPrice>>)
    requires forall i :: 0 <= i < |gs| ==> gs[i].members != []
    ensures EntryCount(Reduced(gs, OpenRow, AddEntry)) == GroupsTotal(gs, One)
  {
    if gs != [] {
      var front := gs[..|gs| - 1];
      var last := gs[|gs| - 1].members;
      EntryCountIsGroupsTotal(front);
      assert Reduced(gs, OpenRow, AddEntry)[..|gs| - 1] == Reduced(front, OpenRow, AddEntry);
      FoldIsRow(last);
      SumOfOne(last);
    }
  }

  /** Every selected record appears in exactly one row: the entries over
      all rows number the selected records. */
  lemma SummaryCountsEveryRecord(s: seq<CompetitorPrice>)
    ensures EntryCount(Reduced(GroupBy(s, SummaryKey), OpenRow, AddEntry)) == |s|
  {
    EntryCountIsGroupsTotal(GroupBy(s, SummaryKey));
    GroupByPreservesTotal(s, SummaryKey, One);
    SumOfOne(s);
  }

  /** The key is a plain concatenation, so two different products can
      share a row: SKU "A-B" at "C" and SKU "A" at "B-C". */
  lemma SummaryKeysCanCollide()
    ensures SummaryKey(CompetitorPrice("1", "", "", "C", "A-B", Retail, 0, 0, 0, 0.0))
         == SummaryKey(CompetitorPrice("2", "", "", "B-C", "A", Retail, 0, 0, 0, 0.0))
  {
  }
}
