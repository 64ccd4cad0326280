/** The dashboard: purchase totals per location, the suppliers with the
    longest terms of payment, purchases per item category, the overall
    purchase total, the number of suppliers purchased from, and the
    competitor prices that undercut the panel's own. */
module DashboardPage {
  import opened Common
  import opened Records
  import opened Sorting
  import opened Grouping

  function Value(p: Purchase): int
  {
    p.value
  }

  function PurchaseQty(p: Purchase): int
  {
    p.qty
  }

  // ----- Purchases per location -----

  datatype LocationTotal = LocationTotal(name: string, total: int)

  function AtLocation(loc: string): Purchase -> bool
  {
    (p: Purchase) => p.location == loc
  }

  function LocationRow(purchases: seq<Purchase>): string -> LocationTotal
  {
    loc => LocationTotal(loc, SumOf(Filter(purchases, AtLocation(loc)), Value))
  }

  /** `purchasesByLocation`: one row per location, in location order, with
      the total value of the purchases made there. */
  function PurchasesByLocation(locations: seq<string>, purchases: seq<Purchase>): (rows: seq<LocationTotal>)
    ensures |rows| == |locations|
    ensures forall i :: 0 <= i < |locations| ==>
      rows[i].name == locations[i] && rows[i].total == SumOf(Filter(purchases, AtLocation(locations[i])), Value)
  {
    Map(locations, LocationRow(purchases))
  }

  function LocationSum(rows: seq<LocationTotal>): int
  {
    if rows == [] then 0 else LocationSum(rows[..|rows| - 1]) + rows[|rows| - 1].total
  }

  /** One purchase more adds its value to the row of its location, if
      listed, and to no other row. */
  lemma {:induction false} LocationSumStep(locations: seq<string>, purchases: seq<Purchase>, p: Purchase)
    requires Distinct(locations)
    ensures LocationSum(PurchasesByLocation(locations, purchases + [p]))
         == LocationSum(PurchasesByLocation(locations, purchases)) + (if p.location in locations then p.value else 0)
  {
    if locations != [] {
      var ls := locations[..|locations| - 1];
      var l := locations[|locations| - 1];
      assert Distinct(ls) by {
        forall i, j | 0 <= i < j < |ls| ensures ls[i] != ls[j] {
          assert ls[i] == locations[i] && ls[j] == locations[j];
        }
      }
      LocationSumStep(ls, purchases, p);
      assert PurchasesByLocation(locations, purchases + [p])[..|ls|] == PurchasesByLocation(ls, purchases + [p]);
      assert PurchasesByLocation(locations, purchases)[..|ls|] == PurchasesByLocation(ls, purchases);
      FilterAppend(purchases, [p], AtLocation(l));
      SumOfAppend(Filter(purchases, AtLocation(l)), Filter([p], AtLocation(l)), Value);
      assert SumOf(Filter([p], AtLocation(l)), Value) == if p.location == l then p.value else 0 by {
        if p.location == l {
          assert Filter([p], AtLocation(l)) == [p];
          assert SumOf([p], Value) == SumOf([p][..0], Value) + p.value;
        } else {
          assert Filter([p], AtLocation(l)) == [];
        }
      }
      assert p.location in locations <==> p.location in ls || p.location == l;
    }
  }

  /** With distinct locations and every purchase at a listed location, the
      per-location totals add up to the overall purchase total. */
  lemma {:induction false} LocationTotalsCoverAll(locations: seq<string>, purchases: seq<Purchase>)
    requires Distinct(locations)
    requires forall i :: 0 <= i < |purchases| ==> purchases[i].location in locations
    ensures LocationSum(PurchasesByLocation(locations, purchases)) == TotalPurchases(purchases)
  {
    if purchases == [] {
      NoPurchasesNoTotal(locations);
    } else {
      var front := purchases[..|purchases| - 1];
      var p := purchases[|purchases| - 1];
      assert purchases == front + [p];
      assert p.location in locations;
      LocationTotalsCoverAll(locations, front);
      LocationSumStep(locations, front, p);
    }
  }

  lemma NoPurchasesNoTotal(locations: seq<string>)
    ensures LocationSum(PurchasesByLocation(locations, [])) == 0
  {
    ZeroRows(PurchasesByLocation(locations, []));
  }

  lemma {:induction false} ZeroRows(rows: seq<LocationTotal>)
    requires forall i :: 0 <= i < |rows| ==> rows[i].total == 0
    ensures LocationSum(rows) == 0
  {
    if rows != [] {
      ZeroRows(rows[..|rows| - 1]);
    }
  }

  // ----- Suppliers by terms of payment -----

  datatype SupplierTop = SupplierTop(name: string, top: int)

  function TopKey(s: Supplier): real
  {
    s.top as real
  }

  function AsSupplierTop(s: Supplier): SupplierTop
  {
    SupplierTop(s.name, s.top)
  }

  /** `topSuppliersByTop`: a sorted copy of the supplier list, longest
      terms first, cut to five. */
  function TopSuppliers(suppliers: seq<Supplier>): (r: seq<SupplierTop>)
    ensures |r| == if |suppliers| < 5 then |suppliers| else 5
    ensures forall i, j :: 0 <= i < j < |r| ==> r[i].top >= r[j].top
    ensures forall i :: 0 <= i < |r| ==> exists s :: s in suppliers && r[i] == AsSupplierTop(s)
    ensures multiset(r) <= multiset(Map(suppliers, AsSupplierTop))
  {
    var sorted := SortDescBy(suppliers, TopKey);
    var top := Take(sorted, 5);
    TopAreListed(suppliers, top);
    TopArePicks(suppliers, top);
    Map(top, AsSupplierTop)
  }

  lemma TopAreListed(suppliers: seq<Supplier>, top: seq<Supplier>)
    requires top <= SortDescBy(suppliers, TopKey)
    ensures forall i :: 0 <= i < |top| ==> top[i] in suppliers
    ensures forall i, j :: 0 <= i < j < |top| ==> top[i].top >= top[j].top
  {
    var sorted := SortDescBy(suppliers, TopKey);
    forall i | 0 <= i < |top| ensures top[i] in suppliers {
      assert top[i] == sorted[i];
      assert sorted[i] in multiset(suppliers);
    }
    forall i, j | 0 <= i < j < |top| ensures top[i].top >= top[j].top {
      assert TopKey(sorted[i]) >= TopKey(sorted[j]);
    }
  }

  /** The rows of a prefix of the sorted list together with the rows of
      the rest are the rows of the whole supplier list. */
  lemma TopAndRest(suppliers: seq<Supplier>, n: nat)
    requires n <= |suppliers|
    ensures multiset(Map(suppliers, AsSupplierTop)) ==
      multiset(Map(SortDescBy(suppliers, TopKey)[..n], AsSupplierTop))
      + multiset(Map(SortDescBy(suppliers, TopKey)[n..], AsSupplierTop))
  {
    MapSplitPermuted(suppliers, SortDescBy(suppliers, TopKey), n, AsSupplierTop);
  }

  lemma TopArePicks(suppliers: seq<Supplier>, top: seq<Supplier>)
    requires top == Take(SortDescBy(suppliers, TopKey), 5)
    ensures multiset(Map(top, AsSupplierTop)) <= multiset(Map(suppliers, AsSupplierTop))
  {
    TopAndRest(suppliers, |top|);
    assert top == SortDescBy(suppliers, TopKey)[..|top|];
  }

  /** A supplier shown fewer times than the list holds it (in particular
      one not shown at all) has terms no longer than any supplier shown. */
  lemma TopSuppliersAreTop(suppliers: seq<Supplier>, s: Supplier)
    requires multiset(TopSuppliers(suppliers))[AsSupplierTop(s)] < multiset(Map(suppliers, AsSupplierTop))[AsSupplierTop(s)]
    ensures forall i :: 0 <= i < |TopSuppliers(suppliers)| ==> TopSuppliers(suppliers)[i].top >= s.top
  {
    var sorted := SortDescBy(suppliers, TopKey);
    var r := TopSuppliers(suppliers);
    var n := |r|;
    assert Take(sorted, 5) == sorted[..n];
    assert r == Map(sorted[..n], AsSupplierTop);
    TopAndRest(suppliers, n);
    var rest := Map(sorted[n..], AsSupplierTop);
    assert AsSupplierTop(s) in multiset(rest);
    var k :| 0 <= k < |rest| && rest[k] == AsSupplierTop(s);
    var t := sorted[n..][k];
    assert t.top == s.top;
    TakeSortedDescIsTop(suppliers, TopKey, n, t);
    forall i | 0 <= i < n ensures r[i].top >= s.top {
      assert r[i] == AsSupplierTop(sorted[i]);
    }
  }

  // ----- Purchases per category -----

  /** One entry of `categoryStats`. */
  datatype CategoryStat = CategoryStat(name: string, qty: int, value: int)

  /** The category a purchase is counted under: its item's, or
      "Uncategorized" when the SKU is unknown or the category empty. */
  function CategoryKey(items: seq<Item>): Purchase -> string
  {
    (p: Purchase) => CategoryOr(items, p.sku, "Uncategorized")
  }

  function OpenCategory(items: seq<Item>): Purchase -> CategoryStat
  {
    (p: Purchase) => CategoryStat(CategoryOr(items, p.sku, "Uncategorized"), 0, 0)
  }

  /** `categoryStats[category].qty += p.qty; ...value += p.value`. */
  function AddPurchase(st: CategoryStat, p: Purchase): CategoryStat
  {
    st.(qty := st.qty + p.qty, value := st.value + p.value)
  }

  function StatName(st: CategoryStat): string
  {
    st.name
  }

  /** The `purchases.forEach` loop that fills `categoryStats`. */
  method CategoryStats(purchases: seq<Purchase>, items: seq<Item>) returns (stats: seq<CategoryStat>)
    ensures stats == Reduced(GroupBy(purchases, CategoryKey(items)), OpenCategory(items), AddPurchase)
  {
    stats := ReduceByKey(purchases, CategoryKey(items), OpenCategory(items), AddPurchase, StatName);
  }

  /** A category's entry holds the category name and the quantity and
      value sums of its purchases. */
  lemma {:induction false} FoldIsCategorySums(items: seq<Item>, m: seq<Purchase>)
    requires m != []
    ensures FoldGroup(m, OpenCategory(items), AddPurchase)
         == CategoryStat(CategoryKey(items)(m[0]), SumOf(m, PurchaseQty), SumOf(m, Value))
  {
    if |m| > 1 {
      FoldIsCategorySums(items, m[..|m| - 1]);
      assert m[..|m| - 1][0] == m[0];
    } else {
      assert m[..0] == [];
    }
  }

  /** Each category entry covers exactly the purchases counted under that
      category; an unknown SKU is counted under "Uncategorized". */
  lemma CategoryContents(purchases: seq<Purchase>, items: seq<Item>, i: nat)
    requires i < |GroupBy(purchases, CategoryKey(items))|
    ensures var g := GroupBy(purchases, CategoryKey(items))[i];
      && g.members == Filter(purchases, KeyIs(CategoryKey(items), g.key))
      && Reduced(GroupBy(purchases, CategoryKey(items)), OpenCategory(items), AddPurchase)[i]
         == CategoryStat(g.key, SumOf(g.members, PurchaseQty), SumOf(g.members, Value))
  {
    var gs := GroupBy(purchases, CategoryKey(items));
    GroupMembers(purchases, CategoryKey(items), i);
    GroupByShape(purchases, CategoryKey(items));
    FoldIsCategorySums(items, gs[i].members);
    assert gs[i].members[0] in gs[i].members;
  }

  function StatsQty(stats: seq<CategoryStat>): int
  {
    if stats == [] then 0 else StatsQty(stats[..|stats| - 1]) + stats[|stats| - 1].qty
  }

  function StatsValue(stats: seq<CategoryStat>): int
  {
    if stats == [] then 0 else StatsValue(stats[..|stats| - 1]) + stats[|stats| - 1].value
  }

  lemma {:induction false} StatsAreGroupsTotals(items: seq<Item>, gs: seq<Group<Purchase>>)
    requires forall i :: 0 <= i < |gs| ==> gs[i].members != []
    ensures StatsQty(Reduced(gs, OpenCategory(items), AddPurchase)) == GroupsTotal(gs, PurchaseQty)
    ensures StatsValue(Reduced(gs, OpenCategory(items), AddPurchase)) == GroupsTotal(gs, Value)
  {
    if gs != [] {
      var front := gs[..|gs| - 1];
      StatsAreGroupsTotals(items, front);
      assert Reduced(gs, OpenCategory(items), AddPurchase)[..|gs| - 1] == Reduced(front, OpenCategory(items), AddPurchase);
      FoldIsCategorySums(items, gs[|gs| - 1].members);
    }
  }

  /** Every purchase is counted under exactly one category: the category
      sums add up to the overall quantity and value. */
  lemma CategorySumsCoverAll(purchases: seq<Purchase>, items: seq<Item>)
    ensures StatsQty(Reduced(GroupBy(purchases, CategoryKey(items)), OpenCategory(items), AddPurchase))
         == SumOf(purchases, PurchaseQty)
    ensures StatsValue(Reduced(GroupBy(purchases, CategoryKey(items)), OpenCategory(items), AddPurchase))
         == TotalPurchases(purchases)
  {
    StatsAreGroupsTotals(items, GroupBy(purchases, CategoryKey(items)));
    GroupByPreservesTotal(purchases, CategoryKey(items), PurchaseQty);
    GroupByPreservesTotal(purchases, CategoryKey(items), Value);
  }

  function StatQty(st: CategoryStat): real
  {
    st.qty as real
  }

  /** `categoryChartData`: the entries, largest quantity first. */
  function CategoryChart(stats: seq<CategoryStat>): (r: seq<CategoryStat>)
    ensures forall i, j :: 0 <= i < j < |r| ==> r[i].qty >= r[j].qty
    ensures multiset(r) == multiset(stats)
  {
    var r := SortDescBy(stats, StatQty);
    assert forall i, j :: 0 <= i < j < |r| ==> StatQty(r[i]) >= StatQty(r[j]);
    r
  }

  // ----- Cards -----

  /** `totalPurchases`. */
  function TotalPurchases(purchases: seq<Purchase>): (total: int)
    ensures (forall p :: p in purchases ==> p.value >= 0) ==> total >= 0
    ensures purchases == [] ==> total == 0
  {
    if forall p :: p in purchases ==> p.value >= 0 then
      SumOfNonNegative(purchases, Value);
      SumOf(purchases, Value)
    else SumOf(purchases, Value)
  }

  function PurchaseSupplier(p: Purchase): string
  {
    p.supplierId
  }

  /** The supplier ids of the purchases, as `new Set(...)` collects them. */
  function SupplierIdSet(purchases: seq<Purchase>): (ids: set<string>)
    ensures forall id :: id in ids <==> id in Map(purchases, PurchaseSupplier)
  {
    if purchases == [] then {}
    else
      var front := purchases[..|purchases| - 1];
      assert Map(purchases, PurchaseSupplier) == Map(front, PurchaseSupplier) + [purchases[|purchases| - 1].supplierId];
      SupplierIdSet(front) + {purchases[|purchases| - 1].supplierId}
  }

  /** `activeSuppliers`: the number of distinct supplier ids purchased
      from. */
  function ActiveSuppliers(purchases: seq<Purchase>): (n: nat)
    ensures n == 0 <==> purchases == []
  {
    if purchases == [] then |SupplierIdSet(purchases)|
    else
      assert Map(purchases, PurchaseSupplier)[0] in SupplierIdSet(purchases);
      |SupplierIdSet(purchases)|
  }

  /** At most one supplier per purchase, at least one when there is a
      purchase, and exactly one per purchase when no supplier is repeated. */
  lemma {:induction false} ActiveSuppliersBounds(purchases: seq<Purchase>)
    ensures ActiveSuppliers(purchases) <= |purchases|
    ensures ActiveSuppliers(purchases) == 0 <==> purchases == []
    ensures Distinct(Map(purchases, PurchaseSupplier)) ==> ActiveSuppliers(purchases) == |purchases|
  {
    if purchases != [] {
      var front := purchases[..|purchases| - 1];
      var id := purchases[|purchases| - 1].supplierId;
      ActiveSuppliersBounds(front);
      AddOne(SupplierIdSet(front), id);
      if Distinct(Map(purchases, PurchaseSupplier)) {
        DistinctFront(purchases);
      }
    }
  }

  lemma AddOne(ids: set<string>, id: string)
    ensures |ids + {id}| == if id in ids then |ids| else |ids| + 1
  {
    if id in ids {
      assert ids + {id} == ids;
    }
  }

  /** Without repeated suppliers, the earlier purchases repeat none either
      and do not name the last purchase's supplier. */
  lemma DistinctFront(purchases: seq<Purchase>)
    requires purchases != []
    requires Distinct(Map(purchases, PurchaseSupplier))
    ensures Distinct(Map(purchases[..|purchases| - 1], PurchaseSupplier))
    ensures purchases[|purchases| - 1].supplierId !in SupplierIdSet(purchases[..|purchases| - 1])
  {
    var front := purchases[..|purchases| - 1];
    var keys := Map(purchases, PurchaseSupplier);
    assert Map(front, PurchaseSupplier) == keys[..|front|];
    forall i | 0 <= i < |front| ensures Map(front, PurchaseSupplier)[i] != keys[|keys| - 1] {
      assert keys[i] != keys[|keys| - 1];
    }
  }

  // ----- Undercut prices -----

  /** One bar of the undercut-price chart: store and location, index in
      percent, product name. */
  datatype Undercut = Undercut(name: string, indexPercent: real, product: string)

  function Undercuts(c: CompetitorPrice): bool
  {
    c.pricingIndex < 1.0
  }

  /** The bar of one record: its percentage is below 100 exactly when the
      record undercuts. */
  function AsUndercut(items: seq<Item>, c: CompetitorPrice): (u: Undercut)
    ensures u.indexPercent < 100.0 <==> Undercuts(c)
    ensures u.name == c.competitorName + " - " + c.nearLocation
    ensures u.product == ItemNameFor(items, c.productSku)
  {
    Undercut(c.competitorName + " - " + c.nearLocation, c.pricingIndex * 100.0, ItemNameFor(items, c.productSku))
  }

  function ToUndercut(items: seq<Item>): CompetitorPrice -> Undercut
  {
    (c: CompetitorPrice) => AsUndercut(items, c)
  }

  function PercentKey(u: Undercut): real
  {
    u.indexPercent
  }

  /** `higherPricedItems`: the records whose index is below 1, lowest index
      first, at most ten. */
  function HigherPricedItems(competitors: seq<CompetitorPrice>, items: seq<Item>): (r: seq<Undercut>)
    ensures |r| <= 10
    ensures forall i, j :: 0 <= i < j < |r| ==> r[i].indexPercent <= r[j].indexPercent
    ensures forall i :: 0 <= i < |r| ==> r[i].indexPercent < 100.0
    ensures |r| == if |Filter(competitors, Undercuts)| < 10 then |Filter(competitors, Undercuts)| else 10
    ensures multiset(r) <= multiset(Map(Filter(competitors, Undercuts), ToUndercut(items)))
  {
    var shown := Map(Filter(competitors, Undercuts), ToUndercut(items));
    UndercutsBelowPar(competitors, items, SortAscBy(shown, PercentKey));
    LowestBars(shown);
    Take(SortAscBy(shown, PercentKey), 10)
  }

  /** The first ten bars of the ascending sort: in order, picked from the
      bars, as many as there are up to ten. */
  lemma LowestBars(shown: seq<Undercut>)
    ensures var r := Take(SortAscBy(shown, PercentKey), 10);
      (forall i, j :: 0 <= i < j < |r| ==> r[i].indexPercent <= r[j].indexPercent)
      && multiset(r) <= multiset(shown)
      && |r| == if |shown| < 10 then |shown| else 10
  {
    var sorted := SortAscBy(shown, PercentKey);
    var r := Take(sorted, 10);
    TakeSubMultiset(sorted, 10);
    forall i, j | 0 <= i < j < |r| ensures r[i].indexPercent <= r[j].indexPercent {
      assert PercentKey(sorted[i]) <= PercentKey(sorted[j]);
    }
  }

  lemma UndercutsBelowPar(competitors: seq<CompetitorPrice>, items: seq<Item>, sorted: seq<Undercut>)
    requires multiset(sorted) == multiset(Map(Filter(competitors, Undercuts), ToUndercut(items)))
    ensures forall i :: 0 <= i < |sorted| ==> sorted[i].indexPercent < 100.0
  {
    var kept := Filter(competitors, Undercuts);
    var shown := Map(kept, ToUndercut(items));
    forall i | 0 <= i < |sorted| ensures sorted[i].indexPercent < 100.0 {
      assert sorted[i] in multiset(shown);
      var k :| 0 <= k < |shown| && shown[k] == sorted[i];
      assert kept[k] in kept;
    }
  }

  /** A bar of an undercutting record shown fewer times than such records
      yield it (in particular one not shown at all) has an index no lower
      than any bar shown. */
  lemma HigherPricedAreWorst(competitors: seq<CompetitorPrice>, items: seq<Item>, u: Undercut)
    requires multiset(HigherPricedItems(competitors, items))[u] <
             multiset(Map(Filter(competitors, Undercuts), ToUndercut(items)))[u]
    ensures forall i :: 0 <= i < |HigherPricedItems(competitors, items)| ==>
      HigherPricedItems(competitors, items)[i].indexPercent <= u.indexPercent
  {
    var shown := Map(Filter(competitors, Undercuts), ToUndercut(items));
    var sorted := SortAscBy(shown, PercentKey);
    var r := HigherPricedItems(competitors, items);
    assert r == sorted[..|r|];
    PrefixSortedAscIsBottom(sorted, PercentKey, |r|, u);
  }
}
