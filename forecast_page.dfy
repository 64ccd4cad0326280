/** The demand forecast: uploaded sales records, grouped per product and
    location (forecast tab) or per product (summary tab). Each group's
    30-day forecast is its average sale per day with a sale, times 30,
    rounded up. */
module ForecastPage {
  import opened Common
  import opened Text
  import opened Records
  import opened Sorting
  import opened Grouping

  // ----- Sales data -----

  /** One sheet row: text cells as read ("" when missing) and the QTY cell
      after `Number`, `None` standing for NaN. */
  datatype SaleRow = SaleRow(date: string, location: string, sku: string, qty: Option<int>)

  /** A row is kept when date, location and SKU are filled and QTY is a
      number other than 0. */
  predicate Complete(row: SaleRow)
  {
    row.date != "" && row.location != "" && row.sku != "" && row.qty.Some? && row.qty.value != 0
  }

  function ParseRow(row: SaleRow): (r: Option<SalesRecord>)
    ensures r.Some? <==> Complete(row)
    ensures r.Some? ==> r.value == SalesRecord(row.date, row.location, row.sku, row.qty.value)
  {
    if Complete(row) then Some(SalesRecord(row.date, row.location, row.sku, row.qty.value)) else None
  }

  lemma {:induction false} AcceptedRows(rows: seq<SaleRow>)
    ensures FilterMap(rows, ParseRow) == [] <==> forall i :: 0 <= i < |rows| ==> !Complete(rows[i])
  {
    if rows != [] {
      AcceptedRows(rows[..|rows| - 1]);
      var front := rows[..|rows| - 1];
      assert forall i :: 0 <= i < |front| ==> front[i] == rows[i];
    }
  }

  /** `handleFileUpload`: the records of the complete rows are appended
      after the existing ones in sheet order; without any, nothing
      changes. */
  method Upload(sales: seq<SalesRecord>, rows: seq<SaleRow>) returns (r: Outcome<seq<SalesRecord>>)
    ensures !r.Alert?
    ensures r.Skip? <==> forall i :: 0 <= i < |rows| ==> !Complete(rows[i])
    ensures r.Commit? ==> r.value == sales + FilterMap(rows, ParseRow)
    ensures r.Commit? ==> sales < r.value
  {
    var parsed := CollectRows(rows, ParseRow);
    AcceptedRows(rows);
    if parsed == [] {
      return Skip;
    }
    r := Commit(sales + parsed);
    assert r.value[..|sales|] == sales;
  }

  /** Every uploaded record carries a date, a location, a SKU and a QTY
      other than 0. */
  lemma UploadedRecordsComplete(rows: seq<SaleRow>, k: nat)
    requires k < |FilterMap(rows, ParseRow)|
    ensures var s := FilterMap(rows, ParseRow)[k];
      s.date != "" && s.location != "" && s.sku != "" && s.qty != 0
  {
    FilterMapSound(rows, ParseRow, k);
  }

  /** `handleClearData`: after the confirmation every sales record is
      gone; without it nothing changes. */
  function Clear(sales: seq<SalesRecord>, confirmed: bool): (r: Outcome<seq<SalesRecord>>)
    ensures r.Commit? <==> confirmed
    ensures r.Commit? ==> r.value == []
    ensures !r.Alert?
  {
    if confirmed then Commit([]) else Skip
  }

  // ----- Forecast arithmetic -----

  /** `Math.ceil`. */
  function Ceil(x: real): (r: int)
    ensures (r - 1) as real < x <= r as real
  {
    -((-x).Floor)
  }

  /** The forecast of a group: `ceil(totalQty / daysWithSales * 30)`, with
      average 0 when there is no day. */
  function Forecast30(totalQty: int, days: nat): (f: int)
    ensures days == 0 ==> f == 0
    ensures totalQty >= 0 ==> f >= 0
    ensures totalQty <= 0 ==> f <= 0
  {
    Ceil(Ratio(totalQty, days) * 30.0)
  }

  /** With at least one day, the forecast is the exact integer ceiling of
      `totalQty * 30 / days`: the least whole number of units covering 30
      average days. */
  lemma ForecastIsCeiling(totalQty: int, days: nat)
    requires days > 0
    ensures var f := Forecast30(totalQty, days);
      (f - 1) * days < totalQty * 30 <= f * days
  {
    var f := Forecast30(totalQty, days);
    var x := Ratio(totalQty, days) * 30.0;
    assert x * days as real == (totalQty * 30) as real;
    assert (f - 1) as real < x <= f as real;
    assert ((f - 1) * days) as real == (f - 1) as real * days as real;
    assert (f * days) as real == f as real * days as real;
    MulLess((f - 1) as real, x, days as real);
    MulLessEq(x, f as real, days as real);
    assert ((f - 1) * days) as real < (totalQty * 30) as real;
    assert (totalQty * 30) as real <= (f * days) as real;
  }

  /** 10, 15 and 12 units on three dates forecast 370 units. */
  lemma ForecastExample()
    ensures Forecast30(10 + 15 + 12, 3) == 370
  {
    ForecastIsCeiling(37, 3);
  }

  // ----- Grouping -----

  /** The accumulator of one group: its SKU and location (the location is
      "" in the summary, which groups by SKU alone), the running total and
      the set of dates seen. */
  datatype GroupAcc = GroupAcc(sku: string, location: string, totalQty: int, dates: set<string>)

  /** `${sku}-${location}`, the key of the forecast tab. */
  function PairKey(s: SalesRecord): string
  {
    s.sku + "-" + s.location
  }

  function PairKeyOf(a: GroupAcc): string
  {
    a.sku + "-" + a.location
  }

  function SkuKey(s: SalesRecord): string
  {
    s.sku
  }

  function SkuKeyOf(a: GroupAcc): string
  {
    a.sku
  }

  function OpenPair(s: SalesRecord): GroupAcc
  {
    GroupAcc(s.sku, s.location, 0, {})
  }

  function OpenSku(s: SalesRecord): GroupAcc
  {
    GroupAcc(s.sku, "", 0, {})
  }

  /** `acc[key].totalQty += curr.qty; acc[key].dates.add(curr.date)`. */
  function AddSale(a: GroupAcc, s: SalesRecord): GroupAcc
  {
    a.(totalQty := a.totalQty + s.qty, dates := a.dates + {s.date})
  }

  function Qty(s: SalesRecord): int
  {
    s.qty
  }

  function DatesOf(m: seq<SalesRecord>): set<string>
  {
    set s | s in m :: s.date
  }

  /** A group's accumulator holds the sum of its quantities and exactly
      its dates, whichever way the group was opened. */
  lemma {:induction false} FoldIsTotals(m: seq<SalesRecord>, open: SalesRecord -> GroupAcc)
    requires m != []
    ensures FoldGroup(m, open, AddSale).sku == open(m[0]).sku
    ensures FoldGroup(m, open, AddSale).location == open(m[0]).location
    ensures FoldGroup(m, open, AddSale).totalQty == open(m[0]).totalQty + SumOf(m, Qty)
    ensures FoldGroup(m, open, AddSale).dates == open(m[0]).dates + DatesOf(m)
  {
    if |m| == 1 {
      assert DatesOf(m) == {m[0].date};
      assert SumOf(m, Qty) == SumOf(m[..0], Qty) + m[0].qty;
    } else {
      var front, last := m[..|m| - 1], m[|m| - 1];
      FoldIsTotals(front, open);
      assert front[0] == m[0];
      assert m == front + [last];
      DatesOfSnoc(front, last);
    }
  }

  /** One more sale adds its date. */
  lemma DatesOfSnoc(front: seq<SalesRecord>, last: SalesRecord)
    ensures DatesOf(front + [last]) == DatesOf(front) + {last.date}
  {
    var m := front + [last];
    assert forall s :: s in m <==> s in front || s == last;
  }

  /** A group has at least one date, so its day count is at least 1. */
  lemma DaysAtLeastOne(m: seq<SalesRecord>, open: SalesRecord -> GroupAcc)
    requires m != []
    requires open(m[0]).dates == {}
    ensures |FoldGroup(m, open, AddSale).dates| >= 1
  {
    FoldIsTotals(m, open);
    assert m[0].date in DatesOf(m);
  }

  // ----- Forecast tab -----

  /** One row of the forecast tab. */
  datatype ForecastRow = ForecastRow(sku: string, location: string, totalQty: int, daysWithSales: nat,
                                     averagePerDay: real, forecast30Days: int)

  function ToForecastRow(a: GroupAcc): (r: ForecastRow)
    ensures r.sku == a.sku && r.location == a.location && r.totalQty == a.totalQty
    ensures r.daysWithSales == |a.dates|
    ensures r.daysWithSales > 0 ==> r.averagePerDay * r.daysWithSales as real == a.totalQty as real
    ensures r.forecast30Days == Forecast30(a.totalQty, |a.dates|)
  {
    ForecastRow(a.sku, a.location, a.totalQty, |a.dates|, Ratio(a.totalQty, |a.dates|), Forecast30(a.totalQty, |a.dates|))
  }

  predicate AtPair(s: SalesRecord, location: string, sku: string)
  {
    (location == "" || s.location == location) && (sku == "" || s.sku == sku)
  }

  function AtPairBy(location: string, sku: string): SalesRecord -> bool
  {
    s => AtPair(s, location, sku)
  }

  /** The search filter of both tabs: item name or SKU contains the term. */
  function RowMatches(items: seq<Item>, term: string): ForecastRow -> bool
  {
    (r: ForecastRow) => Matches(ItemNameFor(items, r.sku), term) || Matches(r.sku, term)
  }

  function ForecastKey(r: ForecastRow): real
  {
    r.forecast30Days as real
  }

  /** The forecast tab's groups before the search and the sort. */
  function PairGroups(sales: seq<SalesRecord>, location: string, sku: string): seq<GroupAcc>
  {
    Reduced(GroupBy(Filter(sales, AtPairBy(location, sku)), PairKey), OpenPair, AddSale)
  }

  /** `forecastData`: filter by location and SKU, reduce per product and
      location, derive each row, keep the rows matching the search, and
      sort by forecast, largest first. */
  method ForecastData(sales: seq<SalesRecord>, items: seq<Item>, location: string, sku: string, term: string)
    returns (rows: seq<ForecastRow>)
    ensures rows == SortDescBy(Filter(Map(PairGroups(sales, location, sku), ToForecastRow), RowMatches(items, term)), ForecastKey)
    ensures SortedDesc(rows, ForecastKey)
    ensures forall r :: r in rows <==> r in Map(PairGroups(sales, location, sku), ToForecastRow) && RowMatches(items, term)(r)
  {
    var filtered := Filter(sales, AtPairBy(location, sku));
    var groups := ReduceByKey(filtered, PairKey, OpenPair, AddSale, PairKeyOf);
    var all := Map(groups, ToForecastRow);
    var shown := Filter(all, RowMatches(items, term));
    rows := SortDescBy(shown, ForecastKey);
    assert forall r :: r in rows <==> r in shown by {
      forall r ensures r in rows <==> r in shown {
        assert r in rows <==> multiset(rows)[r] > 0;
        assert r in shown <==> multiset(shown)[r] > 0;
      }
    }
  }

  /** Each forecast group covers one key: its totals are the sum of the
      quantities and the set of dates of exactly the filtered records with
      that key, and it has at least one day. */
  lemma PairGroupContents(sales: seq<SalesRecord>, location: string, sku: string, i: nat)
    requires i < |GroupBy(Filter(sales, AtPairBy(location, sku)), PairKey)|
    ensures var s := Filter(sales, AtPairBy(location, sku));
      var g := GroupBy(s, PairKey)[i];
      var a := PairGroups(sales, location, sku)[i];
      && g.members == Filter(s, KeyIs(PairKey, g.key))
      && a.totalQty == SumOf(g.members, Qty)
      && a.dates == DatesOf(g.members)
      && |a.dates| >= 1
  {
    var s := Filter(sales, AtPairBy(location, sku));
    var g := GroupBy(s, PairKey)[i];
    GroupMembers(s, PairKey, i);
    FoldIsTotals(g.members, OpenPair);
    DaysAtLeastOne(g.members, OpenPair);
  }

  /** Total quantity over a list of accumulators. */
  function AccTotal(acc: seq<GroupAcc>): int
  {
    if acc == [] then 0 else AccTotal(acc[..|acc| - 1]) + acc[|acc| - 1].totalQty
  }

  lemma {:induction false} AccTotalIsGroupsTotal(gs: seq<Group<SalesRecord>>, open: SalesRecord -> GroupAcc)
    requires forall i :: 0 <= i < |gs| ==> gs[i].members != []
    requires forall s :: open(s).totalQty == 0
    ensures AccTotal(Reduced(gs, open, AddSale)) == GroupsTotal(gs, Qty)
  {
    if gs != [] {
      var front := gs[..|gs| - 1];
      AccTotalIsGroupsTotal(front, open);
      assert Reduced(gs, open, AddSale)[..|gs| - 1] == Reduced(front, open, AddSale);
      FoldIsTotals(gs[|gs| - 1].members, open);
    }
  }

  /** Every filtered record lands in exactly one forecast group: the
      groups' totals add up to the filtered records' total. */
  lemma PairGroupsPreserveTotal(sales: seq<SalesRecord>, location: string, sku: string)
    ensures AccTotal(PairGroups(sales, location, sku)) == SumOf(Filter(sales, AtPairBy(location, sku)), Qty)
  {
    var s := Filter(sales, AtPairBy(location, sku));
    AccTotalIsGroupsTotal(GroupBy(s, PairKey), OpenPair);
    GroupByPreservesTotal(s, PairKey, Qty);
  }

  // ----- Summary tab -----

  /** One row of the summary tab. */
  datatype SummaryRow = SummaryRow(sku: string, category: string, totalQty: int, daysWithSales: nat,
                                   averagePerDay: real, forecast30Days: int)

  function ToSummaryRow(items: seq<Item>): GroupAcc -> SummaryRow
  {
    (a: GroupAcc) => SummaryRow(a.sku, CategoryOr(items, a.sku, "-"), a.totalQty, |a.dates|,
                                Ratio(a.totalQty, |a.dates|), Forecast30(a.totalQty, |a.dates|))
  }

  /** The date and location filters: dates compare as strings, which for
      `YYYY-MM-DD` is calendar order; an unset bound or location keeps
      everything. */
  predicate InPeriod(s: SalesRecord, startDate: string, endDate: string, location: string)
  {
    (startDate == "" || LexLe(startDate, s.date)) && (endDate == "" || LexLe(s.date, endDate))
    && (location == "" || s.location == location)
  }

  function InPeriodBy(startDate: string, endDate: string, location: string): SalesRecord -> bool
  {
    s => InPeriod(s, startDate, endDate, location)
  }

  /** The search and category filter of the summary tab. */
  function SummaryMatches(items: seq<Item>, term: string, category: string): SummaryRow -> bool
  {
    (r: SummaryRow) => (Matches(ItemNameFor(items, r.sku), term) || Matches(r.sku, term))
                       && (category == "" || r.category == category)
  }

  function SummaryKey(r: SummaryRow): real
  {
    r.forecast30Days as real
  }

  function SkuGroups(sales: seq<SalesRecord>, startDate: string, endDate: string, location: string): seq<GroupAcc>
  {
    Reduced(GroupBy(Filter(sales, InPeriodBy(startDate, endDate, location)), SkuKey), OpenSku, AddSale)
  }

  /** `summaryData`: filter by period and location, reduce per product,
      derive each row with its category, keep the rows matching search and
      category, and sort by forecast, largest first. */
  method SummaryData(sales: seq<SalesRecord>, items: seq<Item>, startDate: string, endDate: string,
                     location: string, category: string, term: string)
    returns (rows: seq<SummaryRow>)
    ensures rows == SortDescBy(Filter(Map(SkuGroups(sales, startDate, endDate, location), ToSummaryRow(items)),
                                      SummaryMatches(items, term, category)), SummaryKey)
    ensures SortedDesc(rows, SummaryKey)
    ensures forall r :: r in rows ==> r.category != "" && (category == "" || r.category == category)
  {
    var filtered := Filter(sales, InPeriodBy(startDate, endDate, location));
    var groups := ReduceByKey(filtered, SkuKey, OpenSku, AddSale, SkuKeyOf);
    var all := Map(groups, ToSummaryRow(items));
    var shown := Filter(all, SummaryMatches(items, term, category));
    rows := SortDescBy(shown, SummaryKey);
    forall r | r in rows ensures r.category != "" && (category == "" || r.category == category) {
      assert multiset(rows)[r] > 0;
      assert r in shown;
      var k :| 0 <= k < |all| && all[k] == r;
    }
  }

  /** Each summary group covers one SKU: its totals are the sum of the
      quantities and the set of dates of exactly the records of that SKU in
      the period, and it has at least one day. */
  lemma SkuGroupContents(sales: seq<SalesRecord>, startDate: string, endDate: string, location: string, i: nat)
    requires i < |GroupBy(Filter(sales, InPeriodBy(startDate, endDate, location)), SkuKey)|
    ensures var s := Filter(sales, InPeriodBy(startDate, endDate, location));
      var g := GroupBy(s, SkuKey)[i];
      var a := SkuGroups(sales, startDate, endDate, location)[i];
      && g.members == Filter(s, KeyIs(SkuKey, g.key))
      && a.sku == g.key
      && a.totalQty == SumOf(g.members, Qty)
      && a.dates == DatesOf(g.members)
      && |a.dates| >= 1
  {
    var s := Filter(sales, InPeriodBy(startDate, endDate, location));
    var g := GroupBy(s, SkuKey)[i];
    GroupMembers(s, SkuKey, i);
    GroupByShape(s, SkuKey);
    FoldIsTotals(g.members, OpenSku);
    DaysAtLeastOne(g.members, OpenSku);
  }

  /** The summary groups' totals add up to the total of the records in the
      period. */
  lemma SkuGroupsPreserveTotal(sales: seq<SalesRecord>, startDate: string, endDate: string, location: string)
    ensures AccTotal(SkuGroups(sales, startDate, endDate, location))
         == SumOf(Filter(sales, InPeriodBy(startDate, endDate, location)), Qty)
  {
    var s := Filter(sales, InPeriodBy(startDate, endDate, location));
    AccTotalIsGroupsTotal(GroupBy(s, SkuKey), OpenSku);
    GroupByPreservesTotal(s, SkuKey, Qty);
  }
}
