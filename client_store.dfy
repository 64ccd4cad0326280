/** The browser-side store behind every page: seven collections, the
    database status banner, the loading flag, and the sync calls the
    setters send to the server. `LoadData` is the start-up merge of the
    server snapshot; each setter replaces one collection and sends one
    named sync action. */
module ClientStore {
  import opened Common
  import opened Records
  import ServerCache

  datatype Collection = Locations | Suppliers | Items | Purchases | Competitors | CompetitorList | SalesData

  /** The action name each setter sends. */
  function ActionName(c: Collection): string
  {
    match c
    case Locations => "syncLocations"
    case Suppliers => "syncSuppliers"
    case Items => "syncItems"
    case Purchases => "syncPurchases"
    case Competitors => "syncCompetitors"
    case CompetitorList => "syncCompetitorList"
    case SalesData => "syncSalesData"
  }

  /** The snapshot field the store reads each collection from. */
  function ResponseKey(c: Collection): string
  {
    match c
    case Locations => "locations"
    case Suppliers => "suppliers"
    case Items => "items"
    case Purchases => "purchases"
    case Competitors => "competitors"
    case CompetitorList => "competitorList"
    case SalesData => "salesData"
  }

  /** Every action a setter sends is in the server's dispatch table, and
      the server files it under the very field the store loads the
      collection from; distinct setters send distinct actions. */
  lemma ActionsKnownToServer(c: Collection, d: Collection)
    ensures ServerCache.FieldFor(ActionName(c)) == Some(ResponseKey(c))
    ensures ActionName(c) == ActionName(d) ==> c == d
  {
  }

  /** A location as a sheet row. */
  datatype LocationRow = LocationRow(Name: string)

  /** `locations.map(name => ({ Name: name }))`, sent by the setter. */
  function EncodeLocations(names: seq<string>): (rows: seq<LocationRow>)
    ensures |rows| == |names|
  {
    Map(names, (n: string) => LocationRow(n))
  }

  /** `data.locations.map(l => l.Name)`, applied on load. */
  function DecodeLocations(rows: seq<LocationRow>): (names: seq<string>)
    ensures |names| == |rows|
  {
    Map(rows, (r: LocationRow) => r.Name)
  }

  /** What the store sends is what it reads back. */
  lemma DecodeEncode(names: seq<string>)
    ensures DecodeLocations(EncodeLocations(names)) == names
  {
  }

  /** And the other way round: the rows are exactly the encoded names. */
  lemma EncodeDecode(rows: seq<LocationRow>)
    ensures EncodeLocations(DecodeLocations(rows)) == rows
  {
  }

  /** A snapshot value as the server sends it: a number, or text. */
  datatype Cell = Num(value: real) | Text(text: string)

  /** A field that is either structured already or JSON text. */
  datatype Encoded<T> = Structured(value: T) | JsonText(text: string)

  /** The coercions the loader applies: `Number(…)` for integer and real
      fields, and `JSON.parse` for the two item fields, which may throw
      (`None`). */
  datatype Coercion = Coercion(toInt: Cell -> int, toReal: Cell -> real,
                               parsePrices: string -> Option<map<string, ItemPrice>>,
                               parseIds: string -> Option<seq<string>>)

  datatype RawSupplier = RawSupplier(id: string, name: string, phone: string, address: string, top: Cell)

  datatype RawItem = RawItem(sku: string, name: string, category: string, hpp: Cell,
                             prices: Encoded<map<string, ItemPrice>>, suppliers: Encoded<seq<string>>)

  datatype RawPurchase = RawPurchase(id: string, date: string, location: string, sku: string,
                                     itemName: string, qty: Cell, value: Cell, pricePerQty: Cell,
                                     supplierId: string)

  datatype RawCompetitorPrice = RawCompetitorPrice(id: string, competitorId: string, competitorName: string,
                                                   nearLocation: string, productSku: string, grade: Grade,
                                                   competitorPrice: Cell, ownPrice: Cell, hpp: Cell,
                                                   pricingIndex: Cell)

  datatype RawSale = RawSale(date: string, location: string, sku: string, qty: Cell)

  /** The snapshot; an absent field and an empty array are both `[]`. */
  datatype RawSnapshot = RawSnapshot(locations: seq<LocationRow>, suppliers: seq<RawSupplier>,
                                     items: seq<RawItem>, purchases: seq<RawPurchase>,
                                     competitors: seq<RawCompetitorPrice>,
                                     competitorList: seq<Competitor>, salesData: seq<RawSale>)

  /** What `fetchFromGoogleSheets` resolves to: `null` on any failure, or
      the reply body; `error` is `""` when the body has no truthy `error`. */
  datatype LoadResponse = NoResponse | Reply(error: string, body: RawSnapshot)

  function CoerceSupplier(r: RawSupplier, cv: Coercion): Supplier
  {
    Supplier(r.id, r.name, r.phone, r.address, cv.toInt(r.top))
  }

  function CoercePurchase(r: RawPurchase, cv: Coercion): Purchase
  {
    Purchase(r.id, r.date, r.location, r.sku, r.itemName, cv.toInt(r.qty), cv.toInt(r.value),
             cv.toReal(r.pricePerQty), r.supplierId)
  }

  function CoerceCompetitorPrice(r: RawCompetitorPrice, cv: Coercion): CompetitorPrice
  {
    CompetitorPrice(r.id, r.competitorId, r.competitorName, r.nearLocation, r.productSku, r.grade,
                    cv.toInt(r.competitorPrice), cv.toInt(r.ownPrice), cv.toInt(r.hpp),
                    cv.toReal(r.pricingIndex))
  }

  function CoerceSale(r: RawSale, cv: Coercion): SalesRecord
  {
    SalesRecord(r.date, r.location, r.sku, cv.toInt(r.qty))
  }

  function Decoded<T>(e: Encoded<T>, parse: string -> Option<T>): Option<T>
  {
    match e
    case Structured(v) => Some(v)
    case JsonText(t) => parse(t)
  }

  function CoerceSuppliers(rows: seq<RawSupplier>, cv: Coercion): seq<Supplier>
  {
    Map(rows, (r: RawSupplier) => CoerceSupplier(r, cv))
  }

  function CoercePurchases(rows: seq<RawPurchase>, cv: Coercion): seq<Purchase>
  {
    Map(rows, (r: RawPurchase) => CoercePurchase(r, cv))
  }

  function CoerceCompetitorPrices(rows: seq<RawCompetitorPrice>, cv: Coercion): seq<CompetitorPrice>
  {
    Map(rows, (r: RawCompetitorPrice) => CoerceCompetitorPrice(r, cv))
  }

  function CoerceSales(rows: seq<RawSale>, cv: Coercion): seq<SalesRecord>
  {
    Map(rows, (r: RawSale) => CoerceSale(r, cv))
  }

  /** One item: `hpp` coerced, `prices` and `suppliers` parsed when they
      arrive as text; `None` when a parse throws. */
  function DecodeItem(r: RawItem, cv: Coercion): (d: Option<Item>)
    ensures d.None? <==> Decoded(r.prices, cv.parsePrices).None? || Decoded(r.suppliers, cv.parseIds).None?
    ensures d.Some? ==> d.value.sku == r.sku && d.value.name == r.name && d.value.category == r.category
    ensures d.Some? ==> d.value.hpp == cv.toInt(r.hpp)
  {
    match (Decoded(r.prices, cv.parsePrices), Decoded(r.suppliers, cv.parseIds))
    case (Some(prices), Some(ids)) => Some(Item(r.sku, r.name, r.category, cv.toInt(r.hpp), prices, ids))
    case _ => None
  }

  /** `data.items.map(…)`: all items, or a throw as soon as one fails. */
  function DecodeItems(rows: seq<RawItem>, cv: Coercion): (r: Option<seq<Item>>)
    ensures r.Some? <==> forall i :: 0 <= i < |rows| ==> DecodeItem(rows[i], cv).Some?
    ensures r.Some? ==> |r.value| == |rows|
    ensures r.Some? ==> forall i :: 0 <= i < |rows| ==> DecodeItem(rows[i], cv) == Some(r.value[i])
  {
    if rows == [] then Some([])
    else
      var front := DecodeItems(rows[..|rows| - 1], cv);
      var last := DecodeItem(rows[|rows| - 1], cv);
      assert forall i :: 0 <= i < |rows| - 1 ==> rows[..|rows| - 1][i] == rows[i];
      if front.Some? && last.Some? then Some(front.value + [last.value]) else None
  }

  /** The seven collections. */
  datatype Collections = Collections(locations: seq<string>, suppliers: seq<Supplier>, items: seq<Item>,
                                     purchases: seq<Purchase>, competitors: seq<CompetitorPrice>,
                                     competitorList: seq<Competitor>, salesData: seq<SalesRecord>)

  const Defaults: Collections := Collections([], [], [], [], [], [], [])

  /** The collections after the start-up merge, and whether it threw. */
  datatype MergeResult = MergeResult(collections: Collections, threw: bool)

  /** The first two steps of the load chain: locations and suppliers. */
  function MergeHead(c: Collections, body: RawSnapshot, cv: Coercion): (r: Collections)
    ensures r.items == c.items && r.purchases == c.purchases && r.competitors == c.competitors
    ensures r.competitorList == c.competitorList && r.salesData == c.salesData
    ensures body.locations == [] && body.suppliers == [] ==> r == c
  {
    var c1 := if body.locations != [] then c.(locations := DecodeLocations(body.locations)) else c;
    if body.suppliers != [] then c1.(suppliers := CoerceSuppliers(body.suppliers, cv)) else c1
  }

  /** The steps after the items: purchases, competitor prices, competitor
      list and sales. */
  function MergeTail(c: Collections, body: RawSnapshot, cv: Coercion): (r: Collections)
    ensures r.locations == c.locations && r.suppliers == c.suppliers && r.items == c.items
    ensures body.purchases == [] && body.competitors == [] && body.competitorList == [] && body.salesData == [] ==> r == c
  {
    var c4 := if body.purchases != [] then c.(purchases := CoercePurchases(body.purchases, cv)) else c;
    var c5 := if body.competitors != [] then c4.(competitors := CoerceCompetitorPrices(body.competitors, cv)) else c4;
    var c6 := if body.competitorList != [] then c5.(competitorList := body.competitorList) else c5;
    if body.salesData != [] then c6.(salesData := CoerceSales(body.salesData, cv)) else c6
  }

  /** The `if (data.x && data.x.length > 0)` chain in source order. A
      failed parse while decoding items throws after the locations and
      suppliers are already replaced, so those two stay replaced. */
  function Merge(c: Collections, body: RawSnapshot, cv: Coercion): (r: MergeResult)
    ensures r.threw ==> body.items != [] && r.collections == MergeHead(c, body, cv)
    ensures !r.threw ==> body.items == [] || DecodeItems(body.items, cv).Some?
    ensures !r.threw ==> r.collections.items == if body.items == [] then c.items else DecodeItems(body.items, cv).value
  {
    var c2 := MergeHead(c, body, cv);
    var items := DecodeItems(body.items, cv);
    if body.items == [] then MergeResult(MergeTail(c2, body, cv), false)
    else if items.None? then MergeResult(c2, true)
    else MergeResult(MergeTail(c2.(items := items.value), body, cv), false)
  }

  /** The load chain throws exactly when some item fails to parse. */
  lemma MergeThrowsIffItemFails(c: Collections, body: RawSnapshot, cv: Coercion)
    ensures Merge(c, body, cv).threw <==> exists i :: 0 <= i < |body.items| && DecodeItem(body.items[i], cv).None?
  {
  }

  /** Locations and suppliers are replaced exactly when the snapshot holds
      rows for them, whatever happens to the items afterwards. */
  lemma MergeHeadReplacesIffNonEmpty(c: Collections, body: RawSnapshot, cv: Coercion)
    ensures Merge(c, body, cv).collections.locations ==
      if body.locations == [] then c.locations else DecodeLocations(body.locations)
    ensures Merge(c, body, cv).collections.suppliers ==
      if body.suppliers == [] then c.suppliers else CoerceSuppliers(body.suppliers, cv)
  {
    var c2 := MergeHead(c, body, cv);
    assert c2.locations == if body.locations == [] then c.locations else DecodeLocations(body.locations);
  }

  /** Every later collection is replaced exactly when the snapshot holds
      rows for it and the chain did not throw at the items; the competitor
      list is taken over as it is. */
  lemma MergeTailReplacesIffNonEmpty(c: Collections, body: RawSnapshot, cv: Coercion)
    ensures var m := Merge(c, body, cv);
      m.collections.items == if m.threw || body.items == [] then c.items else DecodeItems(body.items, cv).value
    ensures var m := Merge(c, body, cv);
      m.collections.purchases == if m.threw || body.purchases == [] then c.purchases
                                 else CoercePurchases(body.purchases, cv)
    ensures var m := Merge(c, body, cv);
      m.collections.competitors == if m.threw || body.competitors == [] then c.competitors
                                   else CoerceCompetitorPrices(body.competitors, cv)
    ensures var m := Merge(c, body, cv);
      m.collections.competitorList == if m.threw || body.competitorList == [] then c.competitorList
                                      else body.competitorList
    ensures var m := Merge(c, body, cv);
      m.collections.salesData == if m.threw || body.salesData == [] then c.salesData
                                 else CoerceSales(body.salesData, cv)
  {
    var c2 := MergeHead(c, body, cv);
    assert c2.items == c.items && c2.purchases == c.purchases && c2.competitors == c.competitors;
    assert c2.competitorList == c.competitorList && c2.salesData == c.salesData;
  }

  datatype DbStatus = Idle | Connecting | Connected | Error

  const ConnectingMessage: string := "Menghubungkan ke database..."
  const ConnectedMessage: string := "Database berhasil terhubung!"
  const LoadFailedMessage: string := "Gagal terhubung ke database."

  /** The body of one sync call. */
  datatype Payload = LocationRows(rows: seq<LocationRow>) | SupplierList(suppliers: seq<Supplier>)
                   | ItemList(items: seq<Item>) | PurchaseList(purchases: seq<Purchase>)
                   | CompetitorPriceList(competitors: seq<CompetitorPrice>)
                   | CompetitorEntries(competitorList: seq<Competitor>)
                   | SalesList(salesData: seq<SalesRecord>)

  datatype SyncCall = SyncCall(action: string, payload: Payload)

  class AppStore {
    var locations: seq<string>
    var suppliers: seq<Supplier>
    var items: seq<Item>
    var purchases: seq<Purchase>
    var competitors: seq<CompetitorPrice>
    var competitorList: seq<Competitor>
    var salesData: seq<SalesRecord>
    var dbStatus: DbStatus
    var dbMessage: string
    var isLoading: bool
    /** Every sync call sent so far, oldest first. */
    var outbox: seq<SyncCall>

    function Contents(): Collections
      reads this
    {
      Collections(locations, suppliers, items, purchases, competitors, competitorList, salesData)
    }

    /** The provider mounts with empty collections, idle and loading. */
    constructor ()
      ensures Contents() == Defaults
      ensures dbStatus == Idle && dbMessage == "" && isLoading && outbox == []
    {
      locations := [];
      suppliers := [];
      items := [];
      purchases := [];
      competitors := [];
      competitorList := [];
      salesData := [];
      dbStatus := Idle;
      dbMessage := "";
      isLoading := true;
      outbox := [];
    }

    /** Locations, then suppliers. */
    method ApplyHead(body: RawSnapshot, cv: Coercion)
      modifies this
      ensures Contents() == MergeHead(old(Contents()), body, cv)
      ensures dbStatus == old(dbStatus) && dbMessage == old(dbMessage)
      ensures isLoading == old(isLoading) && outbox == old(outbox)
    {
      if body.locations != [] {
        locations := DecodeLocations(body.locations);
      }
      if body.suppliers != [] {
        suppliers := CoerceSuppliers(body.suppliers, cv);
      }
    }

    /** Purchases, competitor prices, competitor list, sales. */
    method ApplyTail(body: RawSnapshot, cv: Coercion)
      modifies this
      ensures Contents() == MergeTail(old(Contents()), body, cv)
      ensures dbStatus == old(dbStatus) && dbMessage == old(dbMessage)
      ensures isLoading == old(isLoading) && outbox == old(outbox)
    {
      if body.purchases != [] {
        purchases := CoercePurchases(body.purchases, cv);
      }
      if body.competitors != [] {
        competitors := CoerceCompetitorPrices(body.competitors, cv);
      }
      if body.competitorList != [] {
        competitorList := body.competitorList;
      }
      if body.salesData != [] {
        salesData := CoerceSales(body.salesData, cv);
      }
    }

    /** The collection updates of a successful load, in source order;
        `threw` reports the failed item parse that stops the chain. */
    method ApplySnapshot(body: RawSnapshot, cv: Coercion) returns (threw: bool)
      modifies this
      ensures Contents() == Merge(old(Contents()), body, cv).collections
      ensures threw == Merge(old(Contents()), body, cv).threw
      ensures dbStatus == old(dbStatus) && dbMessage == old(dbMessage)
      ensures isLoading == old(isLoading) && outbox == old(outbox)
    {
      ApplyHead(body, cv);
      if body.items != [] {
        var decoded := DecodeItems(body.items, cv);
        if decoded.None? {
          return true;
        }
        items := decoded.value;
      }
      ApplyTail(body, cv);
      threw := false;
    }

    /** `loadData`. A `null` response matches neither branch, so the banner
        stays on "connecting". The timer that later resets a connected
        banner to idle is not modelled. */
    method LoadData(resp: LoadResponse, cv: Coercion)
      modifies this
      ensures !isLoading && outbox == old(outbox)
      ensures resp.NoResponse? ==>
        Contents() == old(Contents()) && dbStatus == Connecting && dbMessage == ConnectingMessage
      ensures resp.Reply? && resp.error != "" ==>
        Contents() == old(Contents()) && dbStatus == Error && dbMessage == resp.error
      ensures resp.Reply? && resp.error == "" ==>
        Contents() == Merge(old(Contents()), resp.body, cv).collections &&
        (Merge(old(Contents()), resp.body, cv).threw ==> dbStatus == Error && dbMessage == LoadFailedMessage) &&
        (!Merge(old(Contents()), resp.body, cv).threw ==> dbStatus == Connected && dbMessage == ConnectedMessage)
    {
      dbStatus := Connecting;
      dbMessage := ConnectingMessage;
      match resp {
        case NoResponse =>
        case Reply(error, body) =>
          if error == "" {
            dbStatus := Connected;
            dbMessage := ConnectedMessage;
            var threw := ApplySnapshot(body, cv);
            if threw {
              dbStatus := Error;
              dbMessage := LoadFailedMessage;
            }
          } else {
            dbStatus := Error;
            dbMessage := error;
          }
      }
      isLoading := false;
    }

    method SetLocations(names: seq<string>)
      modifies this
      ensures Contents() == old(Contents()).(locations := names)
      ensures outbox == old(outbox) + [SyncCall(ActionName(Locations), LocationRows(EncodeLocations(names)))]
      ensures DecodeLocations(outbox[|outbox| - 1].payload.rows) == locations
      ensures dbStatus == old(dbStatus) && dbMessage == old(dbMessage) && isLoading == old(isLoading)
    {
      locations := names;
      outbox := outbox + [SyncCall(ActionName(Locations), LocationRows(EncodeLocations(names)))];
      DecodeEncode(names);
    }

    method SetSuppliers(list: seq<Supplier>)
      modifies this
      ensures Contents() == old(Contents()).(suppliers := list)
      ensures outbox == old(outbox) + [SyncCall(ActionName(Suppliers), SupplierList(list))]
      ensures dbStatus == old(dbStatus) && dbMessage == old(dbMessage) && isLoading == old(isLoading)
    {
      suppliers := list;
      outbox := outbox + [SyncCall(ActionName(Suppliers), SupplierList(list))];
    }

    method SetItems(list: seq<Item>)
      modifies this
      ensures Contents() == old(Contents()).(items := list)
      ensures outbox == old(outbox) + [SyncCall(ActionName(Items), ItemList(list))]
      ensures dbStatus == old(dbStatus) && dbMessage == old(dbMessage) && isLoading == old(isLoading)
    {
      items := list;
      outbox := outbox + [SyncCall(ActionName(Items), ItemList(list))];
    }

    method SetPurchases(list: seq<Purchase>)
      modifies this
      ensures Contents() == old(Contents()).(purchases := list)
      ensures outbox == old(outbox) + [SyncCall(ActionName(Purchases), PurchaseList(list))]
      ensures dbStatus == old(dbStatus) && dbMessage == old(dbMessage) && isLoading == old(isLoading)
    {
      purchases := list;
      outbox := outbox + [SyncCall(ActionName(Purchases), PurchaseList(list))];
    }

    method SetCompetitors(list: seq<CompetitorPrice>)
      modifies this
      ensures Contents() == old(Contents()).(competitors := list)
      ensures outbox == old(outbox) + [SyncCall(ActionName(Competitors), CompetitorPriceList(list))]
      ensures dbStatus == old(dbStatus) && dbMessage == old(dbMessage) && isLoading == old(isLoading)
    {
      competitors := list;
      outbox := outbox + [SyncCall(ActionName(Competitors), CompetitorPriceList(list))];
    }

    method SetCompetitorList(list: seq<Competitor>)
      modifies this
      ensures Contents() == old(Contents()).(competitorList := list)
      ensures outbox == old(outbox) + [SyncCall(ActionName(CompetitorList), CompetitorEntries(list))]
      ensures dbStatus == old(dbStatus) && dbMessage == old(dbMessage) && isLoading == old(isLoading)
    {
      competitorList := list;
      outbox := outbox + [SyncCall(ActionName(CompetitorList), CompetitorEntries(list))];
    }

    method SetSalesData(list: seq<SalesRecord>)
      modifies this
      ensures Contents() == old(Contents()).(salesData := list)
      ensures outbox == old(outbox) + [SyncCall(ActionName(SalesData), SalesList(list))]
      ensures dbStatus == old(dbStatus) && dbMessage == old(dbMessage) && isLoading == old(isLoading)
    {
      salesData := list;
      outbox := outbox + [SyncCall(ActionName(SalesData), SalesList(list))];
    }
  }
}
