/** The records the panel keeps, one datatype per entity of the client
    store, and the lookups every page shares. Rupiah amounts, quantities
    and terms of payment are integers; the two ratios (price per unit and
    pricing index) are reals. */
module Records {
  import opened Common

  datatype Supplier = Supplier(id: string, name: string, phone: string, address: string, top: int)

  datatype ItemPrice = ItemPrice(retail: int, reseller: int)

  /** `prices` is keyed by store location; `suppliers` holds supplier ids. */
  datatype Item = Item(sku: string, name: string, category: string, hpp: int,
                       prices: map<string, ItemPrice>, suppliers: seq<string>)

  datatype Purchase = Purchase(id: string, date: string, location: string, sku: string,
                               itemName: string, qty: int, value: int, pricePerQty: real,
                               supplierId: string)

  datatype Competitor = Competitor(id: string, name: string, nearLocation: string)

  datatype Grade = Retail | Reseller

  datatype CompetitorPrice = CompetitorPrice(id: string, competitorId: string, competitorName: string,
                                             nearLocation: string, productSku: string, grade: Grade,
                                             competitorPrice: int, ownPrice: int, hpp: int,
                                             pricingIndex: real)

  datatype SalesRecord = SalesRecord(date: string, location: string, sku: string, qty: int)

  /** The key of each collection: SKU, supplier id, purchase id, store id
      and competitor-price id. */
  function ItemSku(i: Item): string { i.sku }
  function SupplierId(s: Supplier): string { s.id }
  function PurchaseId(p: Purchase): string { p.id }
  function CompetitorId(c: Competitor): string { c.id }
  function CompetitorPriceId(c: CompetitorPrice): string { c.id }

  /** `items.find(i => i.sku === sku)?.name || sku`: the name of the
      first item with that SKU, or the SKU itself when there is no such
      item or its name is empty. */
  function ItemNameFor(items: seq<Item>, sku: string): (name: string)
    ensures FindFirst(items, ItemSku, sku).Some? && FindFirst(items, ItemSku, sku).value.name != "" ==>
      name == FindFirst(items, ItemSku, sku).value.name
    ensures (forall i :: 0 <= i < |items| ==> items[i].sku != sku) ==> name == sku
    ensures FindFirst(items, ItemSku, sku).Some? && FindFirst(items, ItemSku, sku).value.name == "" ==>
      name == sku
    ensures name == "" ==> sku == ""
  {
    match FindFirst(items, ItemSku, sku)
    case Some(item) => if item.name != "" then item.name else sku
    case None => sku
  }

  /** `items.find(i => i.sku === sku)?.category || fallback`: the
      category of the first item with that SKU, or the fallback when there
      is no such item or its category is empty. */
  function CategoryOr(items: seq<Item>, sku: string, fallback: string): (c: string)
    ensures FindFirst(items, ItemSku, sku).None? ==> c == fallback
    ensures FindFirst(items, ItemSku, sku).Some? && FindFirst(items, ItemSku, sku).value.category != "" ==>
      c == FindFirst(items, ItemSku, sku).value.category
    ensures FindFirst(items, ItemSku, sku).Some? && FindFirst(items, ItemSku, sku).value.category == "" ==>
      c == fallback
    ensures c == "" ==> fallback == ""
  {
    match FindFirst(items, ItemSku, sku)
    case Some(item) => if item.category != "" then item.category else fallback
    case None => fallback
  }

  /** `price[grade]`. */
  function PriceFor(p: ItemPrice, g: Grade): int
  {
    match g
    case Retail => p.retail
    case Reseller => p.reseller
  }
}
