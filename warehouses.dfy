/**
 * Warehouse records of the stores service: a stored warehouse carries a
 * slug, the input record for creating one does not, and the two convert
 * into each other field for field. Stock rows project onto the shapes the
 * stock maps use.
 */
module Warehouses {
  import opened Wrappers
  import Newtypes

  /** A point of the map; its coordinates are carried along, never computed with. */
  datatype GeoPoint = GeoPoint(x: real, y: real)

  /** The uuid identifiers, carried as their display text; store, product and quantity are `i32` newtypes. */
  datatype WarehouseId = WarehouseId(uuid: string)
  datatype StockId = StockId(uuid: string)

  datatype WarehouseSlug = WarehouseSlug(value: string)

  datatype Warehouse = Warehouse(
    id: WarehouseId,
    storeId: Newtypes.Id32,
    slug: WarehouseSlug,
    name: Option<string>,
    location: Option<GeoPoint>,
    administrativeAreaLevel1: Option<string>,
    administrativeAreaLevel2: Option<string>,
    country: Option<string>,
    locality: Option<string>,
    political: Option<string>,
    postalCode: Option<string>,
    route: Option<string>,
    streetNumber: Option<string>,
    address: Option<string>,
    placeId: Option<string>)

  /** A warehouse without its slug. */
  datatype WarehouseInput = WarehouseInput(
    id: WarehouseId,
    storeId: Newtypes.Id32,
    name: Option<string>,
    location: Option<GeoPoint>,
    administrativeAreaLevel1: Option<string>,
    administrativeAreaLevel2: Option<string>,
    country: Option<string>,
    locality: Option<string>,
    political: Option<string>,
    postalCode: Option<string>,
    route: Option<string>,
    streetNumber: Option<string>,
    address: Option<string>,
    placeId: Option<string>)

  /** Every optional descriptive field of an input is absent. */
  predicate Blank(i: WarehouseInput) {
    && i.name.None? && i.location.None?
    && i.administrativeAreaLevel1.None? && i.administrativeAreaLevel2.None?
    && i.country.None? && i.locality.None? && i.political.None?
    && i.postalCode.None? && i.route.None? && i.streetNumber.None?
    && i.address.None? && i.placeId.None?
  }

  /** `WarehouseInput::new`: the store, a freshly generated id, and nothing else. */
  function NewInput(storeId: Newtypes.Id32, freshId: WarehouseId): (i: WarehouseInput)
    ensures i.storeId == storeId && i.id == freshId
    ensures Blank(i)
  {
    WarehouseInput(freshId, storeId, None, None, None, None, None, None, None, None, None, None, None, None)
  }

  /** `split_slug`: the warehouse minus its slug, and the slug. */
  function SplitSlug(w: Warehouse): (r: (WarehouseInput, WarehouseSlug))
    ensures r.1 == w.slug && r.0.id == w.id && r.0.storeId == w.storeId
  {
    (WarehouseInput(
      w.id, w.storeId, w.name, w.location,
      w.administrativeAreaLevel1, w.administrativeAreaLevel2,
      w.country, w.locality, w.political, w.postalCode,
      w.route, w.streetNumber, w.address, w.placeId),
     w.slug)
  }

  /** `with_slug`: the input completed with a slug. */
  function WithSlug(i: WarehouseInput, slug: WarehouseSlug): (w: Warehouse)
    ensures w.slug == slug && w.id == i.id && w.storeId == i.storeId
  {
    Warehouse(
      i.id, i.storeId, slug, i.name, i.location,
      i.administrativeAreaLevel1, i.administrativeAreaLevel2,
      i.country, i.locality, i.political, i.postalCode,
      i.route, i.streetNumber, i.address, i.placeId)
  }

  /** Splitting a warehouse and joining the parts gives the warehouse back. */
  lemma SplitThenJoin(w: Warehouse)
    ensures WithSlug(SplitSlug(w).0, SplitSlug(w).1) == w
  {
  }

  /** Joining an input with a slug and splitting again gives both parts back. */
  lemma JoinThenSplit(i: WarehouseInput, slug: WarehouseSlug)
    ensures SplitSlug(WithSlug(i, slug)) == (i, slug)
  {
  }

  datatype Stock = Stock(id: StockId, warehouseId: WarehouseId, productId: Newtypes.Id32, quantity: Newtypes.Id32)

  datatype StockMeta = StockMeta(quantity: Newtypes.Id32)

  /** `From<Stock> for (ProductId, StockMeta)`. */
  function ProductStock(s: Stock): (r: (Newtypes.Id32, StockMeta))
    ensures r.0 == s.productId && r.1.quantity == s.quantity
  {
    (s.productId, StockMeta(s.quantity))
  }

  /** `From<Stock> for (StockId, WarehouseId, ProductId, StockMeta)`. */
  function StockRecord(s: Stock): (r: (StockId, WarehouseId, Newtypes.Id32, StockMeta))
    ensures r.0 == s.id && r.1 == s.warehouseId && r.2 == s.productId && r.3.quantity == s.quantity
  {
    (s.id, s.warehouseId, s.productId, StockMeta(s.quantity))
  }

  /** The four-part projection loses nothing: the stock row can be rebuilt from it. */
  lemma StockRecordComplete(s: Stock)
    ensures var r := StockRecord(s); Stock(r.0, r.1, r.2, r.3.quantity) == s
  {
  }
}
