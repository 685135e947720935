/**
 * The product attributes the advisor reads from the store, with the
 * defaults the readers apply through Python's `or` (None and 0 alike fall
 * back to the default).
 */
module Catalog {
  import opened Wrappers

  /** A row of the products table as read by `_get_article_info`. */
  datatype ProductRow = ProductRow(name: string, unitPrice: Option<real>, leadTimeDays: Option<int>)

  const DefaultUnitPrice: real := 1000.0
  const DefaultLeadTime: int := 5

  /** `x or d` for an optional integer. */
  function OrInt(x: Option<int>, d: int): int {
    if x.Some? && x.value != 0 then x.value else d
  }

  /** `x or d` for an optional float. */
  function OrReal(x: Option<real>, d: real): real {
    if x.Some? && x.value != 0.0 then x.value else d
  }

  /** The unit price used for a product: never zero, so dividing by it is safe. */
  function UnitPrice(row: ProductRow): (r: real)
    ensures r != 0.0
    ensures row.unitPrice.Some? && row.unitPrice.value != 0.0 ==> r == row.unitPrice.value
  {
    OrReal(row.unitPrice, DefaultUnitPrice)
  }

  /** The lead time used for a product: never zero, so dividing by it is safe. */
  function LeadTime(row: ProductRow): (r: int)
    ensures r != 0
    ensures row.leadTimeDays.Some? && row.leadTimeDays.value != 0 ==> r == row.leadTimeDays.value
  {
    OrInt(row.leadTimeDays, DefaultLeadTime)
  }
}
