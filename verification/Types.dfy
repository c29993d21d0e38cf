/** The rows and small values every part of the storefront shares. */
module StorefrontTypes {

  datatype Option<+T> = None | Some(value: T)

  datatype Result<+T, +E> = Ok(value: T) | Err(error: E)

  /** A uuid; only equality and the byte order (as a number) matter. */
  type Id = nat

  /** A live cart line: an item and a quantity, never a price. */
  datatype CartLine = CartLine(id: Id, item: Id, quantity: real)

  /** The live per-website price row of one item. */
  datatype PriceRow = PriceRow(listPrice: real, currency: string)

  /** One item's free quantity as the availability port answers it. */
  datatype ItemAvailability = ItemAvailability(item: Id, free: real)

  /** One line of the order the storefront asks selling to mint. */
  datatype OrderLine = OrderLine(item: Id, quantity: real, listPrice: real)
}
