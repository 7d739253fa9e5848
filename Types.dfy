/** The records the inventory screens and the cart pass around. */
module Types {
  import opened Wrappers
  import opened Json

  /** An inventory item. The id is declared a string but the item built after
      a create request carries whatever the server sent, so it is kept as a
      JSON value; the expiry date and description are passed through from the
      server unchanged, so they are JSON values too. Prices are integers. */
  datatype Item = Item(
    itemId: Json,
    name: string,
    price: int,
    qty: int,
    expiryDate: Option<Json>,
    description: Option<Json>)

  /** The fields of a new item, before it has an id (`Omit<Item, "itemId">`). */
  datatype ItemData = ItemData(
    name: string,
    price: int,
    qty: int,
    expiryDate: Option<Json>,
    description: Option<Json>)

  /** A cart line: the item and how many of it are in the cart. */
  datatype CartItem = CartItem(item: Item, cartQuantity: int)
}
