/**
 * The product shape shared by the back end and the front end
 * (back/src/models/product.ts): every field is required by the declared
 * interface.
 */
module ProductModel {

  /** The three values `inventoryStatus` may take. */
  datatype InventoryStatus = INSTOCK | LOWSTOCK | OUTOFSTOCK

  /** A product as the interface declares it. Prices and ratings are JavaScript
      numbers; here they are exact reals. */
  datatype Product = Product(
    id: int,
    code: string,
    name: string,
    description: string,
    price: real,
    quantity: int,
    inventoryStatus: InventoryStatus,
    category: string,
    image: string,
    rating: real)
}
