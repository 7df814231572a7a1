/** Records shared by the storefront pages: catalog products, cart entries and
    the joined line items shown in the cart, the navbar and the checkout summary. */
module CartTypes {

  /** An optional value; the result of an array `find` that may match nothing. */
  datatype Option<T> = None | Some(value: T)

  /** A catalog product. The price is an exact real in major currency units
      (dollars), standing in for the JavaScript number of the source. */
  datatype Product = Product(
    id: int,
    name: string,
    price: real,
    description: string,
    image: string,
    categories: seq<string>,
    colors: seq<string>,
    rating: real,
    reviewCount: int)

  /** A cart entry as it is kept in page state and in storage. */
  datatype CartItem = CartItem(id: int, quantity: int)

  /** `Product & {quantity}`: a catalog product joined with the quantity of a
      cart entry. */
  datatype CartProduct = CartProduct(product: Product, quantity: int)
}
