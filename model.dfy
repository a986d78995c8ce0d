/** The storefront's data: catalog products and cart lines. */
module Model {

  datatype Option<+T> = None | Some(value: T)

  /** A catalog product as the products API delivers it. Prices are whole rupees. */
  datatype Product = Product(
    id: string,
    name: string,
    originalPrice: nat,
    discountedPrice: Option<nat>,
    sizes: seq<string>,
    image: string)

  /** A cart line: a snapshot of the product's fields plus the chosen size and quantity.
      Lines are identified by the pair (id, size). */
  datatype CartLine = CartLine(
    id: string,
    name: string,
    originalPrice: nat,
    discountedPrice: Option<nat>,
    sizes: seq<string>,
    image: string,
    size: string,
    quantity: int)

  /** JavaScript truthiness of an optional price: a missing price and 0 are both falsy. */
  predicate HasDiscount(d: Option<nat>) {
    d.Some? && d.value != 0
  }

  /** `item._id === productId && item.size === size` */
  predicate Matches(line: CartLine, id: string, size: string) {
    line.id == id && line.size == size
  }

  /** `Math.max(a, b)` on integers. */
  function Max(a: int, b: int): (r: int)
    ensures r >= a && r >= b
    ensures r == a || r == b
  {
    if a >= b then a else b
  }
}
