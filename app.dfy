/** The application's store: the cart and the pending quantities it holds as state, and
    the three handlers that replace them. */
module App {
  import opened Model
  import opened Cart
  import opened Quantities

  class Store {
    var cart: seq<CartLine>
    var quantities: PendingMap

    /** Keys are unique, every line holds at least one item, pending quantities are clamped. */
    ghost predicate Valid()
      reads this
    {
      Cart.Invariant(cart) && Clamped(quantities)
    }

    /** A new session with an empty cart and no pending quantities. */
    constructor ()
      ensures Valid()
      ensures cart == [] && quantities == map[]
    {
      cart := [];
      quantities := map[];
    }

    /** `handleQuantityChange(productId, value)`: store value, raised to 1 if below. */
    method HandleQuantityChange(productId: string, value: Qty)
      requires Valid()
      modifies this`quantities
      ensures Valid()
      ensures quantities == SetQuantity(old(quantities), productId, value)
    {
      var v := value;
      if v.Num? && v.n < 1 {
        v := Num(1);
      }
      quantities := quantities[productId := v];
    }

    /** `addToCart(product, selectedSize)`: merge into the line with the same key, or append
        a new one, with the product's pending quantity. */
    method AddToCart(product: Product, selectedSize: string)
      requires Valid()
      modifies this`cart
      ensures Valid()
      ensures cart == Added(old(cart), product, selectedSize, QuantityFor(quantities, product.id))
    {
      var qty := QuantityFor(quantities, product.id);
      ClampedQuantityPositive(quantities, product.id);
      AddedKeepsInvariant(cart, product, selectedSize, qty);
      var existing := FindLine(cart, product.id, selectedSize);
      if existing.Some? {
        cart := Merged(cart, product.id, selectedSize, qty);
      } else {
        cart := cart + [NewLine(product, selectedSize, qty)];
      }
    }

    /** `removeFromCart(productId, size)`: drop the lines with that key. */
    method RemoveFromCart(productId: string, size: string)
      requires Valid()
      modifies this`cart
      ensures Valid()
      ensures cart == Removed(old(cart), productId, size)
    {
      RemovedKeepsInvariant(cart, productId, size);
      cart := Removed(cart, productId, size);
    }
  }

  /** A session that selects a quantity and adds the same product and size twice ends with
      one line holding both quantities, and the badge counts them. */
  method AddSameTwice(product: Product, size: string, q1: int, q2: int) returns (s: Store)
    requires q1 >= 1 && q2 >= 1
    ensures s.Valid()
    ensures s.cart == [NewLine(product, size, q1 + q2)]
    ensures BadgeCount(s.cart) == q1 + q2
  {
    s := new Store();
    s.HandleQuantityChange(product.id, Num(q1));
    s.AddToCart(product, size);
    s.HandleQuantityChange(product.id, Num(q2));
    s.AddToCart(product, size);
    AddTwice([], product, size, q1, q2);
    AddedRaisesBadge([NewLine(product, size, q1)], product, size, q2);
    assert BadgeCount([NewLine(product, size, q1)]) == q1 by {
      AddedRaisesBadge([], product, size, q1);
    }
  }
}
