/** The cart as an ordered list of lines, and the new lists the storefront builds from it:
    merging or appending on add, filtering on remove, clamped stepping of a line's
    quantity, and the badge count. */
module Cart {
  import opened Model

  /** No two lines share an (id, size) key. */
  ghost predicate UniqueKeys(cart: seq<CartLine>) {
    forall i, j :: 0 <= i < j < |cart| ==> !Matches(cart[j], cart[i].id, cart[i].size)
  }

  /** Every line holds at least one item. */
  ghost predicate AllPositive(cart: seq<CartLine>) {
    forall i :: 0 <= i < |cart| ==> cart[i].quantity >= 1
  }

  /** The cart's invariant: unique keys and quantities of at least 1. */
  ghost predicate Invariant(cart: seq<CartLine>) {
    UniqueKeys(cart) && AllPositive(cart)
  }

  ghost predicate Contains(cart: seq<CartLine>, id: string, size: string) {
    exists i :: 0 <= i < |cart| && Matches(cart[i], id, size)
  }

  /** `cart.find(item => item._id === id && item.size === size)`: the first matching line. */
  function FindLine(cart: seq<CartLine>, id: string, size: string): (r: Option<CartLine>)
    ensures r.None? <==> !Contains(cart, id, size)
    ensures r.Some? ==> exists k :: 0 <= k < |cart| && cart[k] == r.value && Matches(cart[k], id, size)
                                      && forall i :: 0 <= i < k ==> !Matches(cart[i], id, size)
  {
    if cart == [] then None
    else if Matches(cart[0], id, size) then Some(cart[0])
    else
      var r := FindLine(cart[1..], id, size);
      assert Contains(cart[1..], id, size) ==> Contains(cart, id, size);
      assert r.Some? ==> exists k :: 0 <= k < |cart| && cart[k] == r.value && Matches(cart[k], id, size)
                                       && forall i :: 0 <= i < k ==> !Matches(cart[i], id, size) by {
        if r.Some? {
          var k :| 0 <= k < |cart[1..]| && cart[1..][k] == r.value && Matches(cart[1..][k], id, size)
                  && forall i :: 0 <= i < k ==> !Matches(cart[1..][i], id, size);
          assert forall i :: 0 <= i < k + 1 ==> !Matches(cart[i], id, size) by {
            forall i | 0 <= i < k + 1 ensures !Matches(cart[i], id, size) {
              if i > 0 { assert cart[i] == cart[1..][i - 1]; }
            }
          }
        }
      }
      r
  }

  /** The line with `quantity` raised by qty: `{ ...item, quantity: item.quantity + qty }`. */
  function Bumped(line: CartLine, qty: int): CartLine {
    line.(quantity := line.quantity + qty)
  }

  /** The line with its quantity stepped by delta but kept at least 1. */
  function Stepped(line: CartLine, delta: int): CartLine {
    line.(quantity := Max(1, line.quantity + delta))
  }

  /** The merge branch of addToCart: every line matching (id, size) gains qty. */
  function Merged(cart: seq<CartLine>, id: string, size: string, qty: int): (r: seq<CartLine>)
    ensures |r| == |cart|
    ensures forall i :: 0 <= i < |cart| ==>
              r[i] == if Matches(cart[i], id, size) then Bumped(cart[i], qty) else cart[i]
  {
    if cart == [] then []
    else [if Matches(cart[0], id, size) then Bumped(cart[0], qty) else cart[0]]
         + Merged(cart[1..], id, size, qty)
  }

  /** The line addToCart appends: the product's fields, the chosen size and qty, with a
      falsy discounted price stored as null (`product.discountedPrice || null`). */
  function NewLine(product: Product, size: string, qty: int): (line: CartLine)
    ensures line.id == product.id && line.size == size && line.quantity == qty
    ensures line.discountedPrice == if HasDiscount(product.discountedPrice) then product.discountedPrice else None
    ensures line.originalPrice == product.originalPrice && line.name == product.name
  {
    CartLine(product.id, product.name, product.originalPrice,
             if HasDiscount(product.discountedPrice) then product.discountedPrice else None,
             product.sizes, product.image, size, qty)
  }

  /** The cart after `addToCart(product, size)` with quantity qty. */
  function Added(cart: seq<CartLine>, product: Product, size: string, qty: int): (r: seq<CartLine>)
    ensures Contains(cart, product.id, size) ==> r == Merged(cart, product.id, size, qty)
    ensures !Contains(cart, product.id, size) ==> r == cart + [NewLine(product, size, qty)]
  {
    if FindLine(cart, product.id, size).Some? then Merged(cart, product.id, size, qty)
    else cart + [NewLine(product, size, qty)]
  }

  /** `cart.filter(item => !(item._id === id && item.size === size))` */
  function Removed(cart: seq<CartLine>, id: string, size: string): (r: seq<CartLine>)
    ensures |r| <= |cart|
    ensures forall l :: l in r <==> l in cart && !Matches(l, id, size)
    ensures !Contains(cart, id, size) ==> r == cart
  {
    if cart == [] then []
    else
      var rest := Removed(cart[1..], id, size);
      assert cart == [cart[0]] + cart[1..];
      assert !Contains(cart, id, size) ==> !Contains(cart[1..], id, size) by {
        if !Contains(cart, id, size) {
          forall i | 0 <= i < |cart[1..]| ensures !Matches(cart[1..][i], id, size) {
            assert cart[1..][i] == cart[i + 1];
          }
        }
      }
      if Matches(cart[0], id, size) then rest else [cart[0]] + rest
  }

  /** `cart.map(item => matches ? { ...item, quantity: Math.max(1, item.quantity + delta) } : item)`,
      the quantity stepper of the cart views. */
  function StepQuantity(cart: seq<CartLine>, id: string, size: string, delta: int): (r: seq<CartLine>)
    ensures |r| == |cart|
    ensures forall i :: 0 <= i < |cart| ==>
              r[i] == if Matches(cart[i], id, size) then Stepped(cart[i], delta) else cart[i]
  {
    if cart == [] then []
    else [if Matches(cart[0], id, size) then Stepped(cart[0], delta) else cart[0]]
         + StepQuantity(cart[1..], id, size, delta)
  }

  /** `cart.reduce((acc, item) => acc + item.quantity, 0)`: the badge on the cart icon.
      With no negative quantity it is never negative and never less than any one line. */
  function BadgeCount(cart: seq<CartLine>): (r: int)
    ensures (forall i :: 0 <= i < |cart| ==> cart[i].quantity >= 0) ==>
              r >= 0 && forall i :: 0 <= i < |cart| ==> cart[i].quantity <= r
  {
    if cart == [] then 0 else BadgeCount(cart[..|cart| - 1]) + cart[|cart| - 1].quantity
  }

  // ---------------------------------------------------------------- add

  /** With a matching line, add raises that line by qty, adds no line, and with unique keys
      leaves every other line as it was, in place. */
  lemma AddedMergesOneLine(cart: seq<CartLine>, product: Product, size: string, qty: int, k: nat)
    requires UniqueKeys(cart)
    requires k < |cart| && Matches(cart[k], product.id, size)
    ensures var r := Added(cart, product, size, qty);
            |r| == |cart| && r[k] == Bumped(cart[k], qty)
            && forall i :: 0 <= i < |cart| && i != k ==> r[i] == cart[i]
  {
  }

  /** Without a matching line, add appends exactly one line at the end. */
  lemma AddedAppends(cart: seq<CartLine>, product: Product, size: string, qty: int)
    requires !Contains(cart, product.id, size)
    ensures var r := Added(cart, product, size, qty);
            |r| == |cart| + 1 && r[..|cart|] == cart && r[|cart|] == NewLine(product, size, qty)
  {
  }

  /** Add keeps keys unique, and with qty at least 1 keeps every quantity at least 1. */
  lemma AddedKeepsInvariant(cart: seq<CartLine>, product: Product, size: string, qty: int)
    requires Invariant(cart) && qty >= 1
    ensures Invariant(Added(cart, product, size, qty))
  {
  }

  /** Adding the same (product, size) twice to a cart without it gives one line with
      quantity q1 + q2. */
  lemma AddTwice(cart: seq<CartLine>, product: Product, size: string, q1: int, q2: int)
    requires !Contains(cart, product.id, size)
    ensures Added(Added(cart, product, size, q1), product, size, q2)
            == cart + [NewLine(product, size, q1 + q2)]
  {
    var once := Added(cart, product, size, q1);
    AddedAppends(cart, product, size, q1);
    assert Contains(once, product.id, size) by {
      assert Matches(once[|cart|], product.id, size);
    }
    var twice := Merged(once, product.id, size, q2);
    var expected := cart + [NewLine(product, size, q1 + q2)];
    forall i | 0 <= i < |expected| ensures twice[i] == expected[i] {
      if i < |cart| {
        assert once[i] == cart[i] && !Matches(cart[i], product.id, size);
      }
    }
    assert twice == expected;
  }

  // ---------------------------------------------------------------- remove

  /** Remove deletes a line with the key and keeps the others; with unique keys that is
      exactly the one matching line, the rest staying in order. */
  lemma {:induction false} RemovedDeletesOneLine(cart: seq<CartLine>, id: string, size: string, k: nat)
    requires UniqueKeys(cart)
    requires k < |cart| && Matches(cart[k], id, size)
    ensures Removed(cart, id, size) == cart[..k] + cart[k + 1..]
  {
    var tail := cart[1..];
    assert UniqueKeys(tail) by {
      forall i, j | 0 <= i < j < |tail| ensures !Matches(tail[j], tail[i].id, tail[i].size) {
        assert tail[i] == cart[i + 1] && tail[j] == cart[j + 1];
      }
    }
    if k == 0 {
      assert !Contains(tail, id, size) by {
        forall i | 0 <= i < |tail| ensures !Matches(tail[i], id, size) {
          assert tail[i] == cart[i + 1];
        }
      }
      assert cart[k + 1..] == tail;
    } else {
      assert !Matches(cart[0], id, size) by {
        assert !Matches(cart[k], cart[0].id, cart[0].size);
      }
      RemovedDeletesOneLine(tail, id, size, k - 1);
      assert cart[..k] == [cart[0]] + tail[..k - 1];
      assert cart[k + 1..] == tail[k..];
    }
  }

  /** Remove distributes over concatenation: it keeps the surviving lines in their order. */
  lemma {:induction false} RemovedAppend(a: seq<CartLine>, b: seq<CartLine>, id: string, size: string)
    ensures Removed(a + b, id, size) == Removed(a, id, size) + Removed(b, id, size)
  {
    if a != [] {
      assert (a + b)[1..] == a[1..] + b;
      RemovedAppend(a[1..], b, id, size);
    } else {
      assert a + b == b;
    }
  }

  /** Remove keeps the cart's invariant. */
  lemma {:induction false} RemovedKeepsInvariant(cart: seq<CartLine>, id: string, size: string)
    requires Invariant(cart)
    ensures Invariant(Removed(cart, id, size))
  {
    var r := Removed(cart, id, size);
    if cart != [] {
      var tail := cart[1..];
      assert Invariant(tail) by {
        forall i, j | 0 <= i < j < |tail| ensures !Matches(tail[j], tail[i].id, tail[i].size) {
          assert tail[i] == cart[i + 1] && tail[j] == cart[j + 1];
        }
        forall i | 0 <= i < |tail| ensures tail[i].quantity >= 1 {
          assert tail[i] == cart[i + 1];
        }
      }
      RemovedKeepsInvariant(tail, id, size);
      var rest := Removed(tail, id, size);
      if !Matches(cart[0], id, size) {
        assert r == [cart[0]] + rest;
        forall j | 0 < j < |r| ensures !Matches(r[j], cart[0].id, cart[0].size) {
          assert r[j] in rest;
          var p :| 0 <= p < |tail| && tail[p] == r[j];
          assert tail[p] == cart[p + 1];
        }
        forall i | 0 <= i < |r| ensures r[i].quantity >= 1 {
          assert r[i] in cart;
        }
      }
    }
  }

  // ---------------------------------------------------------------- stepping

  /** Stepping never leaves a stepped line below 1, keeps the length, and keeps every
      line's key at its position; with positive quantities it keeps the invariant. */
  lemma StepQuantityKeepsShape(cart: seq<CartLine>, id: string, size: string, delta: int)
    ensures var r := StepQuantity(cart, id, size, delta);
            |r| == |cart|
            && (forall i :: 0 <= i < |cart| ==> r[i].id == cart[i].id && r[i].size == cart[i].size)
            && (forall i :: 0 <= i < |cart| && Matches(cart[i], id, size) ==> r[i].quantity >= 1)
            && (Invariant(cart) ==> Invariant(r))
  {
  }

  /** Pressing "+" then "-" on a line of a valid cart gives back the same cart. */
  lemma StepUpThenDown(cart: seq<CartLine>, id: string, size: string)
    requires AllPositive(cart)
    ensures StepQuantity(StepQuantity(cart, id, size, 1), id, size, -1) == cart
  {
    var r := StepQuantity(StepQuantity(cart, id, size, 1), id, size, -1);
    assert forall i :: 0 <= i < |cart| ==> r[i] == cart[i];
  }

  /** Pressing "-" on a line of quantity 1 leaves the cart as it was. */
  lemma StepDownAtOne(cart: seq<CartLine>, id: string, size: string)
    requires forall i :: 0 <= i < |cart| && Matches(cart[i], id, size) ==> cart[i].quantity == 1
    ensures StepQuantity(cart, id, size, -1) == cart
  {
    var r := StepQuantity(cart, id, size, -1);
    assert forall i :: 0 <= i < |cart| ==> r[i] == cart[i];
  }

  // ---------------------------------------------------------------- badge count

  lemma {:induction false} BadgeCountAppend(a: seq<CartLine>, b: seq<CartLine>)
    ensures BadgeCount(a + b) == BadgeCount(a) + BadgeCount(b)
    decreases |b|
  {
    if b == [] {
      assert a + b == a;
    } else {
      var b' := b[..|b| - 1];
      assert (a + b)[..|a + b| - 1] == a + b';
      BadgeCountAppend(a, b');
    }
  }

  /** The badge of a cart is its first line's quantity plus the badge of the rest. */
  lemma BadgeCountCons(cart: seq<CartLine>)
    requires cart != []
    ensures BadgeCount(cart) == cart[0].quantity + BadgeCount(cart[1..])
  {
    assert cart == [cart[0]] + cart[1..];
    BadgeCountAppend([cart[0]], cart[1..]);
    assert [cart[0]][..0] == [];
  }

  /** With every line at least 1, the badge is at least the number of lines. */
  lemma {:induction false} BadgeCountAtLeastLength(cart: seq<CartLine>)
    requires AllPositive(cart)
    ensures BadgeCount(cart) >= |cart|
  {
    if cart != [] {
      BadgeCountAtLeastLength(cart[..|cart| - 1]);
    }
  }

  /** Changing one line's quantity changes the badge by the same amount. */
  lemma BadgeCountUpdate(cart: seq<CartLine>, k: nat, line: CartLine)
    requires k < |cart|
    ensures BadgeCount(cart[k := line]) == BadgeCount(cart) - cart[k].quantity + line.quantity
  {
    var u := cart[k := line];
    assert cart == cart[..k] + [cart[k]] + cart[k + 1..];
    assert u == cart[..k] + [line] + cart[k + 1..];
    BadgeCountAppend(cart[..k] + [cart[k]], cart[k + 1..]);
    BadgeCountAppend(cart[..k], [cart[k]]);
    BadgeCountAppend(cart[..k] + [line], cart[k + 1..]);
    BadgeCountAppend(cart[..k], [line]);
    assert BadgeCount([line]) == line.quantity by { assert [line][..0] == []; }
    assert BadgeCount([cart[k]]) == cart[k].quantity by { assert [cart[k]][..0] == []; }
  }

  /** On a valid cart, adding qty items raises the badge by qty, whether the line merges or
      is appended. */
  lemma AddedRaisesBadge(cart: seq<CartLine>, product: Product, size: string, qty: int)
    requires UniqueKeys(cart)
    ensures BadgeCount(Added(cart, product, size, qty)) == BadgeCount(cart) + qty
  {
    var r := Added(cart, product, size, qty);
    if Contains(cart, product.id, size) {
      var k :| 0 <= k < |cart| && Matches(cart[k], product.id, size);
      AddedMergesOneLine(cart, product, size, qty, k);
      assert r == cart[k := Bumped(cart[k], qty)];
      BadgeCountUpdate(cart, k, Bumped(cart[k], qty));
    } else {
      BadgeCountAppend(cart, [NewLine(product, size, qty)]);
      assert [NewLine(product, size, qty)][..0] == [];
    }
  }

  /** On a valid cart, removing a present line lowers the badge by that line's quantity. */
  lemma RemovedLowersBadge(cart: seq<CartLine>, id: string, size: string, k: nat)
    requires UniqueKeys(cart)
    requires k < |cart| && Matches(cart[k], id, size)
    ensures BadgeCount(Removed(cart, id, size)) == BadgeCount(cart) - cart[k].quantity
  {
    RemovedDeletesOneLine(cart, id, size, k);
    assert cart == cart[..k] + [cart[k]] + cart[k + 1..];
    BadgeCountAppend(cart[..k] + [cart[k]], cart[k + 1..]);
    BadgeCountAppend(cart[..k], [cart[k]]);
    BadgeCountAppend(cart[..k], cart[k + 1..]);
    assert BadgeCount([cart[k]]) == cart[k].quantity by { assert [cart[k]][..0] == []; }
  }
}
