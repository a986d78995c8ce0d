# Dressify cart and order totals, in Dafny

This project models the client-side cart of the Dressify storefront, a React front end.
It also models the order messages the storefront builds for the shop's messaging link.

- The cart is an ordered list of lines keyed by (product id, size). `addToCart` merges a
  new addition into the line with the same key, or appends a line. `removeFromCart`
  filters those lines out.
- The cart views step a line's quantity by ±1, clamped with `max(1, q + delta)`. The
  badge shows the sum of the line quantities.
- A pending-quantity map holds the quantity chosen for each product before it is added.
  Values are clamped to at least 1, and a missing entry reads as 1.
- Each cart line can be ordered with a message giving the original total, the offer total
  when the line has a discount, and a final total that prefers the offer.
- The product dialog sends its own "Pay Now" message for one product.

Files, one module each:

- `model.dfy` (`Model`): products, cart lines, `Option`, and JavaScript truthiness of a price.
- `text.dfy` (`Text`): how numbers are printed in messages (`String(n)`) and read back, and
  messages as lines joined with newlines, with `split` as the inverse.
- `cart.dfy` (`Cart`): the new cart lists the store and both cart views compute, the cart
  invariant, and the badge count.
- `quantities.dfy` (`Quantities`): the pending-quantity map.
- `app.dfy` (`App`): class `Store` with the `cart` and `quantities` fields that `App`
  holds as React state, and its three handlers as methods.
- `order.dfy` (`Order`): `handleWhatsAppOrder`. Its code is identical in `Navbar.jsx` and
  `CartModal.jsx`, so it is defined once.
- `product_modal.dfy` (`ProductModal`): the dialog's quantity buttons and `handlePayNow`.

`Navbar.jsx` (lines 9-17) and `CartModal.jsx` (lines 27-35) share the same
quantity-stepping code, character for character; it is defined once, as
`Cart.StepQuantity`. The cart dialog's `handleRemove` (`CartModal.jsx:23-25`) is the same
filter as `removeFromCart` in `App.jsx:59-61`; it is defined once, as `Cart.Removed`. The
navigation bar has no remove code of its own: its ✖ button calls the `removeFromCart` that
`App` passes down (`Navbar.jsx:124`). The rows below cite each copy against the lemma that
states its property.

Prices are natural numbers (whole rupees). Quantities are integers. JavaScript truthiness
is modelled explicitly in three places:

- A discounted price of 0 counts as "no discount" (`HasDiscount`).
- `quantities[id] || 1` reads a missing entry, NaN and 0 as 1.
- `offerTotal || originalTotal` falls back to the original total when the offer total is 0.

Three points of the code are easy to misread:

- The quantity is clamped when it is stored (`App.jsx:33`), not when it is added. A NaN
  from an empty field is stored unchanged (`NaN < 1` is false), and it reads back as 1.
- The final total is `offerTotal || originalTotal`. `Order.FinalTotal` and
  `Order.FinalTotalPrefersOffer` show it is the offer total exactly when the line has a
  discount, on every line: a zero offer total needs a zero quantity, and then the
  original total is zero as well.
- A corrupt stored cart makes `JSON.parse` throw (`App.jsx:15`); nothing falls back to an
  empty cart. Persistence is not part of this model (see below).

## Model

| member | source | states |
|---|---|---|
| `Cart.FindLine` | src/App.jsx:42 | `find` gives the first line with key (id, size); it gives none exactly when no line has that key |
| `Cart.Merged` | src/App.jsx:44-50 | same length; every line with the key has its quantity raised by qty; every other line is unchanged, at its position |
| `Cart.NewLine` | src/App.jsx:54 | the appended line carries the product's id, name and original price, the chosen size and the quantity qty; a missing or zero discounted price becomes null |
| `Cart.Added` | src/App.jsx:40-57 | with a line of the same key, the cart is the merged cart; without one, it is the old cart with exactly one new line appended at the end |
| `Cart.AddedMergesOneLine` | src/App.jsx:43-50 | on a cart with unique keys, adding a present key raises that one line by qty, adds no line, and leaves every other line unchanged and in order |
| `Cart.AddedAppends` | src/App.jsx:51-55 | adding an absent key keeps the old lines as a prefix and ends with the new line |
| `Cart.AddedKeepsInvariant` | src/App.jsx:40-57 | adding with qty ≥ 1 to a cart with unique keys and positive quantities keeps both properties |
| `Cart.AddTwice` | src/App.jsx:40-57 | adding the same (product, size) twice, with q1 and then q2, to a cart without that key gives one new line with quantity q1 + q2 |
| `Cart.AddedRaisesBadge` | src/App.jsx:40-57 | on a cart with unique keys, adding qty items raises the badge count by qty, whether the line merges or is appended |
| `Cart.Removed` | src/App.jsx:59-61 | only lines without the key survive, and every such line survives; the cart never grows; removing a key that is not present leaves the cart unchanged |
| `Cart.RemovedDeletesOneLine` | src/components/CartModal.jsx:23-25 | on a cart with unique keys, removing the key of line k gives exactly the lines before k followed by the lines after k |
| `Cart.RemovedAppend` | src/App.jsx:60 | removal distributes over concatenation, so the surviving lines keep their relative order |
| `Cart.RemovedKeepsInvariant` | src/App.jsx:59-61 | removing keeps unique keys and positive quantities |
| `Cart.RemovedLowersBadge` | src/App.jsx:59-61 | on a cart with unique keys, removing a present line lowers the badge count by that line's quantity |
| `Cart.StepQuantity` | src/components/Navbar.jsx:9-17 | same length; every line with the key gets quantity `max(1, q + delta)`; every other line is unchanged, at its position |
| `Cart.StepQuantityKeepsShape` | src/components/CartModal.jsx:27-35 | stepping keeps the length and each position's key, never leaves a stepped line below 1, and keeps the cart invariant |
| `Cart.StepUpThenDown` | src/components/Navbar.jsx:10-16 | on a cart with positive quantities, pressing "+" and then "-" on a line gives back the same cart |
| `Cart.StepDownAtOne` | src/components/CartModal.jsx:31 | pressing "-" on a line of quantity 1 leaves the cart unchanged |
| `Cart.BadgeCount` | src/components/Navbar.jsx:60 | with no negative quantity, the badge is never negative and never less than the quantity of any one line |
| `Cart.BadgeCountAppend` | src/components/Navbar.jsx:60 | the badge count of two carts put together is the sum of their badge counts |
| `Cart.BadgeCountCons` | src/components/Navbar.jsx:60 | the left-to-right `reduce` equals the first line's quantity plus the count of the rest |
| `Cart.BadgeCountAtLeastLength` | src/components/Navbar.jsx:60 | with every quantity at least 1, the badge is at least the number of lines |
| `Cart.BadgeCountUpdate` | src/components/Navbar.jsx:60 | replacing one line changes the badge by the difference of the two quantities |
| `Quantities.Clamp` | src/App.jsx:33 | a number below 1 becomes 1, a number of at least 1 is kept, and NaN passes through unchanged |
| `Quantities.SetQuantity` | src/App.jsx:32-35 | the product's entry becomes `max(1, value)`, or NaN when NaN is passed; the key set gains only that id; every other entry is unchanged |
| `Quantities.QuantityFor` | src/components/ProductModal.jsx:6 | the quantity read is never 0; a missing entry, NaN and 0 all read as 1; any other number reads as itself |
| `Quantities.ClampedQuantityPositive` | src/App.jsx:41 | from a clamped map, the quantity `addToCart` uses is at least 1 |
| `Quantities.SetQuantityKeepsClamped` | src/App.jsx:33-34 | storing any value, NaN included, keeps every stored number at least 1 |
| `Quantities.ReadAfterSet` | src/App.jsx:32-35 | reading back a stored value gives `max(1, value)`, or 1 for NaN; storing under one product leaves what every other product reads unchanged |
| `App.Store.constructor` | src/App.jsx:13-18 | a new session starts with an empty cart and an empty quantity map, which satisfy the store invariant |
| `App.Store.HandleQuantityChange` | src/App.jsx:32-35 | the new map is the old one with the clamped value stored under the product id; the cart is untouched; the invariant is kept |
| `App.Store.AddToCart` | src/App.jsx:40-57 | the new cart is `Added` of the old cart with the product's pending quantity; the map is untouched; the invariant is kept |
| `App.Store.RemoveFromCart` | src/App.jsx:59-61 | the new cart is `Removed` of the old cart; the invariant is kept |
| `App.AddSameTwice` | src/App.jsx:32-57 | a session that stores q1, adds, stores q2 and adds the same product and size ends with one line of quantity q1 + q2 and a badge of q1 + q2 |
| `Order.OriginalTotal` | src/components/Navbar.jsx:20 | with a quantity of at least 0 the original total is not negative; with at least 1 it is at least the original price |
| `Order.OfferTotal` | src/components/Navbar.jsx:21 | there is an offer total exactly when the line has a truthy discounted price, and it is `discountedPrice * quantity` |
| `Order.FinalTotal` | src/components/Navbar.jsx:29 | the or-default of the offer total and the original total is the offer total whenever there is one and the original total otherwise: the fallback on a zero offer total never changes the amount |
| `Order.FinalTotalPrefersOffer` | src/components/Navbar.jsx:29 | on every line, the final total is `discountedPrice * quantity` when there is a discount, else `originalPrice * quantity` |
| `Order.FinalTotalAtMostOriginal` | src/components/CartModal.jsx:8-17 | when the quantity is not negative and the discounted price is at most the original price, the final total is at most the original total |
| `Order.OrderLines` | src/components/Navbar.jsx:23-29 | the message has 8 lines with a discount and 7 without: the header, a blank line, the name, the size, the quantity, the price line, and the total line last |
| `Order.OrderMessage` | src/components/CartModal.jsx:11-17 | the message text starts with the header and a newline and ends with the total line |
| `Order.OfferLineIffDiscount` | src/components/Navbar.jsx:23-29 | the "Offer Price" line stands before the total exactly when the line has a discount; the total line is last; the size line reads "N/A" for an empty size |
| `Order.MessageSplitsIntoLines` | src/components/CartModal.jsx:11-17 | when the name and size hold no newline, the message text splits back into exactly those lines |
| `Order.DressExample` | src/components/CartModal.jsx:8-9 | 2 × "Dress A" at 1000, offered at 800, has original total 2000, offer total 1600 and the total line "*Total: ₹1600*" |
| `Model.Max` | src/components/Navbar.jsx:13 | `Math.max(a, b)`: the result is at least both arguments and is one of them |
| `Text.IntToString` | src/components/Navbar.jsx:23 | `${n}` is a nonempty text that starts with "-" exactly when n is negative (its inverse is stated by `Text.ParseIntToString`) |
| `Text.NatToString` | src/components/Navbar.jsx:23 | a printed count is a nonempty run of decimal digits with no leading zero |
| `Text.ParseIntToString` | src/components/Navbar.jsx:23 | every integer printed into a message reads back as the same integer |
| `Text.IntToStringInjective` | src/components/Navbar.jsx:26 | different amounts print as different text |
| `Text.NumbersHaveNoNewline` | src/components/Navbar.jsx:29 | a printed number never contains a newline |
| `Text.SplitJoin` | src/components/Navbar.jsx:23-29 | lines without their own newlines, once joined with newlines, split back into the same lines |
| `Text.JoinStartsWithFirst` | src/components/Navbar.jsx:23 | a message of two or more lines starts with its first line and a newline |
| `Text.JoinEndsWithLast` | src/components/Navbar.jsx:29 | a message built from its lines ends with its last line |
| `Text.OrElse` | src/components/ProductModal.jsx:16 | JavaScript's or-default on strings: an empty size shows the fallback ("Not Selected" here, "N/A" in the cart views); any other size shows as itself |
| `ProductModal.PayNowTotal` | src/components/ProductModal.jsx:21-26 | without a discount the total is `originalPrice * quantity`; it is not negative for a quantity that is not; with a discounted price at most the original it is at most `originalPrice * quantity` |
| `ProductModal.PayNowLinesWith` | src/components/ProductModal.jsx:13-27 | the message has 9 lines with a discount and 7 without; it starts with the header and names the product, size and quantity; its last line quotes the total |
| `ProductModal.PayNowLinesAsWritten` | src/components/ProductModal.jsx:18 | as written, the image line is the address followed by the comment text |
| `ProductModal.PayNowLines` | src/components/ProductModal.jsx:13-19 | the corrected image line is the image address alone |
| `ProductModal.PayNowMessageAsWritten` | src/components/ProductModal.jsx:13-27 | the message as written, for the quantity the dialog shows, starts with the header and a newline and ends with the total line |
| `ProductModal.PayNowMessage` | src/components/ProductModal.jsx:13-27 | the corrected message, for the quantity the dialog shows, starts with the header and a newline and ends with the total line |
| `ProductModal.AsWrittenSplitsIntoLines` | src/components/ProductModal.jsx:13-27 | when the name, size and image hold no newline, the message as written splits back into exactly its lines |
| `ProductModal.MessageSplitsIntoLines` | src/components/ProductModal.jsx:13-27 | when the name, size and image hold no newline, the corrected message splits back into exactly its lines |
| `ProductModal.MessageLeaksComment` | src/components/ProductModal.jsx:18 | read back line by line, the message as written carries the comment on its sixth line and the corrected one the image address alone; the two messages differ |
| `ProductModal.AsWrittenLeaksComment` | src/components/ProductModal.jsx:18 | for every product, the message as written differs from the corrected one in its image line |
| `ProductModal.PayNowIgnoresPercentWithoutDiscount` | src/components/ProductModal.jsx:7-9 | without a discount, the lines do not depend on the percentage, whatever the image line (so for the message as written and the corrected one) |
| `ProductModal.PayNowDiscountLines` | src/components/ProductModal.jsx:21-24 | with a discount, whatever the image line, the message quotes the original price, the offer price with its percentage, and a total of `discountedPrice * quantity` |
| `ProductModal.PayNowTotalMatchesCart` | src/components/ProductModal.jsx:21-26 | for every quantity, the dialog's total equals the final total of the cart line the product becomes |
| `ProductModal.ButtonRequest` | src/components/ProductModal.jsx:77-79 | the buttons request a number: `1 + delta` when nothing is stored, and at least `1 + delta` from a clamped map |
| `ProductModal.ButtonsAfterClamp` | src/components/ProductModal.jsx:77-79 | from a clamped map, the shown quantity is ≥ 1; after App's clamp, "-" leaves `max(1, q - 1)` and "+" leaves `q + 1`; the map stays clamped |

## Findings

| source | as written | input that shows it | evidently intended | confidence | as-written member | corrected member |
|---|---|---|---|---|---|---|
| src/components/ProductModal.jsx:18 | the comment `// Use full Cloudinary URL directly` is inside the template string, so the message's image line is `Image: <url>  // Use full Cloudinary URL directly` | any product, e.g. image `a.jpg`: line 6 of the message is `Image: a.jpg  // Use full Cloudinary URL directly` (`ProductModal.AsWrittenLeaksComment`; for the joined message text, `ProductModal.MessageLeaksComment`) | `Image: a.jpg` | high (not executed) | `ProductModal.PayNowLinesAsWritten` | `ProductModal.PayNowLines` |

## Left out

- Persistence: the cart is saved to and loaded from the browser's storage with
  `JSON.stringify`/`JSON.parse` (`App.jsx:13-16`, `22-24`). These are foreign calls, so
  `App.Store.constructor` starts from an empty cart. A corrupt stored cart makes
  `JSON.parse` throw; that path is not modelled.
- `App.Store.constructor`: does not model a cart rehydrated from storage, because of the
  persistence line above.
- The messaging link: `encodeURIComponent`, the fixed phone number and `window.open`
  are foreign. The model stops at the message text: `Order.OrderMessage`, and
  `ProductModal.PayNowMessageAsWritten` for the dialog as the code builds it.
  `ProductModal.PayNowMessage` is the corrected dialog message (see Findings).
- `ProductModal.PayNowLinesWith`: takes `percentOff` as a parameter. `Math.round((1 - d/o) * 100)`
  is floating-point arithmetic. Its no-discount value 0 is never shown;
  `ProductModal.PayNowIgnoresPercentWithoutDiscount` states that.
- `setCart` calls from the navigation bar and the cart dialog are not `Store` methods:
  `setCart` accepts any value. The values these views pass are `Cart.StepQuantity` and
  `Cart.Removed` of the current cart. Lemmas show both keep the cart invariant.
- React specifics: rendering, the price labels in the cart lists, `useEffect`, timers and
  animation. The read of the rendered `cart` in `addToCart` (`App.jsx:42`), as opposed to
  the `prev` value its updater receives, is not modelled; operations run one after another.
- The size buttons (`ProductModal.jsx:60-72`) only choose the `selectedSize` that is then
  passed to `addToCart` and the message; the selected size is a parameter.
- Numbers: prices are whole non-negative rupees; fractional or negative prices from the
  products API are not modelled. Integers are unbounded; JavaScript numbers are exact only
  up to 2^53, which shop quantities and prices do not reach.
- Other components: the admin panel's HTTP create, update and delete calls, the product
  list fetch, the login check with fixed credentials, the splash screen, and the product
  card's floating-point percentage. They are I/O, UI gating or rendering.
