/** The product dialog: the quantity it shows and orders, the quantity buttons, and the
    "Pay Now" message for one product. */
module ProductModal {
  import opened Model
  import opened Text
  import opened Quantities
  import Cart
  import Order

  /** The text that follows the image address in the message as written: a code comment
      that sits inside the template string. */
  const ImageComment: string := "  // Use full Cloudinary URL directly"

  /** The total the message quotes: the discounted price times the quantity when the product
      has a discount, the original price times the quantity otherwise. */
  function PayNowTotal(product: Product, quantity: int): (r: int)
    ensures !HasDiscount(product.discountedPrice) ==> r == product.originalPrice * quantity
    ensures quantity >= 0 ==> r >= 0
    ensures quantity >= 0 && HasDiscount(product.discountedPrice)
            && product.discountedPrice.value <= product.originalPrice
            ==> r <= product.originalPrice * quantity
  {
    if HasDiscount(product.discountedPrice) then product.discountedPrice.value * quantity
    else product.originalPrice * quantity
  }

  /** The message lines, with imageLine as the sixth line. The percentage is passed in:
      it is computed in floating point. */
  function PayNowLinesWith(product: Product, selectedSize: string, quantity: int, percentOff: int,
                           imageLine: string): (lines: seq<string>)
    ensures |lines| == if HasDiscount(product.discountedPrice) then 9 else 7
    ensures lines[2] == "Product: " + product.name
    ensures lines[3] == "Size: " + OrElse(selectedSize, "Not Selected")
    ensures lines[4] == "Quantity: " + IntToString(quantity)
    ensures lines[5] == imageLine
    ensures lines[0] == Header
    ensures lines[|lines| - 1] == TotalLine(product, quantity)
  {
    [Header, "-------------------",
     "Product: " + product.name,
     "Size: " + OrElse(selectedSize, "Not Selected"),
     "Quantity: " + IntToString(quantity),
     imageLine]
    + if HasDiscount(product.discountedPrice) then
        ["Original Price: " + Order.Rupee + NatToString(product.originalPrice),
         "Offer Price: " + Order.Rupee + NatToString(product.discountedPrice.value)
         + " (" + IntToString(percentOff) + "% OFF)",
         TotalLine(product, quantity)]
      else
        [TotalLine(product, quantity)]
  }

  /** `handlePayNow` as written: the image line carries the comment text. */
  function PayNowLinesAsWritten(product: Product, selectedSize: string, quantity: int, percentOff: int): (lines: seq<string>)
    ensures |lines| >= 7 && lines[5] == "Image: " + product.image + ImageComment
  {
    PayNowLinesWith(product, selectedSize, quantity, percentOff, "Image: " + product.image + ImageComment)
  }

  /** `handlePayNow` as intended: the image line is the image address alone. */
  function PayNowLines(product: Product, selectedSize: string, quantity: int, percentOff: int): (lines: seq<string>)
    ensures |lines| >= 7 && lines[5] == "Image: " + product.image
  {
    PayNowLinesWith(product, selectedSize, quantity, percentOff, "Image: " + product.image)
  }

  /** The header line of the message. */
  const Header: string := "\U{1F6D2} Order Details"

  /** The line that closes the message: the total, with its label. */
  function TotalLine(product: Product, quantity: int): string {
    (if HasDiscount(product.discountedPrice) then "Total Price: " else "Price: ")
    + Order.Rupee + IntToString(PayNowTotal(product, quantity))
  }

  /** The message `handlePayNow` opens the chat with, as written, for the dialog's product
      and the quantity it displays. */
  function PayNowMessageAsWritten(product: Product, selectedSize: string, quantities: PendingMap,
                                  percentOff: int): (message: string)
    ensures StartsWith(message, Header + "\n")
    ensures EndsWith(message, TotalLine(product, QuantityFor(quantities, product.id)))
  {
    var lines := PayNowLinesAsWritten(product, selectedSize, QuantityFor(quantities, product.id), percentOff);
    JoinStartsWithFirst(lines);
    JoinEndsWithLast(lines);
    Join(lines)
  }

  /** The corrected message: the same lines with the image address alone on its line. */
  function PayNowMessage(product: Product, selectedSize: string, quantities: PendingMap,
                         percentOff: int): (message: string)
    ensures StartsWith(message, Header + "\n")
    ensures EndsWith(message, TotalLine(product, QuantityFor(quantities, product.id)))
  {
    var lines := PayNowLines(product, selectedSize, QuantityFor(quantities, product.id), percentOff);
    JoinStartsWithFirst(lines);
    JoinEndsWithLast(lines);
    Join(lines)
  }

  /** The "-" and "+" buttons: `onQuantityChange(product._id, quantity + delta)`. The request
      is a number; with nothing stored it is `1 + delta`, and with stored quantities of at least
      1 it is at least `1 + delta`. */
  function ButtonRequest(quantities: PendingMap, id: string, delta: int): (r: Qty)
    ensures r.Num?
    ensures Clamped(quantities) ==> r.n >= 1 + delta
    ensures id !in quantities ==> r == Num(1 + delta)
  {
    Num(QuantityFor(quantities, id) + delta)
  }

  // ---------------------------------------------------------------- lemmas

  /** The comment leaks into the message as written, for every product: its image line is
      not the image address, while the corrected message's is. */
  lemma AsWrittenLeaksComment(product: Product, selectedSize: string, quantity: int, percentOff: int)
    ensures PayNowLinesAsWritten(product, selectedSize, quantity, percentOff)[5]
            == "Image: " + product.image + ImageComment
    ensures PayNowLines(product, selectedSize, quantity, percentOff)[5] == "Image: " + product.image
    ensures PayNowLinesAsWritten(product, selectedSize, quantity, percentOff)
            != PayNowLines(product, selectedSize, quantity, percentOff)
  {
  }

  /** Without a discount the message quotes no percentage, so it does not depend on it,
      whatever the image line is. */
  lemma PayNowIgnoresPercentWithoutDiscount(product: Product, selectedSize: string, quantity: int,
                                            p1: int, p2: int, imageLine: string)
    requires !HasDiscount(product.discountedPrice)
    ensures PayNowLinesWith(product, selectedSize, quantity, p1, imageLine)
            == PayNowLinesWith(product, selectedSize, quantity, p2, imageLine)
  {
  }

  /** With a discount the message quotes the original price, the offer price with its
      percentage, and the total, whatever the image line is. */
  lemma PayNowDiscountLines(product: Product, selectedSize: string, quantity: int, percentOff: int,
                            imageLine: string)
    requires HasDiscount(product.discountedPrice)
    ensures var lines := PayNowLinesWith(product, selectedSize, quantity, percentOff, imageLine);
            && lines[6] == "Original Price: " + Order.Rupee + NatToString(product.originalPrice)
            && lines[7] == "Offer Price: " + Order.Rupee + NatToString(product.discountedPrice.value)
                           + " (" + IntToString(percentOff) + "% OFF)"
            && lines[8] == "Total Price: " + Order.Rupee + IntToString(product.discountedPrice.value * quantity)
  {
  }

  /** No line of the message holds a newline of its own when the name, the size and the
      image line hold none. */
  lemma LinesHaveNoNewline(product: Product, selectedSize: string, quantity: int, percentOff: int,
                           imageLine: string)
    requires NoNewline(product.name) && NoNewline(selectedSize) && NoNewline(imageLine)
    ensures var lines := PayNowLinesWith(product, selectedSize, quantity, percentOff, imageLine);
            forall k :: 0 <= k < |lines| ==> NoNewline(lines[k])
  {
    var lines := PayNowLinesWith(product, selectedSize, quantity, percentOff, imageLine);
    HeadHasNoNewline(product, selectedSize, quantity, percentOff, imageLine);
    TotalHasNoNewline(product, quantity);
    if HasDiscount(product.discountedPrice) {
      PricesHaveNoNewline(product, percentOff);
    }
  }

  lemma HeadHasNoNewline(product: Product, selectedSize: string, quantity: int, percentOff: int,
                         imageLine: string)
    requires NoNewline(product.name) && NoNewline(selectedSize) && NoNewline(imageLine)
    ensures var lines := PayNowLinesWith(product, selectedSize, quantity, percentOff, imageLine);
            forall k :: 0 <= k < 6 ==> NoNewline(lines[k])
  {
    NumbersHaveNoNewline(quantity);
    assert NoNewline(OrElse(selectedSize, "Not Selected"));
  }

  lemma TotalHasNoNewline(product: Product, quantity: int)
    ensures NoNewline(TotalLine(product, quantity))
  {
    NumbersHaveNoNewline(PayNowTotal(product, quantity));
  }

  lemma PricesHaveNoNewline(product: Product, percentOff: int)
    requires HasDiscount(product.discountedPrice)
    ensures NoNewline("Original Price: " + Order.Rupee + NatToString(product.originalPrice))
    ensures NoNewline("Offer Price: " + Order.Rupee + NatToString(product.discountedPrice.value)
                      + " (" + IntToString(percentOff) + "% OFF)")
  {
    NumbersHaveNoNewline(percentOff);
    NumbersHaveNoNewline(product.originalPrice);
    NumbersHaveNoNewline(product.discountedPrice.value);
  }

  lemma CommentHasNoNewline(image: string)
    requires NoNewline(image)
    ensures NoNewline("Image: " + image + ImageComment)
  {
    assert NoNewline(ImageComment);
  }

  /** The message as written splits back into its lines. */
  lemma AsWrittenSplitsIntoLines(product: Product, selectedSize: string, quantities: PendingMap, percentOff: int)
    requires NoNewline(product.name) && NoNewline(selectedSize) && NoNewline(product.image)
    ensures Split(PayNowMessageAsWritten(product, selectedSize, quantities, percentOff))
            == PayNowLinesAsWritten(product, selectedSize, QuantityFor(quantities, product.id), percentOff)
  {
    var lines := PayNowLinesAsWritten(product, selectedSize, QuantityFor(quantities, product.id), percentOff);
    CommentHasNoNewline(product.image);
    LinesHaveNoNewline(product, selectedSize, QuantityFor(quantities, product.id), percentOff,
                       "Image: " + product.image + ImageComment);
    SplitJoin(lines);
  }

  /** The corrected message splits back into its lines. */
  lemma MessageSplitsIntoLines(product: Product, selectedSize: string, quantities: PendingMap, percentOff: int)
    requires NoNewline(product.name) && NoNewline(selectedSize) && NoNewline(product.image)
    ensures Split(PayNowMessage(product, selectedSize, quantities, percentOff))
            == PayNowLines(product, selectedSize, QuantityFor(quantities, product.id), percentOff)
  {
    var lines := PayNowLines(product, selectedSize, QuantityFor(quantities, product.id), percentOff);
    LinesHaveNoNewline(product, selectedSize, QuantityFor(quantities, product.id), percentOff,
                       "Image: " + product.image);
    SplitJoin(lines);
  }

  /** Read back line by line, the message as written carries the comment on its image line,
      and the corrected one the image address alone, when the name, the size and the image
      address hold no newline. */
  lemma MessageLeaksComment(product: Product, selectedSize: string, quantities: PendingMap, percentOff: int)
    requires NoNewline(product.name) && NoNewline(selectedSize) && NoNewline(product.image)
    ensures var lines := Split(PayNowMessageAsWritten(product, selectedSize, quantities, percentOff));
            |lines| >= 7 && lines[5] == "Image: " + product.image + ImageComment
    ensures var lines := Split(PayNowMessage(product, selectedSize, quantities, percentOff));
            |lines| >= 7 && lines[5] == "Image: " + product.image
    ensures PayNowMessageAsWritten(product, selectedSize, quantities, percentOff)
            != PayNowMessage(product, selectedSize, quantities, percentOff)
  {
    AsWrittenSplitsIntoLines(product, selectedSize, quantities, percentOff);
    MessageSplitsIntoLines(product, selectedSize, quantities, percentOff);
    AsWrittenLeaksComment(product, selectedSize, QuantityFor(quantities, product.id), percentOff);
  }

  /** The product dialog quotes the same total as the cart line the product becomes when
      added with that quantity. */
  lemma PayNowTotalMatchesCart(product: Product, size: string, quantity: int)
    ensures PayNowTotal(product, quantity) == Order.FinalTotal(Cart.NewLine(product, size, quantity))
  {
  }

  /** The quantity shown is the stored one, or 1 when none is stored; the buttons request one
      less and one more, and after App's clamp the quantity shown is `max(1, quantity - 1)`
      or `quantity + 1`, never below 1. */
  lemma ButtonsAfterClamp(quantities: PendingMap, id: string)
    requires Clamped(quantities)
    ensures QuantityFor(quantities, id) >= 1
    ensures var q := QuantityFor(quantities, id);
            && QuantityFor(SetQuantity(quantities, id, ButtonRequest(quantities, id, -1)), id) == Max(1, q - 1)
            && QuantityFor(SetQuantity(quantities, id, ButtonRequest(quantities, id, 1)), id) == q + 1
            && Clamped(SetQuantity(quantities, id, ButtonRequest(quantities, id, -1)))
  {
  }
}
