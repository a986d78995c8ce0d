/** The per-line order message that both cart views (the navigation bar's drop-down and the
    cart dialog) send to the shop's messaging number; their code is identical. */
module Order {
  import opened Model
  import opened Text

  const Rupee: string := "\U{20B9}"

  /** `item.originalPrice * item.quantity` */
  function OriginalTotal(item: CartLine): (r: int)
    ensures item.quantity >= 0 ==> r >= 0
    ensures item.quantity >= 1 ==> r >= item.originalPrice
  {
    item.originalPrice * item.quantity
  }

  /** `item.discountedPrice ? item.discountedPrice * item.quantity : null` */
  function OfferTotal(item: CartLine): (r: Option<int>)
    ensures r.Some? <==> HasDiscount(item.discountedPrice)
    ensures r.Some? ==> r.value == item.discountedPrice.value * item.quantity
  {
    if HasDiscount(item.discountedPrice) then Some(item.discountedPrice.value * item.quantity) else None
  }

  /** `offerTotal || originalTotal`: a null or zero offer total falls back to the original.
      A zero offer total needs a zero quantity, so this is the offer total whenever there is
      one and the original total otherwise. */
  function FinalTotal(item: CartLine): (r: int)
    ensures r == match OfferTotal(item) case Some(t) => t case None => OriginalTotal(item)
  {
    match OfferTotal(item)
    case Some(t) =>
      if t != 0 then t
      else OriginalTotal(item)
    case None => OriginalTotal(item)
  }

  function PriceLine(item: CartLine): string {
    "Price: " + Rupee + NatToString(item.originalPrice) + " x " + IntToString(item.quantity)
    + " = " + Rupee + IntToString(OriginalTotal(item))
  }

  function OfferLine(item: CartLine): string
    requires HasDiscount(item.discountedPrice)
  {
    "Offer Price: " + Rupee + NatToString(item.discountedPrice.value) + " x " + IntToString(item.quantity)
    + " = " + Rupee + IntToString(OfferTotal(item).value)
  }

  function TotalLine(item: CartLine): string {
    "*Total: " + Rupee + IntToString(FinalTotal(item)) + "*"
  }

  /** The lines of the message `handleWhatsAppOrder(item)` builds. */
  function OrderLines(item: CartLine): (lines: seq<string>)
    ensures |lines| == if HasDiscount(item.discountedPrice) then 8 else 7
    ensures lines[0] == "*Order Details:*" && lines[1] == "" && lines[2] == item.name
    ensures lines[4] == "Quantity: " + IntToString(item.quantity)
    ensures lines[5] == PriceLine(item)
    ensures lines[|lines| - 1] == TotalLine(item)
  {
    ["*Order Details:*", "", item.name, "Size: " + OrElse(item.size, "N/A"),
     "Quantity: " + IntToString(item.quantity), PriceLine(item)]
    + (if HasDiscount(item.discountedPrice) then [OfferLine(item)] else [])
    + [TotalLine(item)]
  }

  /** The message text before it is URL-encoded into the link: the header, a blank line,
      and at the end the total line. */
  function OrderMessage(item: CartLine): (message: string)
    ensures StartsWith(message, "*Order Details:*\n")
    ensures EndsWith(message, TotalLine(item))
  {
    var lines := OrderLines(item);
    JoinStartsWithFirst(lines);
    JoinEndsWithLast(lines);
    Join(lines)
  }

  // ---------------------------------------------------------------- totals

  /** The final total is the offer total when the line has a discount and the original
      total otherwise: the zero fallback of `||` never changes the amount. */
  lemma FinalTotalPrefersOffer(item: CartLine)
    ensures HasDiscount(item.discountedPrice) ==> FinalTotal(item) == item.discountedPrice.value * item.quantity
    ensures !HasDiscount(item.discountedPrice) ==> FinalTotal(item) == item.originalPrice * item.quantity
  {
  }

  /** The final total is never more than the original total when the discounted price is
      at most the original price and the quantity is not negative. */
  lemma FinalTotalAtMostOriginal(item: CartLine)
    requires item.quantity >= 0
    requires item.discountedPrice.Some? ==> item.discountedPrice.value <= item.originalPrice
    ensures FinalTotal(item) <= OriginalTotal(item)
  {
  }

  // ---------------------------------------------------------------- message

  /** The "Offer Price" line is present, right before the total, exactly when the line has a
      discount; the total line is always last and the size reads "N/A" when empty. */
  lemma OfferLineIffDiscount(item: CartLine)
    ensures var lines := OrderLines(item);
            && (HasDiscount(item.discountedPrice) <==> |lines| == 8 && StartsWith(lines[6], "Offer Price: "))
            && lines[|lines| - 1] == TotalLine(item)
            && lines[3] == "Size: " + OrElse(item.size, "N/A")
            && (item.size == "" ==> lines[3] == "Size: N/A")
  {
  }

  /** When the product name and size hold no newline, the message splits back into
      exactly the lines above. */
  lemma MessageSplitsIntoLines(item: CartLine)
    requires NoNewline(item.name) && NoNewline(item.size)
    ensures Split(OrderMessage(item)) == OrderLines(item)
  {
    var lines := OrderLines(item);
    NumbersHaveNoNewline(item.originalPrice);
    NumbersHaveNoNewline(item.quantity);
    NumbersHaveNoNewline(OriginalTotal(item));
    NumbersHaveNoNewline(FinalTotal(item));
    assert NoNewline(Rupee);
    assert NoNewline(PriceLine(item));
    assert NoNewline(TotalLine(item));
    assert NoNewline(OrElse(item.size, "N/A"));
    if HasDiscount(item.discountedPrice) {
      NumbersHaveNoNewline(item.discountedPrice.value);
      NumbersHaveNoNewline(OfferTotal(item).value);
      assert NoNewline(OfferLine(item));
    }
    assert forall k :: 0 <= k < |lines| ==> NoNewline(lines[k]);
    SplitJoin(lines);
  }

  /** The worked example: 2 x Dress A at 1000, offered at 800. */
  lemma DressExample()
    ensures var item := CartLine("a1", "Dress A", 1000, Some(800), ["M"], "a.jpg", "M", 2);
            && OriginalTotal(item) == 2000 && OfferTotal(item) == Some(1600)
            && TotalLine(item) == "*Total: " + Rupee + "1600*"
  {
  }
}
