/** The pending-quantity map: the quantity chosen for each product before it is added. */
module Quantities {
  import opened Model

  /** A pending quantity as the number field delivers it: a number, or NaN when
      `parseInt` reads an empty field. */
  datatype Qty = Num(n: int) | NaN

  type PendingMap = map<string, Qty>

  /** `if (value < 1) value = 1`. `NaN < 1` is false, so NaN is stored as it came. */
  function Clamp(v: Qty): (r: Qty)
    ensures v.NaN? ==> r == NaN
    ensures v.Num? ==> r.Num? && r.n >= 1 && (v.n >= 1 ==> r == v)
  {
    if v.Num? && v.n < 1 then Num(1) else v
  }

  /** `{ ...prev, [productId]: value }` with value clamped first. */
  function SetQuantity(q: PendingMap, id: string, v: Qty): (r: PendingMap)
    ensures r.Keys == q.Keys + {id}
    ensures v.Num? ==> r[id] == Num(Max(1, v.n))
    ensures v.NaN? ==> r[id] == NaN
    ensures forall k :: k in q && k != id ==> r[k] == q[k]
  {
    q[id := Clamp(v)]
  }

  /** `quantities[id] || 1`: a missing entry, NaN and 0 all read as 1. */
  function QuantityFor(q: PendingMap, id: string): (r: int)
    ensures r != 0
    ensures id !in q || q[id] == NaN || q[id] == Num(0) ==> r == 1
    ensures id in q && q[id].Num? && q[id].n != 0 ==> r == q[id].n
  {
    if id in q && q[id].Num? && q[id].n != 0 then q[id].n else 1
  }

  /** Every number stored in the map is at least 1. */
  ghost predicate Clamped(q: PendingMap) {
    forall k :: k in q && q[k].Num? ==> q[k].n >= 1
  }

  /** From a clamped map, the quantity read for any product is at least 1. */
  lemma ClampedQuantityPositive(q: PendingMap, id: string)
    requires Clamped(q)
    ensures QuantityFor(q, id) >= 1
  {
  }

  /** Storing a quantity keeps the map clamped. */
  lemma SetQuantityKeepsClamped(q: PendingMap, id: string, v: Qty)
    requires Clamped(q)
    ensures Clamped(SetQuantity(q, id, v))
  {
  }

  /** Reading back a stored quantity gives `max(1, value)`, or 1 for NaN, and storing
      under one product leaves what every other product reads unchanged. */
  lemma ReadAfterSet(q: PendingMap, id: string, v: Qty, other: string)
    ensures QuantityFor(SetQuantity(q, id, v), id) == if v.Num? then Max(1, v.n) else 1
    ensures other != id ==> QuantityFor(SetQuantity(q, id, v), other) == QuantityFor(q, other)
  {
  }
}
