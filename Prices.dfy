/** Prices as the price checker handles them.

    The program keeps prices in Python floats. Apart from ordinary amounts it
    uses two float values as sentinels: `np.inf` (no price found on a page, or
    no URL at all) and `sys.float_info.max` (a retailer the program does not
    support). Amounts are modelled exactly, in cents; the two sentinels are
    separate constructors ordered above every amount, as the floats are. */
module Prices {

  datatype Price = Finite(cents: nat) | FloatMax | Inf

  /** Position of a price in the float order: amounts, then the largest
      finite float, then infinity. */
  function Rank(p: Price): nat
  {
    match p
    case Finite(_) => 0
    case FloatMax => 1
    case Inf => 2
  }

  /** Python's `a < b` on the floats the two prices stand for. */
  predicate Less(a: Price, b: Price)
  {
    if a.Finite? && b.Finite? then a.cents < b.cents else Rank(a) < Rank(b)
  }

  /** Less is a strict total order. */
  lemma LessIsStrictTotalOrder(a: Price, b: Price, c: Price)
    ensures !Less(a, a)
    ensures Less(a, b) ==> !Less(b, a)
    ensures Less(a, b) && Less(b, c) ==> Less(a, c)
    ensures a != b ==> Less(a, b) || Less(b, a)
  {
  }

  /** One step of the running minimum: `if price < min_price: min_price = price`. */
  function Pick(least: Price, p: Price): (r: Price)
    ensures r == least || r == p
    ensures !Less(least, r) && !Less(p, r)
  {
    if Less(p, least) then p else least
  }

  /** What one price adds to the build total: `price if price < np.inf else 0`. */
  function Counted(p: Price): (r: Price)
    ensures r != Inf
    ensures p != Inf ==> r == p
    ensures p == Inf ==> r == Finite(0)
  {
    if Less(p, Inf) then p else Finite(0)
  }

  /** Float addition `a + b` on the values the prices stand for. Two amounts
      add exactly. Adding an amount to the largest float rounds back to the
      largest float; adding the largest float to itself overflows to
      infinity; infinity absorbs everything. */
  function Plus(a: Price, b: Price): (r: Price)
    ensures r.Finite? <==> a.Finite? && b.Finite?
    ensures r.Finite? ==> r.cents == a.cents + b.cents
    ensures !Less(r, a) && !Less(r, b)
  {
    match (a, b)
    case (Finite(x), Finite(y)) => Finite(x + y)
    case (Inf, _) => Inf
    case (_, Inf) => Inf
    case (FloatMax, FloatMax) => Inf
    case (FloatMax, Finite(_)) => FloatMax
    case (Finite(_), FloatMax) => FloatMax
  }
}
