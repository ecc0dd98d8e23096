/**
 * Order arithmetic of src/lib/orderCalculations.ts, in integer cents: the subtotal fold, the
 * flat-plus-per-line shipping and the total.
 */
module OrderCalculations {
  import opened Wrappers

  /** The $4.50 base shipping, in cents. */
  const BaseShipping: int := 450
  /** The $2 charged for each line after the first, in cents. */
  const PerExtraLine: int := 200

  /**
   * One cart line: the product's `from_price` in cents (`None` when the product or its price
   * is missing) and the line's `quantity` (`None` when missing).
   */
  datatype Line = Line(price: Option<int>, quantity: Option<int>)

  /** `item.product?.from_price || 0`: a missing or zero price counts as 0. */
  function PriceOf(l: Line): int {
    match l.price
    case Some(p) => p
    case None => 0
  }

  /** `item.quantity || 1`: a missing or zero quantity counts as 1. */
  function QuantityOf(l: Line): (q: int)
    ensures q != 0
    ensures l.quantity.Some? && l.quantity.value != 0 ==> q == l.quantity.value
  {
    match l.quantity
    case Some(n) => if n != 0 then n else 1
    case None => 1
  }

  /** What one line adds to the subtotal. */
  function LineTotal(l: Line): int {
    PriceOf(l) * QuantityOf(l)
  }

  /** `calculateOrderSubtotal`: the `reduce` from 0, adding each line in turn from the left. */
  function Subtotal(lines: seq<Line>): int
    decreases |lines|
  {
    if lines == [] then 0 else Subtotal(lines[..|lines| - 1]) + LineTotal(lines[|lines| - 1])
  }

  /** The subtotal of a concatenation is the sum of the subtotals: the fold is a plain sum. */
  lemma {:induction false} SubtotalAppend(a: seq<Line>, b: seq<Line>)
    ensures Subtotal(a + b) == Subtotal(a) + Subtotal(b)
    decreases |b|
  {
    if b != [] {
      assert (a + b)[..|a + b| - 1] == a + b[..|b| - 1];
      SubtotalAppend(a, b[..|b| - 1]);
    } else {
      assert a + b == a;
    }
  }

  /** The subtotal of no lines is 0, and of one line is its price times its effective quantity. */
  lemma SubtotalSmall(l: Line)
    ensures Subtotal([]) == 0
    ensures Subtotal([l]) == PriceOf(l) * QuantityOf(l)
  {
    assert [l][..0] == [];
  }

  /** With non-negative prices and quantities the subtotal is non-negative. */
  lemma {:induction false} SubtotalNonNegative(lines: seq<Line>)
    requires forall i :: 0 <= i < |lines| ==> PriceOf(lines[i]) >= 0 && QuantityOf(lines[i]) >= 0
    ensures Subtotal(lines) >= 0
    decreases |lines|
  {
    if lines != [] {
      SubtotalNonNegative(lines[..|lines| - 1]);
    }
  }

  /** `calculateShippingCost`: 4.50 plus 2 for every line beyond the first; lines, not quantities. */
  function Shipping(lines: seq<Line>): (r: int)
    ensures r >= BaseShipping
    ensures |lines| <= 1 ==> r == BaseShipping
    ensures |lines| >= 1 ==> r == BaseShipping + PerExtraLine * (|lines| - 1)
  {
    var n := |lines|;
    BaseShipping + (if n - 1 > 0 then n - 1 else 0) * PerExtraLine
  }

  /** Shipping never decreases as lines are added, and each line after the first adds exactly $2. */
  lemma ShippingGrowth(lines: seq<Line>, l: Line)
    ensures Shipping(lines) <= Shipping(lines + [l])
    ensures |lines| >= 1 ==> Shipping(lines + [l]) == Shipping(lines) + PerExtraLine
    ensures Shipping([]) == BaseShipping
  {
  }

  /** Shipping depends only on the number of lines. */
  lemma ShippingIgnoresQuantities(a: seq<Line>, b: seq<Line>)
    requires |a| == |b|
    ensures Shipping(a) == Shipping(b)
  {
  }

  /** `calculateOrderTotal`: the subtotal plus the shipping. */
  function Total(lines: seq<Line>): (r: int)
    ensures r - Subtotal(lines) >= BaseShipping
  {
    Subtotal(lines) + Shipping(lines)
  }

  /** Adding one line raises the total by its line amount plus the extra shipping it brings. */
  lemma TotalAddLine(lines: seq<Line>, l: Line)
    requires |lines| >= 1
    ensures Total(lines + [l]) == Total(lines) + LineTotal(l) + PerExtraLine
  {
    assert (lines + [l])[..|lines + [l]| - 1] == lines;
  }

  /** An empty order still costs the $4.50 base shipping. */
  lemma EmptyOrderTotal()
    ensures Total([]) == BaseShipping
  {
  }
}
