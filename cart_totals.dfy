/** The derived aggregates of a cart: the number of units and the price of
    its lines. `getCartByUserId` and `getCartTotal` compute them with
    `Array.prototype.reduce`, `getCartItemCount` with the database's `_sum`.
    Each is modelled as written and related to one reference sum. */
module CartTotals {
  import opened CartTypes

  /** What one line costs: the snapshotted unit price times the quantity. */
  function Subtotal(t: CartItem): int {
    t.priceAtTime * t.quantity
  }

  /** Reference definition: Σ quantity over the lines. */
  function SumQuantity(lines: seq<CartItem>): int
    decreases |lines|
  {
    if lines == [] then 0 else lines[0].quantity + SumQuantity(lines[1..])
  }

  /** Reference definition: Σ priceAtTime × quantity over the lines. */
  function SumPrice(lines: seq<CartItem>): int
    decreases |lines|
  {
    if lines == [] then 0 else Subtotal(lines[0]) + SumPrice(lines[1..])
  }

  /** `items.reduce((sum, item) => sum + item.quantity, acc)`: a left fold, which
      computes the reference sum whatever the seed. */
  function ReduceQuantity(acc: int, lines: seq<CartItem>): (r: int)
    ensures r == acc + SumQuantity(lines)
    decreases |lines|
  {
    if lines == [] then acc else ReduceQuantity(acc + lines[0].quantity, lines[1..])
  }

  /** `items.reduce((sum, item) => sum + item.priceAtTime * item.quantity, acc)`:
      likewise the reference sum plus the seed. */
  function ReducePrice(acc: int, lines: seq<CartItem>): (r: int)
    ensures r == acc + SumPrice(lines)
    decreases |lines|
  {
    if lines == [] then acc else ReducePrice(acc + Subtotal(lines[0]), lines[1..])
  }

  /** `cartItem.aggregate({ _sum: { quantity } })`: SQL SUM is null over no rows. */
  function AggregateQuantity(lines: seq<CartItem>): (r: Option<int>)
    ensures r.None? <==> lines == []
  {
    if lines == [] then None else Some(ReduceQuantity(0, lines))
  }

  /** JavaScript's `x || 0` on a nullable number: null (and 0 itself) give 0. */
  function OrZero(x: Option<int>): (r: int)
    ensures x.None? ==> r == 0
    ensures x.Some? ==> r == x.value
  {
    match x
    case None => 0
    case Some(v) => v
  }

  // ---------------------------------------------------------------------

  /** `getCartItemCount` agrees with `getCartByUserId`'s totalItems, and is 0 for an empty cart. */
  lemma ItemCountMatchesTotalItems(lines: seq<CartItem>)
    ensures OrZero(AggregateQuantity(lines)) == ReduceQuantity(0, lines) == SumQuantity(lines)
    ensures lines == [] ==> OrZero(AggregateQuantity(lines)) == 0
  {
  }

  /** With every quantity positive, the number of lines (what checkout reports as
      totalItems) is at most the number of units (what the cart view reports),
      equal exactly when every line holds one unit, and both are 0 only for no lines. */
  lemma {:induction false} LineCountAtMostUnits(lines: seq<CartItem>)
    requires forall i :: 0 <= i < |lines| ==> lines[i].quantity > 0
    ensures |lines| <= SumQuantity(lines)
    ensures |lines| == SumQuantity(lines) <==> forall i :: 0 <= i < |lines| ==> lines[i].quantity == 1
    ensures SumQuantity(lines) == 0 <==> lines == []
    decreases |lines|
  {
    if lines != [] {
      LineCountAtMostUnits(lines[1..]);
      if |lines| == SumQuantity(lines) {
        forall i | 0 <= i < |lines| ensures lines[i].quantity == 1 {
          if i > 0 {
            assert lines[i] == lines[1..][i - 1];
          }
        }
      }
      if forall i :: 0 <= i < |lines| ==> lines[i].quantity == 1 {
        assert forall i :: 0 <= i < |lines[1..]| ==> lines[1..][i] == lines[i + 1];
      }
    }
  }

  /** Prices and quantities that are not negative give a total that is not negative. */
  lemma {:induction false} SumPriceNonNegative(lines: seq<CartItem>)
    requires forall i :: 0 <= i < |lines| ==> lines[i].priceAtTime >= 0 && lines[i].quantity > 0
    ensures SumPrice(lines) >= 0
    decreases |lines|
  {
    if lines != [] {
      assert Subtotal(lines[0]) >= 0;
      SumPriceNonNegative(lines[1..]);
    }
  }
}
