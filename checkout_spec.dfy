/** What the checkout loop (cart.service.ts, the `for` loop of `checkout`)
    does to the catalog, as a function of the catalog and the cart's lines:
    each line is validated against the CURRENT stock of its product and, if
    it passes, decremented at once, before the next line is looked at. */
module CheckoutSpec {
  import opened CartTypes
  import opened CartLines

  /** The guards of one iteration: Some(error) when the line cannot be bought now. */
  function Check(products: map<nat, Product>, line: CartItem): (r: Option<Error>)
    ensures r.None? <==> line.productId in products && line.quantity <= products[line.productId].stock
    ensures line.productId !in products ==> r == Some(ProductNotFound)
    ensures line.productId in products && products[line.productId].stock < line.quantity ==> r == Some(InsufficientStock)
  {
    if line.productId !in products then Some(ProductNotFound)
    else if products[line.productId].stock < line.quantity then Some(InsufficientStock)
    else None
  }

  /** The write of one iteration: `stock: product.stock - item.quantity`. */
  function Decrement(products: map<nat, Product>, line: CartItem): (r: map<nat, Product>)
    requires line.productId in products
    ensures r.Keys == products.Keys
    ensures r[line.productId].stock == products[line.productId].stock - line.quantity
    ensures r[line.productId].price == products[line.productId].price
    ensures forall pid :: pid in products && pid != line.productId ==> r[pid] == products[pid]
  {
    var p := products[line.productId];
    products[line.productId := p.(stock := p.stock - line.quantity)]
  }

  /** The loop ran to the end, or stopped by throwing at line `at`; either way
      `products` is the catalog as the loop left it. */
  datatype Outcome =
    | Done(products: map<nat, Product>)
    | Failed(products: map<nat, Product>, at: nat, error: Error)

  /** Shifts the index of a failure by n lines. */
  function Lift(o: Outcome, n: nat): Outcome {
    match o
    case Done(ps) => Done(ps)
    case Failed(ps, k, e) => Failed(ps, k + n, e)
  }

  /** The checkout loop over `lines`, in order. A failure names a line of the
      list and is that line's guard failing in the catalog as the loop left it. */
  function RunLines(products: map<nat, Product>, lines: seq<CartItem>): (r: Outcome)
    ensures r.Failed? ==> r.at < |lines| && Check(r.products, lines[r.at]) == Some(r.error)
    decreases |lines|
  {
    if lines == [] then Done(products)
    else match Check(products, lines[0])
      case Some(e) => Failed(products, 0, e)
      case None => Lift(RunLines(Decrement(products, lines[0]), lines[1..]), 1)
  }

  // ---------------------------------------------------------------------

  /** One iteration of the loop at line i, from a catalog that the first i lines
      left as `products`: the run of all lines throws at line i when line i fails
      its guard, and otherwise goes on with line i's decrement from line i + 1. */
  lemma RunLinesAdvance(before: map<nat, Product>, lines: seq<CartItem>, products: map<nat, Product>, i: nat)
    requires i < |lines|
    requires RunLines(before, lines) == Lift(RunLines(products, lines[i..]), i)
    ensures Check(products, lines[i]).Some? ==>
      RunLines(before, lines) == Failed(products, i, Check(products, lines[i]).value)
    ensures Check(products, lines[i]).None? ==>
      RunLines(before, lines) == Lift(RunLines(Decrement(products, lines[i]), lines[i + 1..]), i + 1)
  {
  }

  /** The loop has passed every line: the run of all lines ends where it stands. */
  lemma RunLinesFinish(before: map<nat, Product>, lines: seq<CartItem>, products: map<nat, Product>)
    requires RunLines(before, lines) == Lift(RunLines(products, lines[|lines|..]), |lines|)
    ensures RunLines(before, lines) == Done(products)
  {
  }

  /** The loop only rewrites existing catalog rows. */
  lemma {:induction false} RunLinesKeys(products: map<nat, Product>, lines: seq<CartItem>)
    ensures RunLines(products, lines).products.Keys == products.Keys
    decreases |lines|
  {
    if lines != [] && Check(products, lines[0]).None? {
      RunLinesKeys(Decrement(products, lines[0]), lines[1..]);
    }
  }

  /** Stock never goes negative: every decrement is guarded by `stock >= quantity`. */
  lemma {:induction false} RunLinesKeepsStockNonNegative(products: map<nat, Product>, lines: seq<CartItem>)
    requires StockNonNegative(products)
    ensures StockNonNegative(RunLines(products, lines).products)
    decreases |lines|
  {
    if lines != [] && Check(products, lines[0]).None? {
      RunLinesKeepsStockNonNegative(Decrement(products, lines[0]), lines[1..]);
    }
  }

  /** When every line's product is in the catalog, the loop never fails with ProductNotFound. */
  lemma {:induction false} RunLinesFindsProducts(products: map<nat, Product>, lines: seq<CartItem>)
    requires forall t :: t in lines ==> t.productId in products
    ensures !(RunLines(products, lines).Failed? && RunLines(products, lines).error == ProductNotFound)
    decreases |lines|
  {
    if lines != [] && Check(products, lines[0]).None? {
      assert forall t :: t in lines[1..] ==> t in lines;
      RunLinesFindsProducts(Decrement(products, lines[0]), lines[1..]);
    }
  }

  /** A successful run has decremented each line's product by exactly that line's
      quantity, after checking it was available, and left every other product alone. */
  lemma {:induction false} RunLinesDone(products: map<nat, Product>, lines: seq<CartItem>, after: map<nat, Product>)
    requires DistinctProducts(lines)
    requires RunLines(products, lines) == Done(after)
    ensures after.Keys == products.Keys
    ensures forall i :: 0 <= i < |lines| ==>
      var pid := lines[i].productId;
      pid in products && lines[i].quantity <= products[pid].stock &&
      after[pid] == products[pid].(stock := products[pid].stock - lines[i].quantity)
    ensures forall pid :: pid in products && pid !in ProductIds(lines) ==> after[pid] == products[pid]
    decreases |lines|
  {
    RunLinesKeys(products, lines);
    if lines != [] {
      var head, rest := lines[0], lines[1..];
      var next := Decrement(products, head);
      assert RunLines(next, rest) == Done(after);
      RunLinesDone(next, rest, after);
      forall i | 0 <= i < |lines|
        ensures var pid := lines[i].productId;
          pid in products && lines[i].quantity <= products[pid].stock &&
          after[pid] == products[pid].(stock := products[pid].stock - lines[i].quantity)
      {
        if i > 0 {
          assert lines[i] == rest[i - 1] && lines[i] in rest;
        }
      }
    }
  }

  /** Conversely, when every line's product is present with enough stock, the run succeeds. */
  lemma {:induction false} RunLinesSucceeds(products: map<nat, Product>, lines: seq<CartItem>)
    requires DistinctProducts(lines)
    requires forall i :: 0 <= i < |lines| ==> Check(products, lines[i]).None?
    ensures RunLines(products, lines).Done?
    decreases |lines|
  {
    if lines != [] {
      var head, rest := lines[0], lines[1..];
      assert Check(products, lines[0]).None?;
      var next := Decrement(products, head);
      forall i | 0 <= i < |rest| ensures Check(next, rest[i]).None? {
        assert rest[i] == lines[i + 1] && rest[i] in rest;
      }
      RunLinesSucceeds(next, rest);
    }
  }

  /** A run that throws at line k has completed lines 0..k-1 (their decrements stay
      in the catalog) and throws because line k fails its guard in that catalog. */
  lemma {:induction false} RunLinesFailed(products: map<nat, Product>, lines: seq<CartItem>, after: map<nat, Product>, k: nat, e: Error)
    requires RunLines(products, lines) == Failed(after, k, e)
    ensures k < |lines|
    ensures RunLines(products, lines[..k]) == Done(after)
    ensures Check(after, lines[k]) == Some(e)
    decreases |lines|
  {
    if Check(products, lines[0]).None? {
      var next := Decrement(products, lines[0]);
      assert RunLines(next, lines[1..]) == Failed(after, k - 1, e);
      RunLinesFailed(next, lines[1..], after, k - 1, e);
      assert lines[..k][0] == lines[0] && lines[..k][1..] == lines[1..][..k - 1];
    } else {
      assert lines[..k] == [];
    }
  }

  lemma {:induction false} DistinctPrefix(s: seq<CartItem>, k: nat)
    requires DistinctProducts(s) && k <= |s|
    ensures DistinctProducts(s[..k])
    decreases |s|
  {
    if k > 0 {
      assert s[..k][0] == s[0] && s[..k][1..] == s[1..][..k - 1];
      assert forall t :: t in s[1..][..k - 1] ==> t in s[1..];
      DistinctPrefix(s[1..], k - 1);
    }
  }

  /** The partial-decrement gap: when the checkout throws at line k, lines 0..k-1 stay
      decremented, every other product keeps its stock, and line k is one whose guard
      already failed against the catalog as it was before the checkout began. */
  lemma CheckoutFailureKeepsEarlierDecrements(products: map<nat, Product>, lines: seq<CartItem>, after: map<nat, Product>, k: nat, e: Error)
    requires DistinctProducts(lines)
    requires RunLines(products, lines) == Failed(after, k, e)
    ensures k < |lines| && after.Keys == products.Keys
    ensures forall i :: 0 <= i < k ==>
      var pid := lines[i].productId;
      pid in products && after[pid] == products[pid].(stock := products[pid].stock - lines[i].quantity)
    ensures forall pid :: pid in products && pid !in ProductIds(lines[..k]) ==> after[pid] == products[pid]
    ensures Check(products, lines[k]) == Some(e)
  {
    RunLinesKeys(products, lines);
    RunLinesFailed(products, lines, after, k, e);
    DistinctPrefix(lines, k);
    RunLinesDone(products, lines[..k], after);
    forall i | 0 <= i < k
      ensures var pid := lines[i].productId;
        pid in products && after[pid] == products[pid].(stock := products[pid].stock - lines[i].quantity)
    {
      assert lines[i] == lines[..k][i];
    }
    // line k's product is not among the earlier lines, so its row is as it was
    DistinctPrefix(lines, k + 1);
    LastNotInPrefix(lines[..k + 1]);
    assert lines[..k + 1][..k] == lines[..k];
  }

  /** In a list of lines with distinct products, the last product is not on any earlier line. */
  lemma {:induction false} LastNotInPrefix(s: seq<CartItem>)
    requires DistinctProducts(s) && s != []
    ensures s[|s| - 1].productId !in ProductIds(s[..|s| - 1])
    decreases |s|
  {
    if |s| > 1 {
      assert s[1..][..|s| - 2] == s[1..|s| - 1];
      LastNotInPrefix(s[1..]);
      assert s[..|s| - 1] == [s[0]] + s[1..|s| - 1];
      assert s[|s| - 1] in s[1..];
    }
  }

  /** An instance of the gap: two units of product 1 (stock 5), one of product 2 (sold out);
      the checkout throws at the second line, with product 1 already at stock 3. */
  lemma PartialDecrementExample()
    ensures RunLines(
      map[1 := Product(1000, 5), 2 := Product(500, 0)],
      [CartItem(10, 7, 1, 2, 1000), CartItem(11, 7, 2, 1, 500)])
      == Failed(map[1 := Product(1000, 3), 2 := Product(500, 0)], 1, InsufficientStock)
  {
  }
}
