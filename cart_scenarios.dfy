/** Callers of the store that use nothing but the methods' contracts: each one
    walks through a situation the service is designed for and states the
    outcome as assertions the verifier checks. */
module CartScenarios {
  import opened CartTypes
  import opened CartLines
  import opened CartTotals
  import opened CartService

  /** Two products bought at once: the receipt counts lines, prices the snapshot,
      both stocks fall by the quantities bought, and the cart is left empty. */
  method CheckoutTwoProducts() {
    var store := new Store(map[1 := Product(1000, 5), 2 := Product(500, 1)]);
    var a := store.AddToCart(42, 1, 2);
    var b := store.AddToCart(42, 2, 1);
    assert a == Ok(CartItem(1, 1, 1, 2, 1000)) && b == Ok(CartItem(2, 1, 2, 1, 500));
    var lines := [CartItem(1, 1, 1, 2, 1000), CartItem(2, 1, 2, 1, 500)];
    assert store.items == lines && Lines(lines, 1) == lines;
    assert SumPrice(lines) == 2500;
    var r := store.Checkout(42);
    assert r == Ok(Receipt(2, 2500));
    assert store.products[1].stock == 3 && store.products[2].stock == 0;
    var view := store.GetCartByUserId(42);
    assert view.lines == [] && view.totalItems == 0;
  }

  /** A second add of a product merges into its line at the first add's price,
      even though the price changed in between. */
  method MergeKeepsFirstPrice() {
    var store := new Store(map[1 := Product(1000, 5)]);
    var a := store.AddToCart(7, 1, 1);
    var u := store.UpdateProduct(1, Product(1200, 5));
    var b := store.AddToCart(7, 1, 2);
    assert b == Ok(CartItem(1, 1, 1, 3, 1000));
    assert store.items == [CartItem(1, 1, 1, 3, 1000)];
    var c := store.AddToCart(7, 1, 3);
    assert c == Err(InsufficientStock) && store.items == [CartItem(1, 1, 1, 3, 1000)];
  }

  /** Stock falls below a line's quantity after it was added: checkout throws
      and the cart keeps its line. */
  method StockDropsBeforeCheckout() {
    var store := new Store(map[3 := Product(700, 5)]);
    var a := store.AddToCart(9, 3, 3);
    var u := store.UpdateProduct(3, Product(700, 2));
    var r := store.Checkout(9);
    assert r == Err(InsufficientStock);
    assert store.products[3].stock == 2;
    assert store.items == [CartItem(1, 1, 3, 3, 700)];
  }

  /** The partial-decrement gap: the second line fails, the first line's
      decrement stays written, and the cart is not cleared. */
  method CheckoutStopsHalfway() {
    var store := new Store(map[1 := Product(1000, 5), 2 := Product(500, 1)]);
    var a := store.AddToCart(42, 1, 2);
    var b := store.AddToCart(42, 2, 1);
    var u := store.UpdateProduct(2, Product(500, 0));
    var r := store.Checkout(42);
    assert r == Err(InsufficientStock);
    assert store.products[1].stock == 3;
    assert |store.items| == 2;
  }

  /** A user can neither update nor remove a line of another user's cart,
      and clearing one cart leaves the other alone. */
  method OtherUsersLinesAreOutOfReach() {
    var store := new Store(map[1 := Product(1000, 5)]);
    var mine := store.AddToCart(1, 1, 2);
    assert mine == Ok(CartItem(1, 1, 1, 2, 1000));
    var u := store.UpdateCartItem(2, 1, 1);
    assert u == Err(ItemNotFound);
    var d := store.RemoveFromCart(2, 1);
    assert d == Err(ItemNotFound);
    store.ClearCart(2);
    assert store.items == [CartItem(1, 1, 1, 2, 1000)];
  }

  /** A user's cart is created once; asking again returns it and changes nothing. */
  method CartCreatedOnce() {
    var store := new Store(map[]);
    var first := store.GetOrCreateCart(5);
    var second := store.GetOrCreateCart(5);
    assert first == second && store.carts == map[5 := first];
    var count := store.GetCartItemCount(5);
    var total := store.GetCartTotal(5);
    assert count == 0 && total == 0;
    var r := store.Checkout(5);
    assert r == Err(EmptyCart);
  }
}
