/** `CartService` over an in-memory copy of the three tables it touches:
    the catalog (product id ↦ price and stock), the carts (user id ↦ cart id)
    and the cart items (rows in insertion order). Each service call is one
    method and runs atomically. */
module CartService {
  import opened CartTypes
  import opened CartLines
  import opened CartTotals
  import opened CheckoutSpec

  /** `getCartByUserId`'s result: the cart's lines and the two derived totals. */
  datatype CartView = CartView(cartId: nat, lines: seq<CartItem>, totalItems: int, totalPrice: int)

  /** `checkout`'s summary; the success flag, message and timestamp are not modelled. */
  datatype Receipt = Receipt(totalItems: nat, totalPrice: int)

  /** The cart table after `getOrCreateCart(userId)`: unchanged when the user
      has a cart, otherwise extended by a cart with the next fresh id. */
  function WithCart(carts: map<nat, nat>, nextCartId: nat, userId: nat): (r: map<nat, nat>)
    ensures userId in r && r[userId] == if userId in carts then carts[userId] else nextCartId
    ensures forall u :: u in carts ==> u in r && r[u] == carts[u]
    ensures forall u :: u in r ==> u in carts || u == userId
  {
    if userId in carts then carts else carts[userId := nextCartId]
  }

  class Store {
    var products: map<nat, Product>
    var carts: map<nat, nat>
    var items: seq<CartItem>
    var nextCartId: nat
    var nextItemId: nat

    /** The store's invariant: at most one cart per user, fresh ids, a row per
        (cart, product) and a catalog row behind every line (the foreign key of
        a required relation) come from the schema; positive quantities are kept
        by the service's guards on the quantity it is given. */
    ghost predicate Valid()
      reads this
    {
      && (forall u :: u in carts ==> carts[u] < nextCartId)
      && (forall u, v :: u in carts && v in carts && u != v ==> carts[u] != carts[v])
      && (forall t :: t in items ==>
            t.id < nextItemId && t.quantity > 0 && t.cartId in carts.Values && t.productId in products)
      && UniqueRows(items)
    }

    /** The cart table and the cart counter are as `getOrCreateCart(userId)` leaves them. */
    ghost predicate Resolved(oldCarts: map<nat, nat>, oldNextCartId: nat, userId: nat)
      reads this
    {
      && carts == WithCart(oldCarts, oldNextCartId, userId)
      && nextCartId == if userId in oldCarts then oldNextCartId else oldNextCartId + 1
    }

    constructor (catalog: map<nat, Product>)
      ensures Valid()
      ensures products == catalog && carts == map[] && items == []
      ensures nextCartId == 1 && nextItemId == 1
    {
      products := catalog;
      carts := map[];
      items := [];
      nextCartId := 1;
      nextItemId := 1;
    }

    /** `getOrCreateCart`: a user's cart is created on first access only. */
    method GetOrCreateCart(userId: nat) returns (cartId: nat)
      requires Valid()
      modifies this
      ensures Valid()
      ensures Resolved(old(carts), old(nextCartId), userId) && cartId == carts[userId]
      ensures userId !in old(carts) ==> cartId !in old(carts).Values && Lines(items, cartId) == []
      ensures items == old(items) && products == old(products) && nextItemId == old(nextItemId)
    {
      if userId in carts {
        cartId := carts[userId];
      } else {
        cartId := nextCartId;
        forall t | t in items ensures t.cartId != cartId {
          var u :| u in carts && carts[u] == t.cartId;
        }
        forall c | c in carts.Values ensures c < cartId {
          var u :| u in carts && carts[u] == c;
        }
        ghost var before := carts;
        carts := carts[userId := cartId];
        assert before.Values <= carts.Values by {
          forall c | c in before.Values ensures c in carts.Values {
            var u :| u in before && before[u] == c;
            assert carts[u] == c;
          }
        }
        nextCartId := nextCartId + 1;
        LinesOfAbsentCart(items, cartId);
      }
    }

    /** `getCartByUserId`: the caller's lines with Σ quantity and Σ priceAtTime × quantity. */
    method GetCartByUserId(userId: nat) returns (view: CartView)
      requires Valid()
      modifies this
      ensures Valid() && Resolved(old(carts), old(nextCartId), userId)
      ensures items == old(items) && products == old(products) && nextItemId == old(nextItemId)
      ensures view.cartId == carts[userId] && view.lines == Lines(items, view.cartId)
      ensures view.totalItems == SumQuantity(view.lines) && view.totalPrice == SumPrice(view.lines)
    {
      var cartId := GetOrCreateCart(userId);
      var lines := Lines(items, cartId);
      var totalItems := ReduceQuantity(0, lines);
      var totalPrice := ReducePrice(0, lines);
      view := CartView(cartId, lines, totalItems, totalPrice);
    }

    /** `addToCart`: validates, then merges into the existing line for the product
        (keeping its price) or appends a line priced at the current product price. */
    method AddToCart(userId: nat, productId: nat, quantity: int) returns (r: Result<CartItem>)
      requires Valid()
      modifies this
      ensures Valid()
      ensures products == old(products)
      ensures quantity <= 0 ==> r == Err(InvalidQuantity)
      ensures quantity > 0 && productId !in old(products) ==> r == Err(ProductNotFound)
      ensures quantity > 0 && productId in old(products) && old(products)[productId].stock < quantity
        ==> r == Err(InsufficientStock)
      ensures r.Err? ==>
        carts == old(carts) && items == old(items) && nextCartId == old(nextCartId) && nextItemId == old(nextItemId)
      ensures quantity > 0 && productId in old(products) && old(products)[productId].stock >= quantity ==>
        Resolved(old(carts), old(nextCartId), userId) &&
        var cartId := carts[userId];
        var product := old(products)[productId];
        match FindLine(old(items), cartId, productId)
        case Some(k) =>
          var merged := old(items)[k].(quantity := old(items)[k].quantity + quantity);
          if product.stock < merged.quantity then r == Err(InsufficientStock)
          else r == Ok(merged) && items == old(items)[k := merged] && nextItemId == old(nextItemId)
        case None =>
          var line := CartItem(old(nextItemId), cartId, productId, quantity, product.price);
          r == Ok(line) && items == old(items) + [line] && nextItemId == old(nextItemId) + 1
      ensures forall c :: userId !in carts || c != carts[userId] ==> Lines(items, c) == Lines(old(items), c)
    {
      if quantity <= 0 {
        return Err(InvalidQuantity);
      }
      if productId !in products {
        return Err(ProductNotFound);
      }
      var product := products[productId];
      if product.stock < quantity {
        return Err(InsufficientStock);
      }
      var cartId := GetOrCreateCart(userId);
      match FindLine(items, cartId, productId)
      case Some(k) =>
        var merged := items[k].(quantity := items[k].quantity + quantity);
        if product.stock < merged.quantity {
          return Err(InsufficientStock);
        }
        assert items[k] in items;
        UpdateRow(k, merged);
        r := Ok(merged);
      case None =>
        var line := InsertRow(cartId, productId, quantity, product.price);
        r := Ok(line);
    }

    /** `updateCartItem`: overwrites the quantity of a line of the caller's own cart. */
    method UpdateCartItem(userId: nat, itemId: nat, quantity: int) returns (r: Result<CartItem>)
      requires Valid()
      modifies this
      ensures Valid()
      ensures products == old(products) && nextItemId == old(nextItemId)
      ensures quantity <= 0 ==>
        r == Err(InvalidQuantity) && carts == old(carts) && nextCartId == old(nextCartId) && items == old(items)
      ensures quantity > 0 ==>
        Resolved(old(carts), old(nextCartId), userId) &&
        match FindItem(old(items), itemId, carts[userId])
        case None => r == Err(ItemNotFound) && items == old(items)
        case Some(k) =>
          var line := old(items)[k];
          if old(products)[line.productId].stock < quantity then r == Err(InsufficientStock) && items == old(items)
          else r == Ok(line.(quantity := quantity)) && items == old(items)[k := line.(quantity := quantity)]
      ensures forall c :: userId !in carts || c != carts[userId] ==> Lines(items, c) == Lines(old(items), c)
    {
      if quantity <= 0 {
        return Err(InvalidQuantity);
      }
      var cartId := GetOrCreateCart(userId);
      match FindItem(items, itemId, cartId)
      case None =>
        r := Err(ItemNotFound);
      case Some(k) =>
        var line := items[k];
        assert line in items;
        if products[line.productId].stock < quantity {
          return Err(InsufficientStock);
        }
        UpdateRow(k, line.(quantity := quantity));
        r := Ok(line.(quantity := quantity));
    }

    /** `removeFromCart`: deletes one line of the caller's own cart. */
    method RemoveFromCart(userId: nat, itemId: nat) returns (r: Result<CartItem>)
      requires Valid()
      modifies this
      ensures Valid() && Resolved(old(carts), old(nextCartId), userId)
      ensures products == old(products) && nextItemId == old(nextItemId)
      ensures match FindItem(old(items), itemId, carts[userId])
        case None => r == Err(ItemNotFound) && items == old(items)
        case Some(k) =>
          && r == Ok(old(items)[k])
          && items == DropItem(old(items), itemId)
          && |items| == |old(items)| - 1
          && Lines(items, carts[userId]) == DropItem(Lines(old(items), carts[userId]), itemId)
      ensures r.Err? ==> r.error.Status() == 404
      ensures forall c :: c != carts[userId] ==> Lines(items, c) == Lines(old(items), c)
    {
      var cartId := GetOrCreateCart(userId);
      match FindItem(items, itemId, cartId)
      case None =>
        r := Err(ItemNotFound);
      case Some(k) =>
        r := Ok(items[k]);
        forall t | t in items && t.id == itemId ensures t.cartId == cartId {
          UniqueId(items, k, t);
        }
        forall c | c != cartId ensures Lines(DropItem(items, itemId), c) == Lines(items, c) {
          LinesDropItemOther(items, itemId, c);
        }
        LinesDropItem(items, itemId, cartId);
        UniqueRowsDropOne(items, k);
        UniqueRowsDropItem(items, itemId);
        items := DropItem(items, itemId);
    }

    /** `clearCart`: deletes every line of the caller's cart and nothing else. */
    method ClearCart(userId: nat)
      requires Valid()
      modifies this
      ensures Valid() && Resolved(old(carts), old(nextCartId), userId)
      ensures products == old(products) && nextItemId == old(nextItemId)
      ensures items == WithoutCart(old(items), carts[userId])
      ensures Lines(items, carts[userId]) == []
      ensures forall c :: c != carts[userId] ==> Lines(items, c) == Lines(old(items), c)
    {
      var cartId := GetOrCreateCart(userId);
      forall c ensures Lines(WithoutCart(items, cartId), c) == if c == cartId then [] else Lines(items, c) {
        LinesWithoutCart(items, cartId, c);
      }
      UniqueRowsWithoutCart(items, cartId);
      items := WithoutCart(items, cartId);
    }

    /** `getCartItemCount`: the database's Σ quantity over the caller's lines, 0 for none. */
    method GetCartItemCount(userId: nat) returns (count: int)
      requires Valid()
      modifies this
      ensures Valid() && Resolved(old(carts), old(nextCartId), userId)
      ensures items == old(items) && products == old(products) && nextItemId == old(nextItemId)
      ensures count == SumQuantity(Lines(items, carts[userId]))
    {
      var cartId := GetOrCreateCart(userId);
      var lines := Lines(items, cartId);
      count := OrZero(AggregateQuantity(lines));
    }

    /** `getCartTotal`: Σ priceAtTime × quantity over the caller's lines. */
    method GetCartTotal(userId: nat) returns (total: int)
      requires Valid()
      modifies this
      ensures Valid() && Resolved(old(carts), old(nextCartId), userId)
      ensures items == old(items) && products == old(products) && nextItemId == old(nextItemId)
      ensures total == SumPrice(Lines(items, carts[userId]))
    {
      var cartId := GetOrCreateCart(userId);
      var lines := Lines(items, cartId);
      total := ReducePrice(0, lines);
    }

    /** `checkout`: loads the cart view, then for each line in order checks the product's
        current stock and decrements it at once, and finally clears the cart. A line that
        fails its check throws after the earlier lines' decrements have been written. */
    method Checkout(userId: nat) returns (r: Result<Receipt>)
      requires Valid()
      modifies this
      ensures Valid() && Resolved(old(carts), old(nextCartId), userId)
      ensures nextItemId == old(nextItemId)
      ensures
        var lines := Lines(old(items), carts[userId]);
        if lines == [] then
          r == Err(EmptyCart) && products == old(products) && items == old(items)
        else match RunLines(old(products), lines)
          case Done(after) =>
            && r == Ok(Receipt(|lines|, SumPrice(lines)))
            && products == after
            && items == WithoutCart(old(items), carts[userId])
          case Failed(after, k, e) =>
            r == Err(e) && products == after && items == old(items)
      ensures r.Ok? ==> forall t :: t in Lines(old(items), carts[userId]) ==>
        t.productId in products && products[t.productId].stock == old(products)[t.productId].stock - t.quantity
      ensures r != Err(ProductNotFound) && (r.Err? ==> r.error.Status() == 400)
      ensures StockNonNegative(old(products)) ==> StockNonNegative(products)
    {
      var view := GetCartByUserId(userId);
      if |view.lines| == 0 {
        return Err(EmptyCart);
      }
      var lines := view.lines;
      ghost var before := products;
      if StockNonNegative(before) {
        RunLinesKeepsStockNonNegative(before, lines);
      }
      RunLinesFindsProducts(before, lines);
      RunLinesKeys(before, lines);
      var failure := BuyLines(lines);
      if failure.Some? {
        return Err(failure.value);
      }
      LinesDistinctProducts(items, view.cartId);
      RunLinesDone(before, lines, products);
      ClearCart(userId);
      r := Ok(Receipt(|lines|, view.totalPrice));
    }

    /** The loop of `checkout`: for each line in order, re-reads the product, throws
        if its stock is below the line's quantity, and otherwise writes the decrement. */
    method BuyLines(lines: seq<CartItem>) returns (failure: Option<Error>)
      requires forall t :: t in lines ==> t.productId in products
      modifies this`products
      ensures products == RunLines(old(products), lines).products
      ensures failure == if RunLines(old(products), lines).Done? then None else Some(RunLines(old(products), lines).error)
    {
      ghost var before := products;
      assert forall k :: 0 <= k < |lines| ==> lines[k] in lines;
      var i := 0;
      while i < |lines|
        invariant 0 <= i <= |lines|
        invariant RunLines(before, lines) == Lift(RunLines(products, lines[i..]), i)
        invariant forall k :: 0 <= k < |lines| ==> lines[k].productId in products
      {
        var line := lines[i];
        RunLinesAdvance(before, lines, products, i);
        // the catalog row exists: a line's product is never missing (RunLinesFindsProducts)
        var product := products[line.productId];
        if product.stock < line.quantity {
          return Some(InsufficientStock);
        }
        ghost var read := products;
        products := products[line.productId := product.(stock := product.stock - line.quantity)];
        assert products == Decrement(read, line);
        i := i + 1;
      }
      RunLinesFinish(before, lines, products);
      failure := None;
    }

    /** The catalog's `update` (products.service.ts), which the cart service depends on
        but does not call: replaces a product's price and stock. */
    method UpdateProduct(productId: nat, product: Product) returns (r: Result<Product>)
      requires Valid()
      modifies this
      ensures Valid()
      ensures productId in old(products) ==> r == Ok(product) && products == old(products)[productId := product]
      ensures productId !in old(products) ==> r == Err(ProductNotFound) && products == old(products)
      ensures carts == old(carts) && items == old(items)
      ensures nextCartId == old(nextCartId) && nextItemId == old(nextItemId)
    {
      if productId !in products {
        return Err(ProductNotFound);
      }
      products := products[productId := product];
      r := Ok(product);
    }

    /** `cartItem.update`: rewrites the non-key fields of row k. */
    method UpdateRow(k: nat, row: CartItem)
      requires Valid() && k < |items|
      requires row.id == items[k].id && row.cartId == items[k].cartId && row.productId == items[k].productId
      requires row.quantity > 0
      modifies this
      ensures Valid()
      ensures items == old(items)[k := row]
      ensures products == old(products) && carts == old(carts)
      ensures nextCartId == old(nextCartId) && nextItemId == old(nextItemId)
      ensures forall c :: c != row.cartId ==> Lines(items, c) == Lines(old(items), c)
    {
      assert items[k] in items;
      UniqueRowsUpdate(items, k, row);
      forall c | c != row.cartId ensures Lines(items[k := row], c) == Lines(items, c) {
        LinesUpdateOther(items, k, row, c);
      }
      forall t | t in items[k := row]
        ensures t.id < nextItemId && t.quantity > 0 && t.cartId in carts.Values && t.productId in products
      {
        if t != row {
          var j :| 0 <= j < |items| && items[k := row][j] == t;
          assert t == items[j] && items[j] in items;
        }
      }
      items := items[k := row];
    }

    /** `cartItem.create`: appends a row with the next fresh id. */
    method InsertRow(cartId: nat, productId: nat, quantity: int, price: int) returns (row: CartItem)
      requires Valid() && cartId in carts.Values && productId in products && quantity > 0
      requires FindLine(items, cartId, productId).None?
      modifies this
      ensures Valid()
      ensures row == CartItem(old(nextItemId), cartId, productId, quantity, price)
      ensures items == old(items) + [row] && nextItemId == old(nextItemId) + 1
      ensures products == old(products) && carts == old(carts) && nextCartId == old(nextCartId)
      ensures Lines(items, cartId) == Lines(old(items), cartId) + [row]
      ensures forall c :: c != cartId ==> Lines(items, c) == Lines(old(items), c)
    {
      row := CartItem(nextItemId, cartId, productId, quantity, price);
      UniqueRowsAppend(items, row);
      forall c ensures Lines(items + [row], c) == Lines(items, c) + (if c == cartId then [row] else []) {
        LinesAppend(items, row, c);
      }
      items := items + [row];
      nextItemId := nextItemId + 1;
    }
  }
}
