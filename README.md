# Shopping cart and checkout of an e-commerce backend, in Dafny

This project models `CartService` (`src/cart/cart.service.ts`), the part of the
backend that gives each user one cart, merges repeated additions of a product
into one line, snapshots the product price when a line is created, and checks
the cart out by decrementing stock line by line before it empties the cart.

The store is one object, `CartService.Store`, with three in-memory tables:

- the catalog `products`: product id ↦ `Product(price, stock)`;
- the carts `carts`: user id ↦ cart id;
- the cart items `items`: `CartItem(id, cartId, productId, quantity, priceAtTime)`
  rows, kept in insertion order.

Two counters hand out fresh cart and item ids. `Valid()` states the store's
invariant, part of it the schema's constraints and part of it kept by the
service's own guards:

- at most one cart per user;
- fresh ids;
- a positive quantity on every line, kept by the guards at lines 65 and 132
  and by the merge at line 93 adding a positive quantity to a positive one;
- one row per `(cartId, productId)` and per `id`;
- a catalog row behind every line (the foreign key of a required relation).

Each service call is a method that keeps `Valid()`. Its postcondition states
the whole new state and the result, including every error case. The errors are
the exceptions the service throws. `Error.Status` sorts them into
BadRequestException (400) and NotFoundException (404). `EmptyCart` is one of
the 400s.

Pure parts are functions with lemmas:

- The totals (`CartTotals`) are modelled as written: `reduce` is a left fold,
  and `_sum` is a nullable SQL aggregate followed by `|| 0`. Their contracts
  and lemmas tie each of them to one reference sum.
- The checkout loop (`CheckoutSpec.RunLines`) is modelled as a function of the
  catalog and the cart's lines. `Store.BuyLines` is the loop itself, proved
  equal to it.

Files:

- `cart_types.dfy`: rows, errors and results.
- `cart_lines.dfy`: the item table's queries and deletions, and the per-cart view `Lines`.
- `cart_totals.dfy`: the totals.
- `checkout_spec.dfy`: the checkout loop as a function, and its lemmas.
- `cart_service.dfy`: the store and the service methods.
- `cart_scenarios.dfy`: callers that check, from the contracts alone, the
  situations the service is built for.

The checkout loop does not check every line before it writes: it checks one
line and writes its decrement before it looks at the next. So a checkout that
throws at line k leaves lines 0..k-1 decremented and the cart uncleared.
`CheckoutFailureKeepsEarlierDecrements` states this, and
`PartialDecrementExample` and `CartScenarios.CheckoutStopsHalfway` show a
concrete case.

## Model

| member | source | states |
|---|---|---|
| `CartTypes.Error.Status` | src/cart/cart.service.ts:64-221 | invalid quantity, insufficient stock and an empty cart are 400 (BadRequest); a missing product or item is 404 (NotFound), as thrown at lines 66, 74, 78, 96, 133, 149, 153, 180, 203, 214 and 220 |
| `CartLines.Lines` | src/cart/cart.service.ts:262-264 | a cart's lines are exactly the table rows whose cartId is that cart |
| `CartLines.FindLine` | src/cart/cart.service.ts:83-90 | the lookup by (cartId, productId) returns a row with that key, or none exists |
| `CartLines.FindItem` | src/cart/cart.service.ts:138-146 | the lookup by (id, cartId) returns a row with both, or no row of that cart has that id |
| `CartLines.WithoutCart` | src/cart/cart.service.ts:191-193 | deleteMany by cartId keeps exactly the rows of other carts |
| `CartLines.DropItem` | src/cart/cart.service.ts:183-185 | delete by id keeps exactly the rows with another id |
| `CartLines.LinesAppend` | src/cart/cart.service.ts:113-127 | creating a row adds it at the end of its own cart's lines and changes no other cart's lines |
| `CartLines.LinesUpdateOther` | src/cart/cart.service.ts:101-111 | updating a row of one cart leaves every other cart's lines unchanged |
| `CartLines.LinesWithoutCart` | src/cart/cart.service.ts:188-196 | after clearing a cart it has no lines and every other cart's lines are unchanged |
| `CartLines.WithoutCartIdempotent` | src/cart/cart.service.ts:188-196 | clearing a cart twice gives the same table as clearing it once |
| `CartLines.LinesDropItemOther` | src/cart/cart.service.ts:170-185 | deleting an id held by no row of a cart leaves that cart's lines unchanged |
| `CartLines.LinesDropItem` | src/cart/cart.service.ts:183-185 | deleting a row by id removes it from its cart's lines and nothing else |
| `CartLines.UniqueRowsAppend` | src/cart/cart.service.ts:113-127 | a created row that clashes with no row keeps ids and (cartId, productId) unique |
| `CartLines.UniqueRowsUpdate` | src/cart/cart.service.ts:101-111 | updating the quantity of a row keeps the unique keys unique |
| `CartLines.UniqueRowsWithoutCart` | src/cart/cart.service.ts:191-193 | deleting a cart's rows keeps the unique keys unique |
| `CartLines.UniqueRowsDropItem` | src/cart/cart.service.ts:183-185 | deleting a row by id keeps the unique keys unique |
| `CartLines.LinesDistinctProducts` | src/cart/cart.service.ts:83-90 | with the (cartId, productId) key, no cart holds two lines of one product |
| `CartLines.UniqueId` | src/cart/cart.service.ts:183-185 | the row found by id is the only row with that id |
| `CartLines.UniqueRowsDropOne` | src/cart/cart.service.ts:183-185 | deleting an existing row by id removes exactly one row |
| `CartLines.LinesOfAbsentCart` | src/cart/cart.service.ts:28-43 | a cart that no row refers to, such as a newly created one, has no lines |
| `CartTotals.AggregateQuantity` | src/cart/cart.service.ts:251-254 | the `_sum` of quantities is null exactly when the cart has no lines |
| `CartTotals.ReduceQuantity` | src/cart/cart.service.ts:51 | the left-fold reduce over quantities, from any seed, equals the seed plus Σ quantity |
| `CartTotals.ReducePrice` | src/cart/cart.service.ts:266-269 | the left-fold reduce over prices (also at lines 52-55), from any seed, equals the seed plus Σ priceAtTime × quantity |
| `CartTotals.OrZero` | src/cart/cart.service.ts:256 | the default to 0 applied to the nullable `_sum` (also at line 240): null gives 0, a number is kept |
| `CartTotals.ItemCountMatchesTotalItems` | src/cart/cart.service.ts:248-257 | getCartItemCount's `_sum`, defaulted to 0, equals getCartByUserId's totalItems, and is 0 for an empty cart |
| `CartTotals.LineCountAtMostUnits` | src/cart/cart.service.ts:239 | checkout's totalItems (the number of lines) is at most the units in the cart, equal only when every line holds one unit, and 0 only for no lines |
| `CartTotals.SumPriceNonNegative` | src/cart/cart.service.ts:266-269 | with non-negative snapshot prices the cart total is non-negative |
| `CheckoutSpec.Check` | src/cart/cart.service.ts:209-223 | a line passes exactly when its product exists and its stock covers the line's quantity; a missing product raises ProductNotFound before stock is looked at, and short stock raises InsufficientStock |
| `CheckoutSpec.Decrement` | src/cart/cart.service.ts:225-230 | the write of one iteration: the line's product loses the line's quantity of stock, keeps its price, and no other product changes |
| `CheckoutSpec.RunLines` | src/cart/cart.service.ts:208-231 | checks each line against the current catalog and writes its decrement before the next; Failed at the first line whose check fails, with that line's error, in the catalog as the earlier lines left it |
| `CheckoutSpec.RunLinesKeys` | src/cart/cart.service.ts:225-230 | the loop only rewrites existing catalog rows |
| `CheckoutSpec.RunLinesKeepsStockNonNegative` | src/cart/cart.service.ts:219-230 | no stock goes negative, whether the loop ends or throws |
| `CheckoutSpec.RunLinesFindsProducts` | src/cart/cart.service.ts:209-217 | when every line's product is in the catalog the loop never throws ProductNotFound |
| `CheckoutSpec.RunLinesDone` | src/cart/cart.service.ts:208-231 | a completed loop checked every line, reduced each line's product by exactly that line's quantity, and left every other product as it was |
| `CheckoutSpec.RunLinesSucceeds` | src/cart/cart.service.ts:208-231 | conversely, if every line's product exists with enough stock, the loop completes |
| `CheckoutSpec.RunLinesFailed` | src/cart/cart.service.ts:208-231 | a loop that throws at line k completed lines 0..k-1 and failed line k's check against the catalog as then written |
| `CheckoutSpec.CheckoutFailureKeepsEarlierDecrements` | src/cart/cart.service.ts:208-231 | on a throw at line k, lines 0..k-1 stay decremented, other products keep their stock, and line k already failed against the initial catalog |
| `CheckoutSpec.PartialDecrementExample` | src/cart/cart.service.ts:208-231 | a two-line cart whose second product is sold out throws with the first product already decremented |
| `CartService.WithCart` | src/cart/cart.service.ts:12-46 | after the lookup the user has a cart, the existing one or one with the fresh id, and no other user's cart changes |
| `CartService.Store.GetOrCreateCart` | src/cart/cart.service.ts:12-46 | creates a cart only when the user has none, with a fresh id and no lines; otherwise returns the same cart and changes nothing |
| `CartService.Store.GetCartByUserId` | src/cart/cart.service.ts:48-62 | returns the caller's lines with totalItems = Σ quantity and totalPrice = Σ priceAtTime × quantity |
| `CartService.Store.AddToCart` | src/cart/cart.service.ts:64-129 | rejects quantity ≤ 0, a missing product and short stock with no state change; merges into the existing line (old + requested, price kept, fails if above stock) or appends a line priced at the current price; never changes stock or other carts |
| `CartService.Store.InsertRow` | src/cart/cart.service.ts:113-127 | creates a row with the next id, appended to its cart's lines, keeping the store valid |
| `CartService.Store.UpdateRow` | src/cart/cart.service.ts:156-166 | rewrites one row's quantity in place and no other row |
| `CartService.Store.UpdateCartItem` | src/cart/cart.service.ts:131-167 | rejects quantity ≤ 0 before touching state; NotFound unless the item is in the caller's cart; InsufficientStock if stock < quantity; otherwise sets only that row's quantity |
| `CartService.Store.RemoveFromCart` | src/cart/cart.service.ts:169-186 | NotFound unless the item is in the caller's cart; otherwise deletes exactly that one row; other carts unchanged; its only error is a 404 |
| `CartService.Store.ClearCart` | src/cart/cart.service.ts:188-196 | the caller's cart ends empty, other carts and the catalog unchanged |
| `CartService.Store.GetCartItemCount` | src/cart/cart.service.ts:248-257 | the count is Σ quantity of the caller's lines (0 for none) |
| `CartService.Store.GetCartTotal` | src/cart/cart.service.ts:259-272 | the total is Σ priceAtTime × quantity of the caller's lines |
| `CartService.Store.BuyLines` | src/cart/cart.service.ts:208-231 | the loop leaves the catalog exactly as RunLines says, and reports its error if it throws |
| `CartService.Store.Checkout` | src/cart/cart.service.ts:198-246 | EmptyCart with no stock change for an empty cart; on success stock falls by each line's quantity, the cart is cleared, and the receipt has the number of lines and the pre-checkout Σ priceAtTime × quantity; on a throw the loop's decrements stay and the cart is kept; never ProductNotFound, so every error is a 400; stock stays non-negative |
| `CartService.Store.UpdateProduct` | src/products/products.service.ts:58-63 | the catalog update the cart depends on: replaces an existing product's price and stock; a missing id fails and changes nothing |

## Left out

- HTTP routing and reading the user id from the token (`cart.controller.ts`) are not modelled. Each method takes the user id directly.
- Authentication, users and catalog search are not modelled (`auth.service.ts`, `user.service.ts`, the products controller and the rest of `products.service.ts`). Only the products service's `update` is kept, as `UpdateProduct`, so callers can change price and stock between cart calls.
- Loading products and images with each line, the message strings, the `success` flag, the message and timestamp of the checkout receipt, and `console.error` are not modelled. The receipt keeps `totalItems` and `totalPrice`.
- Concurrency is not modelled: each call is atomic over the store. So two first accesses racing to create one cart, and a sale between a stock check and its write, are outside the model.
- Prices are integers (cents), not floating point. Integers are unbounded, so the precision limits of JavaScript numbers are not modelled.
- Products cannot be deleted in the model. The store keeps a catalog row behind every line, as the database's foreign key does. So the product-not-found branch of `checkout` (lines 213-217) cannot be taken in the store: `Checkout` promises it never returns ProductNotFound. `RunLines` keeps the branch for any catalog, and `RunLinesFindsProducts` states when it can occur.
- Quantities are integers. The request bodies are not validated (`cart.controller.ts`), so a missing, NaN or fractional quantity passes the guards at lines 65, 77, 95, 132 and 152 (every comparison with it is false). What the database layer then does with such a value is not modelled. A quantity sent as a numeric string is not modelled either: at line 93 it is concatenated to the existing quantity (`1 + "2"` is `"12"`), so the guard at line 95 compares the stock with the wrong number. Nor is a combined quantity at line 93 beyond the column's range. `AddToCart` and `UpdateCartItem` take an unbounded integer quantity.
- UpdateProduct: a missing id makes the products service's `update` throw the database's record-not-found error, not a NotFoundException. The model returns `Err(ProductNotFound)`, which `Error.Status` would class as 404. The model also replaces the whole `Product`, where the source takes a partial update of any of its fields.
- Rows come back in insertion order. The source queries without `orderBy`, and the model takes the database's order to be the order of creation.
