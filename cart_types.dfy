/** Rows of the store the cart service works on, and the errors it raises.
    Prices are integers (cents); ids are the database's auto-increment keys. */
module CartTypes {

  datatype Option<T> = None | Some(value: T)

  /** A catalog row as the cart service sees it. */
  datatype Product = Product(price: int, stock: int)

  /** One cart line: `priceAtTime` is the product price captured when the line was created. */
  datatype CartItem = CartItem(id: nat, cartId: nat, productId: nat, quantity: int, priceAtTime: int)

  /** The exceptions the service throws; the message strings are not modelled. */
  datatype Error =
    | InvalidQuantity     // quantity <= 0
    | InsufficientStock   // stock below the requested or combined quantity
    | EmptyCart           // checkout of a cart without lines
    | ProductNotFound     // no catalog row for the product id
    | ItemNotFound        // no line with that id in the caller's cart
  {
    /** BadRequestException (HTTP 400) versus NotFoundException (HTTP 404). */
    function Status(): (code: int)
      ensures code == 400 <==> (InvalidQuantity? || InsufficientStock? || EmptyCart?)
      ensures code == 404 <==> (ProductNotFound? || ItemNotFound?)
    {
      match this
      case InvalidQuantity | InsufficientStock | EmptyCart => 400
      case ProductNotFound | ItemNotFound => 404
    }
  }

  datatype Result<T> = Ok(value: T) | Err(error: Error)

  /** Stock is a count that the service must never drive below zero. */
  ghost predicate StockNonNegative(products: map<nat, Product>) {
    forall pid :: pid in products ==> products[pid].stock >= 0
  }
}
