/**
 * `OrderService.placeOrder`: validation, the idempotency-key replay, pricing every line
 * from the product table, and the save of a PENDING order whose total is the sum of its
 * lines. Every failure happens before the save, so a failed call saves nothing.
 */
module OrderService {
  import opened Wrappers
  import opened Seqs
  import opened Text
  import opened OrderKinds
  import opened Clock
  import opened JavaOrder
  import opened JavaProduct
  import opened LineService

  datatype CartItemRequest = CartItemRequest(productId: int, quantity: int, modifiers: Option<string>)

  /** `OrderRequest`; `items` may be null and `orderType` is the name of a type, not yet parsed. */
  datatype OrderRequest = OrderRequest(
    tableNumber: Option<string>, orderType: string, items: Option<seq<CartItemRequest>>,
    idempotencyKey: Option<string>)

  /** Why `placeOrder` throws, named by cause. */
  datatype OrderError =
    | ItemsEmpty                          // IllegalArgumentException
    | QuantityNotPositive                 // IllegalArgumentException
    | UnknownOrderType                    // IllegalArgumentException of OrderType.valueOf
    | ProductNotFound(productId: int)     // ResourceNotFoundException
    | ProductUnavailable(name: string)    // IllegalStateException
    | IdempotencyKeyTaken                 // the unique constraint, on a blank but non-null key

  /** `validateOrderRequest`: items must be present and non-empty, and every quantity positive. */
  function ValidateOrderRequest(request: OrderRequest): (err: Option<OrderError>)
    ensures err == Some(ItemsEmpty) <==> request.items.None? || request.items.value == []
    ensures err == Some(QuantityNotPositive) <==>
      request.items.Some? && request.items.value != [] &&
      exists i :: 0 <= i < |request.items.value| && request.items.value[i].quantity <= 0
    ensures err.None? || err == Some(ItemsEmpty) || err == Some(QuantityNotPositive)
  {
    match request.items
    case None => Some(ItemsEmpty)
    case Some(items) =>
      if items == [] then Some(ItemsEmpty)
      else if exists i :: 0 <= i < |items| && items[i].quantity <= 0 then Some(QuantityNotPositive)
      else None
  }

  /** The request carries a key that `placeOrder` looks up: non-null and not blank. */
  predicate HasReplayKey(request: OrderRequest) {
    request.idempotencyKey.Some? && !IsBlank(request.idempotencyKey.value)
  }

  /**
   * A request `placeOrder` carries as far as pricing its lines: it passes validation, is no
   * replay of a saved key, and names an order type.
   */
  predicate ReachesPricing(request: OrderRequest, rows: seq<OrderRecord>) {
    && ValidateOrderRequest(request).None?
    && !(HasReplayKey(request) && FindByKey(rows, request.idempotencyKey.value).Some?)
    && ParseType(request.orderType).Some?
  }

  /**
   * `createOrderItem`: the product must exist and be available; the line snapshots its name
   * and price, and its subtotal is the price times the quantity.
   */
  function CreateOrderItem(products: seq<Product>, request: CartItemRequest): (r: Result<OrderItem, OrderError>)
    ensures FindProduct(products, request.productId).None? <==> r == Failure(ProductNotFound(request.productId))
    ensures FindProduct(products, request.productId).Some? && !FindProduct(products, request.productId).value.available
            <==> r.Failure? && r.error.ProductUnavailable?
    ensures r.Failure? && r.error.ProductUnavailable? ==> r.error.name == FindProduct(products, request.productId).value.name
    ensures r.Success? ==>
      var p := FindProduct(products, request.productId).value;
      && p.available
      && r.value == OrderItem(request.productId, p.name, request.quantity, p.price, request.modifiers, p.price * request.quantity)
  {
    match FindProduct(products, request.productId)
    case None => Failure(ProductNotFound(request.productId))
    case Some(p) =>
      if !p.available then Failure(ProductUnavailable(p.name))
      else Success(OrderItem(p.id, p.name, request.quantity, p.price, request.modifiers, p.price * request.quantity))
  }

  /** Line `i` is the first that cannot be priced, and it fails with `e`. */
  ghost predicate FirstFailureAt(products: seq<Product>, requests: seq<CartItemRequest>, i: int, e: OrderError) {
    && 0 <= i < |requests|
    && CreateOrderItem(products, requests[i]) == Failure(e)
    && forall j :: 0 <= j < i ==> CreateOrderItem(products, requests[j]).Success?
  }

  /** A first failure among the lines after a priced one is the first failure of all the lines. */
  lemma FirstFailureAfterPriced(products: seq<Product>, requests: seq<CartItemRequest>, e: OrderError)
    requires requests != [] && CreateOrderItem(products, requests[0]).Success?
    requires exists k :: FirstFailureAt(products, requests[1..], k, e)
    ensures exists i :: FirstFailureAt(products, requests, i, e)
  {
    var k :| FirstFailureAt(products, requests[1..], k, e);
    assert forall j :: 1 <= j <= k + 1 ==> requests[j] == requests[1..][j - 1];
    assert FirstFailureAt(products, requests, k + 1, e);
  }

  /**
   * The `stream().map(createOrderItem)` of `placeOrder`: every line priced in order, or the
   * failure of the first line that cannot be.
   */
  function CreateOrderItems(products: seq<Product>, requests: seq<CartItemRequest>): (r: Result<seq<OrderItem>, OrderError>)
    ensures r.Success? <==> forall i :: 0 <= i < |requests| ==> CreateOrderItem(products, requests[i]).Success?
    ensures r.Success? ==>
      |r.value| == |requests| && forall i :: 0 <= i < |requests| ==> r.value[i] == CreateOrderItem(products, requests[i]).value
    ensures r.Failure? ==> exists i :: FirstFailureAt(products, requests, i, r.error)
  {
    if requests == [] then Success([])
    else
      match CreateOrderItem(products, requests[0])
      case Failure(e) =>
        assert FirstFailureAt(products, requests, 0, e);
        Failure(e)
      case Success(item) =>
        var rest := CreateOrderItems(products, requests[1..]);
        assert forall i :: 1 <= i < |requests| ==> requests[i] == requests[1..][i - 1];
        match rest
        case Failure(e) =>
          FirstFailureAfterPriced(products, requests, e);
          Failure(e)
        case Success(items) => Success([item] + items)
  }

  /** A saved row holding `key` is the only row holding it. */
  lemma KeyedRowIsFound(rows: seq<OrderRecord>, k: nat)
    requires KeysUnique(rows) && k < |rows| && rows[k].idempotencyKey.Some?
    ensures FindByKey(rows, rows[k].idempotencyKey.value) == Some(rows[k])
  {
    var found := FindByKey(rows, rows[k].idempotencyKey.value);
    var m :| 0 <= m < |rows| && rows[m] == found.value;
    if m < k {
      assert rows[m].idempotencyKey != rows[k].idempotencyKey;
    } else if m > k {
      assert rows[k].idempotencyKey != rows[m].idempotencyKey;
    }
  }

  /**
   * `placeOrder`: a request that fails validation saves nothing; a replayed key returns
   * the order saved under it and saves nothing; otherwise the type must parse and every
   * line must be priced, and only then is one PENDING order saved, stamped `now`, with the
   * priced lines and their sum as total. The notification computed afterwards cannot undo
   * the save; for the new PENDING order it sends nothing.
   */
  method PlaceOrder(orders: OrderRepository, products: ProductRepository, request: OrderRequest, now: Timestamp)
    returns (r: Result<OrderRecord, OrderError>, push: Option<Push>)
    requires orders.Valid()
    modifies orders
    ensures orders.Valid()
    ensures ValidateOrderRequest(request).Some? ==> r == Failure(ValidateOrderRequest(request).value)
    ensures ValidateOrderRequest(request).None? && HasReplayKey(request) &&
            FindByKey(old(orders.rows), request.idempotencyKey.value).Some?
            ==> r == Success(FindByKey(old(orders.rows), request.idempotencyKey.value).value)
                && orders.rows == old(orders.rows)
    ensures ValidateOrderRequest(request).None? && ParseType(request.orderType).None? &&
            !(HasReplayKey(request) && FindByKey(old(orders.rows), request.idempotencyKey.value).Some?)
            ==> r == Failure(UnknownOrderType)
    ensures ReachesPricing(request, old(orders.rows)) && CreateOrderItems(products.rows, request.items.value).Failure? ==>
      r == Failure(CreateOrderItems(products.rows, request.items.value).error)
    ensures ReachesPricing(request, old(orders.rows)) && CreateOrderItems(products.rows, request.items.value).Success? ==>
      if request.idempotencyKey.Some? && FindByKey(old(orders.rows), request.idempotencyKey.value).Some?
      then r == Failure(IdempotencyKeyTaken)
      else r.Success? && orders.rows == old(orders.rows) + [r.value]
    ensures r.Failure? ==> orders.rows == old(orders.rows) && orders.nextId == old(orders.nextId)
    ensures r.Success? && orders.rows != old(orders.rows) ==>
      && request.items.Some?
      && CreateOrderItems(products.rows, request.items.value) == Success(r.value.items)
      && ParseType(request.orderType) == Some(r.value.orderType)
      && r.value.id == old(orders.nextId) && r.value.status == Pending && r.value.createdAt == now
      && r.value.totalAmount == Sum(r.value.items, ItemSubtotal)
      && r.value.tableNumber == request.tableNumber && r.value.idempotencyKey == request.idempotencyKey
      && orders.rows == old(orders.rows) + [r.value]
    ensures r.Success? && request.idempotencyKey.Some? ==> FindByKey(orders.rows, request.idempotencyKey.value) == Some(r.value)
    ensures push == None
  {
    push := None;
    var invalid := ValidateOrderRequest(request);
    if invalid.Some? {
      return Failure(invalid.value), None;
    }
    if HasReplayKey(request) {
      var existing := FindByKey(orders.rows, request.idempotencyKey.value);
      if existing.Some? {
        return Success(existing.value), None;
      }
    }
    var orderType := ParseType(request.orderType);
    if orderType.None? {
      return Failure(UnknownOrderType), None;
    }
    var order := new Order(orderType.value, request.tableNumber, request.idempotencyKey, Some(Pending));
    var items := CreateOrderItems(products.rows, request.items.value);
    if items.Failure? {
      return Failure(items.error), None;
    }
    order.SetItemsAndTotal(items.value, Sum(items.value, ItemSubtotal));
    var saved := orders.Insert(order, now);
    if saved.Failure? {
      return Failure(IdempotencyKeyTaken), None;
    }
    r := Success(saved.value);
    if r.value.idempotencyKey.Some? {
      KeyedRowIsFound(orders.rows, |orders.rows| - 1);
    }
    push := NotifyOrderStatusChange(r.value.status);
  }

  /**
   * Two `placeOrder` calls with the same replay key: once the first has saved an order,
   * the second returns that same order and saves nothing.
   */
  method PlaceOrderTwice(orders: OrderRepository, products: ProductRepository, request: OrderRequest, now: Timestamp, later: Timestamp)
    returns (first: Result<OrderRecord, OrderError>, second: Result<OrderRecord, OrderError>)
    requires orders.Valid()
    requires HasReplayKey(request)
    modifies orders
    ensures orders.Valid()
    ensures first.Success? ==> second == first
    ensures |orders.rows| <= |old(orders.rows)| + 1
  {
    var push;
    first, push := PlaceOrder(orders, products, request, now);
    second, push := PlaceOrder(orders, products, request, later);
  }
}
