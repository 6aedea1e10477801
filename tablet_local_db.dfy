/**
 * The tablet app's browser-local database: a reduced store with a read-only catalogue and
 * order creation. Categories carry an optional display order and products cache their
 * category name; only the two order counters advance.
 */
module TabletLocalDb {
  import opened Wrappers
  import opened Seqs
  import opened OrderKinds
  import opened Clock

  /** Recorded for an order line whose product is gone. */
  const UnknownProduct: string := "未知商品"

  datatype CategoryDto = CategoryDto(id: int, name: string, displayOrder: Option<int>)

  datatype ProductDto = ProductDto(
    id: int, name: string, price: int, description: string,
    categoryName: string, available: bool, imageUrl: Option<string>)

  datatype OrderItemDto = OrderItemDto(
    id: int, productName: string, quantity: int, unitPrice: int,
    modifiers: Option<string>, subtotal: int)

  datatype OrderDto = OrderDto(
    id: int, status: OrderStatus, orderType: OrderType, tableNumber: Option<string>,
    totalAmount: int, createdAt: Timestamp, items: seq<OrderItemDto>)

  datatype Counters = Counters(orderId: int, orderItemId: int)

  datatype CartItemRequest = CartItemRequest(productId: int, quantity: int, modifiers: Option<string>)

  datatype PlaceOrderRequest = PlaceOrderRequest(orderType: OrderType, tableNumber: Option<string>, items: seq<CartItemRequest>)

  /** `displayOrder ?? 0`, the key `categories.list` sorts by. */
  function DisplayOrderOrZero(c: CategoryDto): int { c.displayOrder.GetOr(0) }
  function ProductIdOf(p: ProductDto): int { p.id }
  function OrderIdOf(o: OrderDto): int { o.id }
  function ItemIdOf(item: OrderItemDto): int { item.id }
  function SubtotalOf(item: OrderItemDto): int { item.subtotal }

  /**
   * One order line priced from the catalogue: the first product with the requested id gives
   * its price and name (an empty name becomes "未知商品"); a missing product gives price 0 and
   * "未知商品". The subtotal is price times quantity.
   */
  function PriceLine(products: seq<ProductDto>, line: CartItemRequest, id: int): (item: OrderItemDto)
    ensures item.id == id && item.quantity == line.quantity && item.modifiers == line.modifiers
    ensures item.subtotal == item.unitPrice * line.quantity
  {
    match FindIndex(products, ProductIdOf, line.productId)
    case Some(k) =>
      var name := if products[k].name != [] then products[k].name else UnknownProduct;
      OrderItemDto(id, name, line.quantity, products[k].price, line.modifiers, products[k].price * line.quantity)
    case None =>
      OrderItemDto(id, UnknownProduct, line.quantity, 0, line.modifiers, 0)
  }

  /**
   * A priced line takes the price and name of the first product with the requested id, an
   * empty name read as "未知商品", or price 0 and "未知商品" when no product has that id.
   */
  lemma PriceLineFromCatalogue(products: seq<ProductDto>, line: CartItemRequest, id: int)
    ensures var item := PriceLine(products, line, id);
      && ((forall i :: 0 <= i < |products| ==> products[i].id != line.productId) ==>
            item.unitPrice == 0 && item.productName == UnknownProduct)
      && forall i :: FirstWithKey(products, ProductIdOf, line.productId, i) ==>
           && item.unitPrice == products[i].price
           && item.productName == if products[i].name != [] then products[i].name else UnknownProduct
  {
    match FindIndex(products, ProductIdOf, line.productId)
    case Some(k) => FirstWithKeyUnique(products, ProductIdOf, line.productId, k);
    case None =>
  }

  /** The lines `buildOrderItems` yields: one per requested line, in order, with consecutive ids from `firstId`. */
  function PricedItems(products: seq<ProductDto>, lines: seq<CartItemRequest>, firstId: int): (items: seq<OrderItemDto>)
    ensures |items| == |lines|
    ensures forall i :: 0 <= i < |lines| ==> items[i] == PriceLine(products, lines[i], firstId + i)
  {
    if lines == [] then []
    else PricedItems(products, lines[..|lines| - 1], firstId) + [PriceLine(products, lines[|lines| - 1], firstId + |lines| - 1)]
  }

  /** Pricing one more line appends its priced line, under the next id. */
  lemma {:induction false} PricedItemsSnoc(products: seq<ProductDto>, lines: seq<CartItemRequest>, firstId: int, i: nat)
    requires i < |lines|
    ensures PricedItems(products, lines[..i + 1], firstId)
         == PricedItems(products, lines[..i], firstId) + [PriceLine(products, lines[i], firstId + i)]
  {
    assert lines[..i + 1][..i] == lines[..i];
  }

  /** An order's own bookkeeping: each subtotal is price times quantity and the total is their sum. */
  ghost predicate Consistent(o: OrderDto) {
    && o.totalAmount == Sum(o.items, SubtotalOf)
    && forall j :: 0 <= j < |o.items| ==> o.items[j].subtotal == o.items[j].unitPrice * o.items[j].quantity
  }

  /** Order ids distinct and below `nextId`, line ids below `nextItemId`, every order consistent. */
  ghost predicate OrdersValid(orders: seq<OrderDto>, nextId: int, nextItemId: int) {
    && Fresh(orders, OrderIdOf, nextId)
    && forall i :: 0 <= i < |orders| ==> Consistent(orders[i]) && KeysBelow(orders[i].items, ItemIdOf, nextItemId)
  }

  /** Putting a consistent order with the next id in front keeps the orders valid. */
  lemma PrependOrderValid(orders: seq<OrderDto>, o: OrderDto, nextId: int, nextItemId: int, newItemId: int)
    requires OrdersValid(orders, nextId, nextItemId) && nextItemId <= newItemId
    requires o.id == nextId && Consistent(o) && KeysBelow(o.items, ItemIdOf, newItemId)
    ensures OrdersValid([o] + orders, nextId + 1, newItemId)
  {
    var r := [o] + orders;
    forall i | 0 <= i < |r| ensures Consistent(r[i]) && KeysBelow(r[i].items, ItemIdOf, newItemId) {
      if i > 0 { assert r[i] == orders[i - 1]; }
    }
    forall i, j | 0 <= i < j < |r| ensures r[i].id != r[j].id {
      assert r[j] == orders[j - 1];
      if i > 0 { assert r[i] == orders[i - 1]; }
    }
  }

  const SeedCategories: seq<CategoryDto> := [
    CategoryDto(1, "主餐", Some(0)),
    CategoryDto(2, "飲品", Some(1)),
    CategoryDto(3, "點心", Some(2))
  ]

  const SeedProducts: seq<ProductDto> := [
    ProductDto(1, "招牌蛋堡", 55, "經典早餐，溫暖飽足", "主餐", true, Some("")),
    ProductDto(2, "熱美式", 45, "香醇濃郁", "飲品", true, Some("")),
    ProductDto(3, "可頌", 40, "酥香柔軟", "點心", true, Some(""))
  ]

  class LocalDb {
    var categories: seq<CategoryDto>
    var products: seq<ProductDto>
    var orders: seq<OrderDto>
    var counters: Counters

    /** Order ids are fresh, line ids are below the line counter, and every order is consistent. */
    ghost predicate Valid()
      reads this
    {
      OrdersValid(orders, counters.orderId, counters.orderItemId)
    }

    /** `seedState()`: three categories, three products, no orders, both counters at 1. */
    constructor ()
      ensures Valid()
      ensures categories == SeedCategories && products == SeedProducts
      ensures orders == [] && counters == Counters(1, 1)
    {
      categories := SeedCategories;
      products := SeedProducts;
      orders := [];
      counters := Counters(1, 1);
    }

    /** `categories.list`: a stable sort by display order, a missing one counting as 0. */
    function ListCategories(): (r: seq<CategoryDto>)
      reads this
      ensures forall i, j :: 0 <= i < j < |r| ==> r[i].displayOrder.GetOr(0) <= r[j].displayOrder.GetOr(0)
      ensures multiset(r) == multiset(categories)
      ensures forall d :: WithKey(r, DisplayOrderOrZero, d) == WithKey(categories, DisplayOrderOrZero, d)
    {
      var r := SortBy(categories, DisplayOrderOrZero);
      assert forall i, j :: 0 <= i < j < |r| ==> DisplayOrderOrZero(r[i]) <= DisplayOrderOrZero(r[j]);
      r
    }

    /** `products.list`: the stored products, as stored. */
    function ListProducts(): (r: seq<ProductDto>)
      reads this
      ensures r == products
    {
      products
    }

    /**
     * `buildOrderItems`: one priced line per requested line, in request order; the line
     * counter advances once per line, so the line ids are consecutive from its old value.
     */
    method BuildOrderItems(request: PlaceOrderRequest) returns (items: seq<OrderItemDto>)
      modifies this
      ensures items == PricedItems(products, request.items, old(counters.orderItemId))
      ensures counters == old(counters).(orderItemId := old(counters.orderItemId) + |request.items|)
      ensures categories == old(categories) && products == old(products) && orders == old(orders)
    {
      var catalogue := products;
      items := [];
      var i := 0;
      while i < |request.items|
        invariant 0 <= i <= |request.items|
        invariant categories == old(categories) && products == old(products) && orders == old(orders)
        invariant items == PricedItems(catalogue, request.items[..i], old(counters.orderItemId))
        invariant counters == old(counters).(orderItemId := old(counters.orderItemId) + i)
      {
        var item := PriceLine(catalogue, request.items[i], counters.orderItemId);
        PricedItemsSnoc(catalogue, request.items, old(counters.orderItemId), i);
        counters := counters.(orderItemId := counters.orderItemId + 1);
        items := items + [item];
        i := i + 1;
      }
      assert request.items[..i] == request.items;
    }

    /**
     * `orders.create`: the total is the sum of the built lines' subtotals; the order takes the
     * next order id, status PENDING and the time `now`, and is put in front of the others.
     */
    method CreateOrder(request: PlaceOrderRequest, now: Timestamp) returns (o: OrderDto)
      requires Valid()
      modifies this
      ensures Valid()
      ensures o.items == PricedItems(products, request.items, old(counters.orderItemId))
      ensures o.totalAmount == Sum(o.items, SubtotalOf)
      ensures o.id == old(counters.orderId) && o.status == Pending && o.createdAt == now
      ensures o.orderType == request.orderType && o.tableNumber == request.tableNumber
      ensures orders == [o] + old(orders)
      ensures counters == Counters(old(counters.orderId) + 1, old(counters.orderItemId) + |request.items|)
      ensures categories == old(categories) && products == old(products)
    {
      var items := BuildOrderItems(request);
      o := OrderDto(counters.orderId, Pending, request.orderType, request.tableNumber,
                    Sum(items, SubtotalOf), now, items);
      ItemsConsistent(products, request.items, old(counters.orderItemId));
      PrependOrderValid(orders, o, counters.orderId, old(counters.orderItemId), counters.orderItemId);
      counters := counters.(orderId := counters.orderId + 1);
      orders := [o] + orders;
    }
  }

  /** Built lines satisfy the order's own bookkeeping and stay below the advanced line counter. */
  lemma ItemsConsistent(products: seq<ProductDto>, lines: seq<CartItemRequest>, firstId: int)
    ensures var items := PricedItems(products, lines, firstId);
      && (forall j :: 0 <= j < |items| ==> items[j].subtotal == items[j].unitPrice * items[j].quantity)
      && KeysBelow(items, ItemIdOf, firstId + |lines|)
  {
  }
}
