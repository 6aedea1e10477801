/**
 * The admin app's browser-local database: one mutable state holding categories,
 * products, orders and four id counters. Every operation works on that state in place
 * (loading and saving it around the call is persistence and is not modelled).
 */
module AdminLocalDb {
  import opened Wrappers
  import opened Text
  import opened Seqs
  import opened Tally
  import opened OrderKinds
  import opened Clock
  import opened Revenue

  /** Shown for a product whose category cannot be resolved. */
  const Uncategorized: string := "未分類"
  /** Recorded for an order line whose product is gone. */
  const UnknownProduct: string := "未知商品"

  datatype Category = Category(id: int, name: string, displayOrder: int, description: string)

  datatype Product = Product(
    id: int, name: string, description: string, price: int,
    categoryId: int, categoryName: string, available: bool, imageUrl: string)

  datatype OrderItem = OrderItem(
    id: int, productName: string, quantity: int, unitPrice: int,
    modifiers: Option<string>, subtotal: int)

  datatype Order = Order(
    id: int, status: OrderStatus, orderType: OrderType, tableNumber: Option<string>,
    totalAmount: int, createdAt: Timestamp, items: seq<OrderItem>)

  datatype Counters = Counters(categoryId: int, productId: int, orderId: int, orderItemId: int)

  /** The body of a category create or update; absent optional fields are `None`. */
  datatype CategoryInput = CategoryInput(name: string, description: Option<string>, displayOrder: Option<int>)

  /** The body of a product create or update (after `Number`/`Boolean` coercion). */
  datatype ProductInput = ProductInput(
    name: string, description: Option<string>, price: int, categoryId: int,
    available: bool, imageUrl: Option<string>)

  datatype LineRequest = LineRequest(productId: int, quantity: int, modifiers: Option<string>)

  datatype PlaceOrderRequest = PlaceOrderRequest(orderType: OrderType, tableNumber: Option<string>, items: seq<LineRequest>)

  /** The errors the store throws. */
  datatype DbError = CategoryNotFound | CategoryInUse | ProductNotFound | OrderNotFound

  datatype TodayStats = TodayStats(todayOrders: int, todayRevenue: int, totalProducts: int, lowStockCount: int)

  function CategoryIdOf(c: Category): int { c.id }
  function DisplayOrderOf(c: Category): int { c.displayOrder }
  function ProductIdOf(p: Product): int { p.id }
  function OrderIdOf(o: Order): int { o.id }
  function ItemIdOf(item: OrderItem): int { item.id }
  function SubtotalOf(item: OrderItem): int { item.subtotal }
  function TotalOf(o: Order): int { o.totalAmount }
  function OrderDayOf(o: Order): int { o.createdAt.day }
  /** Sorting ascending by this key puts the newest order first. */
  function NewestFirst(o: Order): int { -Instant(o.createdAt) }

  /** `value?.trim() || ''` on an optional string. */
  function TrimmedOrEmpty(value: Option<string>): (r: string)
    ensures value.None? ==> r == []
    ensures value.Some? ==> r == Trim(value.value)
  {
    match value
    case None => ""
    case Some(s) => Trim(s)
  }

  /**
   * `category?.name || product.categoryName || '未分類'`: the name of the first category
   * with the product's category id when it is non-empty, else the cached name when that is
   * non-empty, else "未分類". Never empty.
   */
  function ResolveCategoryName(categories: seq<Category>, categoryId: int, cached: string): (r: string)
    ensures r != []
    ensures (forall i :: 0 <= i < |categories| ==> categories[i].id != categoryId) ==>
      r == if cached != [] then cached else Uncategorized
    ensures forall i ::
      (0 <= i < |categories| && categories[i].id == categoryId &&
       forall j :: 0 <= j < i ==> categories[j].id != categoryId) ==>
        r == if categories[i].name != [] then categories[i].name
             else if cached != [] then cached else Uncategorized
  {
    var live := match FindIndex(categories, CategoryIdOf, categoryId)
      case Some(k) => categories[k].name
      case None => "";
    if live != [] then live else if cached != [] then cached else Uncategorized
  }

  /** `ensureCategoryName`: the product with its category name resolved; nothing else changes. */
  function WithCategoryName(categories: seq<Category>, p: Product): (r: Product)
    ensures r.(categoryName := p.categoryName) == p
    ensures r.categoryName == ResolveCategoryName(categories, p.categoryId, p.categoryName)
  {
    p.(categoryName := ResolveCategoryName(categories, p.categoryId, p.categoryName))
  }

  /** `products.map(...)` in `categories.update`: products of category `id` take the new name. */
  function RenameCategory(products: seq<Product>, id: int, name: string): (r: seq<Product>)
    ensures |r| == |products|
    ensures forall i :: 0 <= i < |r| ==>
      r[i] == if products[i].categoryId == id then products[i].(categoryName := name) else products[i]
  {
    seq(|products|, i requires 0 <= i < |products| =>
      if products[i].categoryId == id then products[i].(categoryName := name) else products[i])
  }

  /** `products.map(...)` in `categories.remove`: products of category `id` move to category 0. */
  function DetachCategory(products: seq<Product>, id: int): (r: seq<Product>)
    ensures |r| == |products|
  {
    seq(|products|, i requires 0 <= i < |products| =>
      if products[i].categoryId == id then products[i].(categoryId := 0, categoryName := Uncategorized)
      else products[i])
  }

  /** When no product uses category `id`, the remap in `categories.remove` changes nothing. */
  lemma DetachUnusedCategory(products: seq<Product>, id: int)
    requires forall i :: 0 <= i < |products| ==> products[i].categoryId != id
    ensures DetachCategory(products, id) == products
  {
    var r := DetachCategory(products, id);
    assert forall i :: 0 <= i < |r| ==> r[i] == products[i];
  }

  /**
   * `products.list`: the stored products in order, each with its category name resolved
   * (never empty) and nothing else changed.
   */
  function ListProducts(categories: seq<Category>, products: seq<Product>): (r: seq<Product>)
    ensures |r| == |products|
    ensures forall i :: 0 <= i < |r| ==>
      && r[i].(categoryName := products[i].categoryName) == products[i]
      && r[i].categoryName == ResolveCategoryName(categories, products[i].categoryId, products[i].categoryName)
      && r[i].categoryName != []
  {
    seq(|products|, i requires 0 <= i < |products| => WithCategoryName(categories, products[i]))
  }

  /**
   * After `categories.update` renames category `k` (ids distinct) to a non-empty name, the
   * product list shows that name on every product of the category.
   */
  lemma RenamedCategoryListed(categories: seq<Category>, products: seq<Product>, k: nat, c: Category)
    requires KeysDistinct(categories, CategoryIdOf) && k < |categories|
    requires c.id == categories[k].id && c.name != []
    ensures var listed := ListProducts(categories[k := c], RenameCategory(products, c.id, c.name));
      forall i :: 0 <= i < |products| && products[i].categoryId == c.id ==> listed[i].categoryName == c.name
  {
    var updated := categories[k := c];
    forall j | 0 <= j < k ensures updated[j].id != c.id {
      assert updated[j] == categories[j];
      assert CategoryIdOf(categories[j]) != CategoryIdOf(categories[k]);
    }
    assert updated[k] == c;
    var renamed := RenameCategory(products, c.id, c.name);
    forall i | 0 <= i < |products| && products[i].categoryId == c.id
      ensures ResolveCategoryName(updated, renamed[i].categoryId, renamed[i].categoryName) == c.name
    {
      assert 0 <= k < |updated| && updated[k].id == c.id && forall j :: 0 <= j < k ==> updated[j].id != c.id;
    }
  }

  /**
   * One order line priced from the catalogue at the moment of ordering: the first product
   * with the requested id gives its price and name (an empty name becomes "未知商品"); a
   * missing product gives price 0 and "未知商品". The subtotal is price times quantity.
   */
  function PriceLine(products: seq<Product>, line: LineRequest, id: int): (item: OrderItem)
    ensures item.id == id && item.quantity == line.quantity && item.modifiers == line.modifiers
    ensures item.subtotal == item.unitPrice * line.quantity
  {
    match FindIndex(products, ProductIdOf, line.productId)
    case Some(k) =>
      var name := if products[k].name != [] then products[k].name else UnknownProduct;
      OrderItem(id, name, line.quantity, products[k].price, line.modifiers, products[k].price * line.quantity)
    case None =>
      OrderItem(id, UnknownProduct, line.quantity, 0, line.modifiers, 0)
  }

  /**
   * A priced line takes the price and name of the first product with the requested id, an
   * empty name read as "未知商品", or price 0 and "未知商品" when no product has that id.
   */
  lemma PriceLineFromCatalogue(products: seq<Product>, line: LineRequest, id: int)
    ensures var item := PriceLine(products, line, id);
      && ((forall i :: 0 <= i < |products| ==> products[i].id != line.productId) ==>
            item.unitPrice == 0 && item.productName == UnknownProduct)
      && forall i :: FirstWithKey(products, ProductIdOf, line.productId, i) ==>
           && item.unitPrice == products[i].price
           && item.productName == if products[i].name != [] then products[i].name else UnknownProduct
  {
    match FindIndex(products, ProductIdOf, line.productId)
    case Some(k) => FirstWithKeyUnique(products, ProductIdOf, line.productId, k);
    case None =>
  }

  /** The lines of a new order: one per requested line, in order, with consecutive ids from `firstId`. */
  function PricedItems(products: seq<Product>, lines: seq<LineRequest>, firstId: int): (items: seq<OrderItem>)
    ensures |items| == |lines|
    ensures forall i :: 0 <= i < |lines| ==> items[i] == PriceLine(products, lines[i], firstId + i)
  {
    if lines == [] then []
    else PricedItems(products, lines[..|lines| - 1], firstId) + [PriceLine(products, lines[|lines| - 1], firstId + |lines| - 1)]
  }

  /** An order's own bookkeeping: each subtotal is price times quantity and the total is their sum. */
  ghost predicate Consistent(o: Order) {
    && o.totalAmount == Sum(o.items, SubtotalOf)
    && forall j :: 0 <= j < |o.items| ==> o.items[j].subtotal == o.items[j].unitPrice * o.items[j].quantity
  }

  /** Order ids distinct and below `nextId`, line ids below `nextItemId`, every order consistent. */
  ghost predicate OrdersValid(orders: seq<Order>, nextId: int, nextItemId: int) {
    && Fresh(orders, OrderIdOf, nextId)
    && forall i :: 0 <= i < |orders| ==> Consistent(orders[i]) && KeysBelow(orders[i].items, ItemIdOf, nextItemId)
  }

  /** Putting a consistent order with the next id in front keeps the orders valid. */
  lemma PrependOrderValid(orders: seq<Order>, o: Order, nextId: int, nextItemId: int, newItemId: int)
    requires OrdersValid(orders, nextId, nextItemId) && nextItemId <= newItemId
    requires o.id == nextId && Consistent(o) && KeysBelow(o.items, ItemIdOf, newItemId)
    ensures OrdersValid([o] + orders, nextId + 1, newItemId)
  {
    var r := [o] + orders;
    forall i | 0 <= i < |r| ensures Consistent(r[i]) && KeysBelow(r[i].items, ItemIdOf, newItemId) {
      if i > 0 { assert r[i] == orders[i - 1]; }
    }
    forall i, j | 0 <= i < j < |r| ensures r[i].id != r[j].id {
      assert r[j] == orders[j - 1];
      if i > 0 { assert r[i] == orders[i - 1]; }
    }
  }

  /** Changing an order's status keeps the orders valid. */
  lemma SetStatusValid(orders: seq<Order>, k: nat, status: OrderStatus, nextId: int, nextItemId: int)
    requires OrdersValid(orders, nextId, nextItemId) && k < |orders|
    ensures OrdersValid(orders[k := orders[k].(status := status)], nextId, nextItemId)
  {
  }

  function SaleOf(item: OrderItem): Sale {
    Sale(item.id, item.productName, item.quantity, item.subtotal)
  }

  function ItemSales(items: seq<OrderItem>): (sales: seq<Sale>)
    ensures |sales| == |items|
    ensures forall i :: 0 <= i < |items| ==> sales[i] == SaleOf(items[i])
  {
    seq(|items|, i requires 0 <= i < |items| => SaleOf(items[i]))
  }

  /** The lines of all orders, in storage order, as sales for the top-products tally. */
  function OrderSales(orders: seq<Order>): seq<Sale> {
    if orders == [] then []
    else OrderSales(orders[..|orders| - 1]) + ItemSales(orders[|orders| - 1].items)
  }

  /**
   * `statistics.getTopProducts(limit)`: the per-name tally of every order line, best sellers
   * first (ties in first-sold order), cut by `slice(0, limit)`. Each entry's `firstId` is the
   * id of the first order line sold under its name, which the store reports as `productId`.
   */
  function TopProducts(orders: seq<Order>, limit: int): (r: seq<Group>)
    ensures forall i, j :: 0 <= i < j < |r| ==> r[i].totalSold >= r[j].totalSold
    ensures forall i, j :: 0 <= i < j < |r| ==> r[i].name != r[j].name
    ensures forall i :: 0 <= i < |r| ==>
      && r[i].name in Names(OrderSales(orders))
      && r[i].totalSold == SoldOf(OrderSales(orders), r[i].name)
      && r[i].totalRevenue == RevenueOf(OrderSales(orders), r[i].name)
      && r[i].firstId == FirstIdOf(OrderSales(orders), r[i].name)
    ensures limit >= 0 ==> |r| == if limit < |Names(OrderSales(orders))| then limit else |Names(OrderSales(orders))|
    ensures KeepsBestSellers(NameList(r), OrderSales(orders))
  {
    var gs := GroupByName(OrderSales(orders));
    var sorted := SortBy(gs, MostSoldFirst);
    RankedTallies(gs, sorted, OrderSales(orders));
    RankedPrefix(sorted, JsSliceTo(sorted, limit), OrderSales(orders));
    JsSliceTo(sorted, limit)
  }

  const SeedCategories: seq<Category> := [
    Category(1, "主餐", 0, "飽足主食"),
    Category(2, "飲品", 1, "咖啡與茶飲"),
    Category(3, "點心", 2, "輕食甜點")
  ]

  const SeedProducts: seq<Product> := [
    Product(1, "招牌蛋堡", "經典早餐，溫暖飽足", 55, 1, "主餐", true, ""),
    Product(2, "熱美式", "香醇濃郁", 45, 2, "飲品", true, ""),
    Product(3, "可頌", "酥香柔軟", 40, 3, "點心", true, "")
  ]

  /** The demo order of a fresh store, stamped with the moment the store was seeded. */
  function SeedOrder(now: Timestamp): Order {
    Order(1, Pending, DineIn, Some("A1"), 140, now, [
      OrderItem(1, "招牌蛋堡", 1, 55, None, 55),
      OrderItem(2, "熱美式", 1, 45, None, 45),
      OrderItem(3, "可頌", 1, 40, None, 40)
    ])
  }

  class LocalDb {
    var categories: seq<Category>
    var products: seq<Product>
    var orders: seq<Order>
    var counters: Counters

    /**
     * Each counter is above every id it has handed out, so ids are distinct and fresh;
     * every order line id is below the line counter; every order's total is the sum of
     * its lines' subtotals.
     */
    ghost predicate Valid()
      reads this
    {
      && Fresh(categories, CategoryIdOf, counters.categoryId)
      && Fresh(products, ProductIdOf, counters.productId)
      && OrdersValid(orders, counters.orderId, counters.orderItemId)
    }

    /** `seedState()`: the state a fresh browser starts from. */
    constructor (now: Timestamp)
      ensures Valid()
      ensures categories == SeedCategories && products == SeedProducts && orders == [SeedOrder(now)]
      ensures counters == Counters(4, 4, 2, 4)
    {
      categories := SeedCategories;
      products := SeedProducts;
      orders := [SeedOrder(now)];
      counters := Counters(4, 4, 2, 4);
      assert Sum(SeedOrder(now).items, SubtotalOf) == 140 by {
        var items := SeedOrder(now).items;
        assert items == [items[0]] + ([items[1]] + [items[2]]);
        SumCons(items[0], [items[1]] + [items[2]], SubtotalOf);
        SumCons(items[1], [items[2]], SubtotalOf);
        SumSingle(items[2], SubtotalOf);
      }
    }

    /** `categories.list`: a stable sort of the categories by display order. */
    function ListCategories(): (r: seq<Category>)
      reads this
      ensures forall i, j :: 0 <= i < j < |r| ==> r[i].displayOrder <= r[j].displayOrder
      ensures multiset(r) == multiset(categories)
      ensures forall d :: WithKey(r, DisplayOrderOf, d) == WithKey(categories, DisplayOrderOf, d)
    {
      var r := SortBy(categories, DisplayOrderOf);
      assert forall i, j :: 0 <= i < j < |r| ==> DisplayOrderOf(r[i]) <= DisplayOrderOf(r[j]);
      r
    }

    /**
     * `categories.create`: the id comes from the counter, the name is trimmed, the display
     * order defaults to the number of categories and the description to ""; the new
     * category goes to the end.
     */
    method CreateCategory(input: CategoryInput) returns (c: Category)
      requires Valid()
      modifies this
      ensures Valid()
      ensures c.id == old(counters.categoryId)
      ensures c.name == Trim(input.name)
      ensures c.displayOrder == input.displayOrder.GetOr(old(|categories|))
      ensures c.description == TrimmedOrEmpty(input.description)
      ensures categories == old(categories) + [c]
      ensures counters == old(counters).(categoryId := old(counters.categoryId) + 1)
      ensures products == old(products) && orders == old(orders)
    {
      c := Category(counters.categoryId, Trim(input.name),
                    input.displayOrder.GetOr(|categories|), TrimmedOrEmpty(input.description));
      counters := counters.(categoryId := counters.categoryId + 1);
      categories := categories + [c];
    }

    /**
     * `categories.update`: an unknown id throws and changes nothing; otherwise the first
     * category with that id takes the trimmed name, the given display order (the old one
     * when none is given) and the description, and exactly the products of that category
     * take the new name as their cached category name.
     */
    method UpdateCategory(id: int, input: CategoryInput) returns (r: Result<Category, DbError>)
      requires Valid()
      modifies this
      ensures Valid()
      ensures counters == old(counters) && orders == old(orders)
      ensures (forall i :: 0 <= i < |old(categories)| ==> old(categories)[i].id != id) <==> r.Failure?
      ensures r.Failure? ==> r.error == CategoryNotFound && categories == old(categories) && products == old(products)
      ensures r.Success? ==>
        && r.value.id == id
        && r.value.name == Trim(input.name)
        && r.value.description == TrimmedOrEmpty(input.description)
        && (exists k :: && 0 <= k < |old(categories)| && old(categories)[k].id == id
                        && r.value.displayOrder == input.displayOrder.GetOr(old(categories)[k].displayOrder)
                        && categories == old(categories)[k := r.value])
        && products == RenameCategory(old(products), id, r.value.name)
    {
      match FindIndex(categories, CategoryIdOf, id)
      case None =>
        r := Failure(CategoryNotFound);
      case Some(k) =>
        var c := categories[k].(name := Trim(input.name),
                                displayOrder := input.displayOrder.GetOr(categories[k].displayOrder),
                                description := TrimmedOrEmpty(input.description));
        categories := categories[k := c];
        products := RenameCategory(products, id, c.name);
        r := Success(c);
    }

    /**
     * `categories.remove`: an unknown id throws, and so does a category some product still
     * uses; otherwise exactly that category is spliced out and nothing else changes.
     */
    method RemoveCategory(id: int) returns (r: Result<bool, DbError>)
      requires Valid()
      modifies this
      ensures Valid()
      ensures counters == old(counters) && orders == old(orders) && products == old(products)
      ensures (forall i :: 0 <= i < |old(categories)| ==> old(categories)[i].id != id) <==>
        r == Failure(CategoryNotFound)
      ensures (exists i :: 0 <= i < |old(categories)| && old(categories)[i].id == id) &&
              (exists i :: 0 <= i < |products| && products[i].categoryId == id) <==>
        r == Failure(CategoryInUse)
      ensures (exists i :: 0 <= i < |old(categories)| && old(categories)[i].id == id) &&
              (forall i :: 0 <= i < |products| ==> products[i].categoryId != id) <==>
        r.Success?
      ensures r.Failure? ==> categories == old(categories)
      ensures r.Success? ==>
        && r.value
        && (exists k :: 0 <= k < |old(categories)| && old(categories)[k].id == id &&
                        categories == RemoveAt(old(categories), k))
        && forall c :: c in categories <==> c in old(categories) && c.id != id
    {
      match FindIndex(categories, CategoryIdOf, id)
      case None =>
        r := Failure(CategoryNotFound);
      case Some(k) =>
        if exists i :: 0 <= i < |products| && products[i].categoryId == id {
          r := Failure(CategoryInUse);
        } else {
          RemoveByUniqueKey(categories, CategoryIdOf, k);
          categories := RemoveAt(categories, k);
          DetachUnusedCategory(products, id);
          products := DetachCategory(products, id);
          r := Success(true);
        }
    }

    /**
     * `products.create`: the id comes from the counter, the name is trimmed, missing
     * description and image become "", and the category name is resolved from the live
     * category alone (the new product caches nothing yet); the product goes to the end.
     */
    method CreateProduct(input: ProductInput) returns (p: Product)
      requires Valid()
      modifies this
      ensures Valid()
      ensures p.id == old(counters.productId)
      ensures p.name == Trim(input.name) && p.description == OrEmpty(input.description)
      ensures p.price == input.price && p.categoryId == input.categoryId
      ensures p.available == input.available && p.imageUrl == OrEmpty(input.imageUrl)
      ensures p.categoryName == ResolveCategoryName(categories, input.categoryId, "")
      ensures products == old(products) + [p]
      ensures counters == old(counters).(productId := old(counters.productId) + 1)
      ensures categories == old(categories) && orders == old(orders)
    {
      var draft := Product(counters.productId, Trim(input.name), OrEmpty(input.description), input.price,
                           input.categoryId, "", input.available, OrEmpty(input.imageUrl));
      counters := counters.(productId := counters.productId + 1);
      p := WithCategoryName(categories, draft);
      products := products + [p];
    }

    /**
     * `products.update`: an unknown id throws and changes nothing; otherwise the first product
     * with that id keeps its id, takes the six submitted fields, and resolves its category
     * name with its previously cached name as the fallback.
     */
    method UpdateProduct(id: int, input: ProductInput) returns (r: Result<Product, DbError>)
      requires Valid()
      modifies this
      ensures Valid()
      ensures counters == old(counters) && categories == old(categories) && orders == old(orders)
      ensures (forall i :: 0 <= i < |old(products)| ==> old(products)[i].id != id) <==> r.Failure?
      ensures r.Failure? ==> r.error == ProductNotFound && products == old(products)
      ensures r.Success? ==>
        && r.value.id == id
        && r.value.name == Trim(input.name) && r.value.description == OrEmpty(input.description)
        && r.value.price == input.price && r.value.categoryId == input.categoryId
        && r.value.available == input.available && r.value.imageUrl == OrEmpty(input.imageUrl)
        && exists k :: && 0 <= k < |old(products)| && old(products)[k].id == id
                       && r.value.categoryName == ResolveCategoryName(categories, input.categoryId, old(products)[k].categoryName)
                       && products == old(products)[k := r.value]
    {
      match FindIndex(products, ProductIdOf, id)
      case None =>
        r := Failure(ProductNotFound);
      case Some(k) =>
        var edited := products[k].(name := Trim(input.name), description := OrEmpty(input.description),
                                   price := input.price, categoryId := input.categoryId,
                                   available := input.available, imageUrl := OrEmpty(input.imageUrl));
        var normalized := WithCategoryName(categories, edited);
        products := products[k := normalized];
        r := Success(normalized);
    }

    /** `products.remove`: an unknown id throws; otherwise exactly that product is spliced out. */
    method RemoveProduct(id: int) returns (r: Result<bool, DbError>)
      requires Valid()
      modifies this
      ensures Valid()
      ensures counters == old(counters) && categories == old(categories) && orders == old(orders)
      ensures (forall i :: 0 <= i < |old(products)| ==> old(products)[i].id != id) <==> r.Failure?
      ensures r.Failure? ==> r.error == ProductNotFound && products == old(products)
      ensures r.Success? ==>
        && r.value
        && (exists k :: 0 <= k < |old(products)| && old(products)[k].id == id &&
                        products == RemoveAt(old(products), k))
        && forall p :: p in products <==> p in old(products) && p.id != id
    {
      match FindIndex(products, ProductIdOf, id)
      case None =>
        r := Failure(ProductNotFound);
      case Some(k) =>
        RemoveByUniqueKey(products, ProductIdOf, k);
        products := RemoveAt(products, k);
        r := Success(true);
    }

    /** `orders.list`: a stable sort of the orders, newest first. */
    function ListOrders(): (r: seq<Order>)
      reads this
      ensures forall i, j :: 0 <= i < j < |r| ==> Instant(r[i].createdAt) >= Instant(r[j].createdAt)
      ensures multiset(r) == multiset(orders)
      ensures forall t :: WithKey(r, NewestFirst, t) == WithKey(orders, NewestFirst, t)
    {
      var r := SortBy(orders, NewestFirst);
      assert forall i, j :: 0 <= i < j < |r| ==> NewestFirst(r[i]) <= NewestFirst(r[j]);
      r
    }

    /** `statistics.getToday`: every stored order counts, whatever its date; low stock is always 0. */
    function GetToday(): (stats: TodayStats)
      reads this
      ensures stats.todayOrders == |orders| && stats.totalProducts == |products| && stats.lowStockCount == 0
      ensures stats.todayRevenue == Sum(orders, TotalOf)
    {
      TodayStats(|orders|, Sum(orders, TotalOf), |products|, 0)
    }

    /**
     * `orders.create`: the lines are priced from the current catalogue, one line id each from
     * the line counter; the total is the sum of the subtotals; the order takes the next order
     * id, status PENDING and the time `now`, and is put in front of the others.
     */
    method CreateOrder(request: PlaceOrderRequest, now: Timestamp) returns (o: Order)
      requires Valid()
      modifies this
      ensures Valid()
      ensures o.items == PricedItems(products, request.items, old(counters.orderItemId))
      ensures o.totalAmount == Sum(o.items, SubtotalOf)
      ensures o.id == old(counters.orderId) && o.status == Pending && o.createdAt == now
      ensures o.orderType == request.orderType && o.tableNumber == request.tableNumber
      ensures orders == [o] + old(orders)
      ensures counters == old(counters).(orderId := old(counters.orderId) + 1,
                                         orderItemId := old(counters.orderItemId) + |request.items|)
      ensures categories == old(categories) && products == old(products)
      ensures GetToday().todayOrders == old(GetToday().todayOrders) + 1
      ensures GetToday().todayRevenue == old(GetToday().todayRevenue) + o.totalAmount
    {
      var items := PriceRequestLines(request.items);
      o := Order(counters.orderId, Pending, request.orderType, request.tableNumber,
                 Sum(items, SubtotalOf), now, items);
      ItemsConsistent(products, request.items, old(counters.orderItemId));
      PrependOrderValid(orders, o, counters.orderId, old(counters.orderItemId), counters.orderItemId);
      SumCons(o, orders, TotalOf);
      counters := counters.(orderId := counters.orderId + 1);
      orders := [o] + orders;
    }

    /** The `data.items.map(...)` of `orders.create`: prices each line, taking one line id per line. */
    method PriceRequestLines(lines: seq<LineRequest>) returns (items: seq<OrderItem>)
      modifies this
      ensures items == PricedItems(products, lines, old(counters.orderItemId))
      ensures counters == old(counters).(orderItemId := old(counters.orderItemId) + |lines|)
      ensures categories == old(categories) && products == old(products) && orders == old(orders)
    {
      items := [];
      var i := 0;
      while i < |lines|
        invariant 0 <= i <= |lines|
        invariant categories == old(categories) && products == old(products) && orders == old(orders)
        invariant items == PricedItems(products, lines[..i], old(counters.orderItemId))
        invariant counters == old(counters).(orderItemId := old(counters.orderItemId) + i)
      {
        var item := PriceLine(products, lines[i], counters.orderItemId);
        counters := counters.(orderItemId := counters.orderItemId + 1);
        assert lines[..i + 1][..i] == lines[..i];
        items := items + [item];
        i := i + 1;
      }
      assert lines[..i] == lines;
    }

    /** `orders.updateStatus`: an unknown id throws; otherwise only that order's status changes. */
    method UpdateStatus(id: int, status: OrderStatus) returns (r: Result<Order, DbError>)
      requires Valid()
      modifies this
      ensures Valid()
      ensures counters == old(counters) && categories == old(categories) && products == old(products)
      ensures (forall i :: 0 <= i < |old(orders)| ==> old(orders)[i].id != id) <==> r.Failure?
      ensures r.Failure? ==> r.error == OrderNotFound && orders == old(orders)
      ensures r.Success? ==>
        exists k :: && 0 <= k < |old(orders)| && old(orders)[k].id == id
                    && r.value == old(orders)[k].(status := status)
                    && orders == old(orders)[k := r.value]
    {
      match FindIndex(orders, OrderIdOf, id)
      case None =>
        r := Failure(OrderNotFound);
      case Some(k) =>
        var updated := orders[k].(status := status);
        SetStatusValid(orders, k, status, counters.orderId, counters.orderItemId);
        orders := orders[k := updated];
        r := Success(updated);
    }

    /**
     * `statistics.getRevenue(days)`: one bucket per day from `today - (days - 1)` to `today`,
     * oldest first (none when `days <= 0`); each bucket holds the total of the orders created
     * on its day; together they hold exactly the revenue of the orders inside the window.
     */
    method GetRevenue(days: int, today: int) returns (buckets: seq<Bucket>)
      ensures |buckets| == if days > 0 then days else 0
      ensures forall j :: 0 <= j < |buckets| ==>
        buckets[j].date == today - (days - 1) + j && buckets[j].revenue == DaySum(orders, OrderDayOf, TotalOf, buckets[j].date)
      ensures Sum(buckets, BucketRevenue) == WindowSum(orders, OrderDayOf, TotalOf, today - (days - 1), |buckets|)
    {
      buckets := DailySeries(orders, OrderDayOf, TotalOf, days, today);
    }

    /** `statistics.getTopProducts(limit)`: the tally of every order line, ranked and cut. */
    method GetTopProducts(limit: int) returns (top: seq<Group>)
      ensures top == TopProducts(orders, limit)
    {
      var tally: seq<Group> := [];
      var i := 0;
      while i < |orders|
        invariant 0 <= i <= |orders|
        invariant tally == GroupByName(OrderSales(orders[..i]))
      {
        tally := RecordItems(tally, OrderSales(orders[..i]), orders[i].items);
        OrderSalesSnoc(orders, i);
        i := i + 1;
      }
      assert orders[..i] == orders;
      top := JsSliceTo(SortBy(tally, MostSoldFirst), limit);
    }
  }

  /** The inner `forEach` over one order's lines, each recorded in turn. */
  method RecordItems(tally: seq<Group>, ghost before: seq<Sale>, items: seq<OrderItem>) returns (updated: seq<Group>)
    requires tally == GroupByName(before)
    ensures updated == GroupByName(before + ItemSales(items[..|items|]))
  {
    updated := tally;
    assert before + ItemSales(items[..0]) == before;
    var j := 0;
    while j < |items|
      invariant 0 <= j <= |items|
      invariant updated == GroupByName(before + ItemSales(items[..j]))
    {
      SalesSnoc(before, items, j);
      updated := Record(updated, SaleOf(items[j]));
      j := j + 1;
    }
  }

  /** `tally.get(name)` then either bumping the entry found or `tally.set` of a new one. */
  method Record(tally: seq<Group>, sale: Sale) returns (updated: seq<Group>)
    ensures updated == AddSale(tally, sale)
  {
    match FindGroup(tally, sale.name) {
      case Some(m) =>
        updated := tally[m := tally[m].(totalSold := tally[m].totalSold + sale.quantity,
                                        totalRevenue := tally[m].totalRevenue + sale.subtotal)];
      case None =>
        updated := tally + [Group(sale.id, sale.name, sale.quantity, sale.subtotal)];
    }
  }

  /** One more order line is one more tally step. */
  lemma SalesSnoc(before: seq<Sale>, items: seq<OrderItem>, j: nat)
    requires j < |items|
    ensures GroupByName(before + ItemSales(items[..j + 1]))
         == AddSale(GroupByName(before + ItemSales(items[..j])), SaleOf(items[j]))
  {
    assert ItemSales(items[..j + 1]) == ItemSales(items[..j]) + [SaleOf(items[j])];
    assert before + ItemSales(items[..j + 1]) == (before + ItemSales(items[..j])) + [SaleOf(items[j])];
    GroupByNameSnoc(before + ItemSales(items[..j]), SaleOf(items[j]));
  }

  /** The sales of one more order are its lines' sales appended. */
  lemma OrderSalesSnoc(orders: seq<Order>, i: nat)
    requires i < |orders|
    ensures OrderSales(orders[..i + 1]) == OrderSales(orders[..i]) + ItemSales(orders[i].items[..|orders[i].items|])
  {
    assert orders[..i + 1][..i] == orders[..i];
    assert orders[i].items[..|orders[i].items|] == orders[i].items;
  }

  /** The lines `orders.create` builds satisfy the order's own bookkeeping, and stay below the line counter. */
  lemma ItemsConsistent(products: seq<Product>, lines: seq<LineRequest>, firstId: int)
    ensures var items := PricedItems(products, lines, firstId);
      && (forall j :: 0 <= j < |items| ==> items[j].subtotal == items[j].unitPrice * items[j].quantity)
      && KeysBelow(items, ItemIdOf, firstId + |lines|)
  {
  }
}
