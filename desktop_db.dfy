/**
 * The desktop app's SQLite handlers: four tables (categories, products, orders,
 * order_items), each a sequence of rows in rowid order with an AUTOINCREMENT counter, and
 * each handler as the effect of its SQL statements on those rows.
 */
module DesktopDb {
  import opened Wrappers
  import opened Text
  import opened Seqs
  import opened Tally
  import opened OrderKinds
  import opened Clock
  import opened Revenue

  /** Shown when the join finds no category name. */
  const Uncategorized: string := "未分類"
  /** Recorded for an order line whose product is gone. */
  const UnknownProduct: string := "未知商品"

  datatype CategoryRow = CategoryRow(id: int, name: string, description: string, displayOrder: int)

  /** A `products` row; `available` is the stored integer flag. */
  datatype ProductRow = ProductRow(
    id: int, name: string, description: string, price: int,
    categoryId: int, available: int, imageUrl: string)

  datatype OrderRow = OrderRow(
    id: int, status: OrderStatus, orderType: OrderType, tableNumber: Option<string>,
    totalAmount: int, createdAt: Timestamp)

  datatype OrderItemRow = OrderItemRow(
    id: int, orderId: int, productId: int, productName: string, quantity: int,
    unitPrice: int, modifiers: Option<string>, subtotal: int)

  /** A product as the product queries return it: joined category name and a boolean flag. */
  datatype ProductView = ProductView(
    id: int, name: string, description: string, price: int, available: bool,
    imageUrl: string, categoryName: string, categoryId: int)

  datatype ItemView = ItemView(
    id: int, productName: string, quantity: int, unitPrice: int,
    modifiers: Option<string>, subtotal: int)

  datatype OrderView = OrderView(
    id: int, status: OrderStatus, orderType: OrderType, tableNumber: Option<string>,
    totalAmount: int, createdAt: Timestamp, items: seq<ItemView>)

  /** A priced line of `createOrder` before it is written (the JavaScript `items` array). */
  datatype PendingItem = PendingItem(
    productId: int, productName: string, quantity: int, unitPrice: int,
    modifiers: Option<string>, subtotal: int)

  datatype CategoryInput = CategoryInput(name: string, description: Option<string>, displayOrder: Option<int>)

  datatype ProductInput = ProductInput(
    name: string, description: Option<string>, price: int, categoryId: int,
    available: bool, imageUrl: Option<string>)

  datatype LineRequest = LineRequest(productId: int, quantity: int, modifiers: Option<string>)

  datatype PlaceOrderRequest = PlaceOrderRequest(orderType: OrderType, tableNumber: Option<string>, items: seq<LineRequest>)

  datatype StatisticsToday = StatisticsToday(todayRevenue: int, todayOrders: int, totalProducts: int, lowStockCount: int)

  /** `productId` is the row's rank, counted from 1. */
  datatype TopProduct = TopProduct(productId: int, productName: string, totalSold: int, totalRevenue: int)

  datatype DesktopError = CategoryInUse

  function CategoryIdOf(c: CategoryRow): int { c.id }
  function DisplayOrderOf(c: CategoryRow): int { c.displayOrder }
  function ProductIdOf(p: ProductRow): int { p.id }
  function ProductCategoryOf(p: ProductRow): int { p.categoryId }
  /** Sorting ascending by this key is `ORDER BY id DESC`. */
  function IdDescending(p: ProductRow): int { -p.id }
  function OrderIdOf(o: OrderRow): int { o.id }
  function ItemIdOf(item: OrderItemRow): int { item.id }
  function ItemOrderIdOf(item: OrderItemRow): int { item.orderId }
  function OrderDayOf(o: OrderRow): int { o.createdAt.day }
  function TotalOf(o: OrderRow): int { o.totalAmount }
  function One(o: OrderRow): int { 1 }
  function PendingSubtotal(item: PendingItem): int { item.subtotal }
  /** Sorting ascending by this key is `ORDER BY created_at DESC`. */
  function NewestFirst(o: OrderRow): int { -Instant(o.createdAt) }

  /** `value || null`: an empty string is stored as NULL. */
  function OrNull(value: Option<string>): (r: Option<string>)
    ensures r.Some? <==> value.Some? && value.value != []
    ensures r.Some? ==> r == value
  {
    if value.Some? && value.value != [] then value else None
  }

  /**
   * `c.name` of `LEFT JOIN categories c ON c.id = p.category_id`, then `|| '未分類'`: the
   * name of the category with that id when it is non-empty, else "未分類".
   */
  function JoinedCategoryName(categories: seq<CategoryRow>, categoryId: int): (r: string)
    ensures r != []
    ensures (forall i :: 0 <= i < |categories| ==> categories[i].id != categoryId) ==> r == Uncategorized
    ensures forall i ::
      (0 <= i < |categories| && categories[i].id == categoryId &&
       forall j :: 0 <= j < i ==> categories[j].id != categoryId) ==>
        r == if categories[i].name != [] then categories[i].name else Uncategorized
  {
    match FindIndex(categories, CategoryIdOf, categoryId)
    case Some(k) => if categories[k].name != [] then categories[k].name else Uncategorized
    case None => Uncategorized
  }

  /** One product row as the product queries present it. */
  function View(categories: seq<CategoryRow>, p: ProductRow): (v: ProductView)
    ensures v.id == p.id && v.name == p.name && v.description == p.description && v.price == p.price
    ensures v.imageUrl == p.imageUrl && v.categoryId == p.categoryId
    ensures v.available <==> p.available != 0
    ensures v.categoryName == JoinedCategoryName(categories, p.categoryId)
  {
    ProductView(p.id, p.name, p.description, p.price, p.available != 0, p.imageUrl,
                JoinedCategoryName(categories, p.categoryId), p.categoryId)
  }

  /** `listProducts`: every product row, newest id first, presented by `View`. */
  function ListProducts(categories: seq<CategoryRow>, products: seq<ProductRow>): (r: seq<ProductView>)
    ensures |r| == |products|
    ensures forall i, j :: 0 <= i < j < |r| ==> r[i].id >= r[j].id
    ensures forall i :: 0 <= i < |r| ==> exists k :: 0 <= k < |products| && r[i] == View(categories, products[k])
    ensures forall k :: 0 <= k < |products| ==> View(categories, products[k]) in r
    ensures multiset(r) == multiset(Views(categories, products))
  {
    var sorted := SortBy(products, IdDescending);
    var r := Views(categories, sorted);
    ViewsOfReordering(categories, products, sorted);
    ViewsPermutation(categories, sorted, products);
    forall i, j | 0 <= i < j < |r| ensures r[i].id >= r[j].id {
      assert IdDescending(sorted[i]) <= IdDescending(sorted[j]);
    }
    r
  }

  function Views(categories: seq<CategoryRow>, rows: seq<ProductRow>): (r: seq<ProductView>)
    ensures |r| == |rows| && forall i :: 0 <= i < |rows| ==> r[i] == View(categories, rows[i])
  {
    seq(|rows|, i requires 0 <= i < |rows| => View(categories, rows[i]))
  }

  /** Presenting a reordering of the rows presents each row exactly where the reordering put it. */
  lemma ViewsOfReordering(categories: seq<CategoryRow>, products: seq<ProductRow>, sorted: seq<ProductRow>)
    requires multiset(sorted) == multiset(products)
    ensures forall i :: 0 <= i < |sorted| ==> exists k :: 0 <= k < |products| && Views(categories, sorted)[i] == View(categories, products[k])
    ensures forall k :: 0 <= k < |products| ==> View(categories, products[k]) in Views(categories, sorted)
  {
    var r := Views(categories, sorted);
    forall i | 0 <= i < |sorted| ensures exists k :: 0 <= k < |products| && r[i] == View(categories, products[k]) {
      assert sorted[i] in multiset(sorted);
      assert sorted[i] in products;
    }
    forall k | 0 <= k < |products| ensures View(categories, products[k]) in r {
      assert products[k] in multiset(products);
      assert products[k] in sorted;
      var i :| 0 <= i < |sorted| && sorted[i] == products[k];
      assert r[i] == View(categories, products[k]);
    }
  }

  /** Presenting a concatenation presents each part in turn. */
  lemma ViewsAppend(categories: seq<CategoryRow>, a: seq<ProductRow>, b: seq<ProductRow>)
    ensures multiset(Views(categories, a + b)) == multiset(Views(categories, a)) + multiset(Views(categories, b))
  {
    assert Views(categories, a + b) == Views(categories, a) + Views(categories, b);
  }

  /** Presenting two reorderings of the same rows gives the same views, as often each. */
  lemma {:induction false} ViewsPermutation(categories: seq<CategoryRow>, a: seq<ProductRow>, b: seq<ProductRow>)
    requires multiset(a) == multiset(b)
    ensures multiset(Views(categories, a)) == multiset(Views(categories, b))
  {
    if a != [] {
      var x := a[|a| - 1];
      assert x in multiset(b);
      var k :| 0 <= k < |b| && b[k] == x;
      var a', b' := a[..|a| - 1], b[..k] + b[k + 1..];
      assert a == a' + [x];
      assert b == b[..k] + [x] + b[k + 1..];
      assert multiset(b') == multiset(b) - multiset{x};
      ViewsPermutation(categories, a', b');
      ViewsAppend(categories, a', [x]);
      ViewsAppend(categories, b[..k] + [x], b[k + 1..]);
      ViewsAppend(categories, b[..k], [x]);
      ViewsAppend(categories, b[..k], b[k + 1..]);
    } else {
      assert b == [];
    }
  }

  /** `getProductById`: the first row with that id, presented by `View`; `None` is `null`. */
  function GetProductById(categories: seq<CategoryRow>, products: seq<ProductRow>, id: int): (r: Option<ProductView>)
    ensures (forall i :: 0 <= i < |products| ==> products[i].id != id) <==> r.None?
    ensures forall i :: FirstWithKey(products, ProductIdOf, id, i) ==> r == Some(View(categories, products[i]))
  {
    match FindIndex(products, ProductIdOf, id)
    case Some(k) =>
      assert FirstWithKey(products, ProductIdOf, id, k);
      FirstWithKeyUnique(products, ProductIdOf, id, k);
      Some(View(categories, products[k]))
    case None => None
  }

  /** `UPDATE categories SET name, description, display_order WHERE id = ?`. */
  function UpdateCategoryRows(categories: seq<CategoryRow>, id: int, name: string, description: string, displayOrder: int): (r: seq<CategoryRow>)
    ensures |r| == |categories|
    ensures forall i :: 0 <= i < |r| ==>
      r[i] == if categories[i].id == id then CategoryRow(id, name, description, displayOrder) else categories[i]
  {
    seq(|categories|, i requires 0 <= i < |categories| =>
      if categories[i].id == id then CategoryRow(id, name, description, displayOrder) else categories[i])
  }

  /** `UPDATE products SET name, description, price, category_id, available, image_url WHERE id = ?`. */
  function UpdateProductRows(products: seq<ProductRow>, id: int, values: ProductRow): (r: seq<ProductRow>)
    requires values.id == id
    ensures |r| == |products|
    ensures forall i :: 0 <= i < |r| ==> r[i] == if products[i].id == id then values else products[i]
  {
    seq(|products|, i requires 0 <= i < |products| => if products[i].id == id then values else products[i])
  }

  /**
   * Rewriting the rows of an id keeps the ids fresh; the rewritten row is what
   * `getProductById` then finds, and an absent id leaves the table as it was.
   */
  lemma UpdatedProductReadBack(categories: seq<CategoryRow>, products: seq<ProductRow>, id: int, values: ProductRow, bound: int)
    requires values.id == id && Fresh(products, ProductIdOf, bound)
    ensures Fresh(UpdateProductRows(products, id, values), ProductIdOf, bound)
    ensures (exists i :: 0 <= i < |products| && products[i].id == id) ==>
      GetProductById(categories, UpdateProductRows(products, id, values), id) == Some(View(categories, values))
    ensures (forall i :: 0 <= i < |products| ==> products[i].id != id) ==> UpdateProductRows(products, id, values) == products
  {
    var r := UpdateProductRows(products, id, values);
    assert forall i :: 0 <= i < |r| ==> ProductIdOf(r[i]) == ProductIdOf(products[i]);
    if k :| 0 <= k < |products| && products[k].id == id {
      assert FirstWithKey(r, ProductIdOf, id, k);
    } else {
      assert r == products;
    }
  }

  /** A row appended under a fresh id keeps the ids fresh and is what `getProductById` finds. */
  lemma AppendedProductReadBack(categories: seq<CategoryRow>, products: seq<ProductRow>, row: ProductRow)
    requires Fresh(products, ProductIdOf, row.id)
    ensures Fresh(products + [row], ProductIdOf, row.id + 1)
    ensures GetProductById(categories, products + [row], row.id) == Some(View(categories, row))
  {
    var all := products + [row];
    assert forall i :: 0 <= i < |products| ==> all[i] == products[i];
    assert FirstWithKey(all, ProductIdOf, row.id, |products|);
  }

  /** The row values `createProduct` and `updateProduct` write for a request body. */
  function ProductValues(id: int, input: ProductInput): (p: ProductRow)
    ensures p.id == id && p.name == Trim(input.name) && p.description == OrEmpty(input.description)
    ensures p.price == input.price && p.categoryId == input.categoryId && p.imageUrl == OrEmpty(input.imageUrl)
    ensures p.available == if input.available then 1 else 0
  {
    ProductRow(id, Trim(input.name), OrEmpty(input.description), input.price, input.categoryId,
               if input.available then 1 else 0, OrEmpty(input.imageUrl))
  }

  /** The next rowid of each table's AUTOINCREMENT sequence. */
  datatype NextIds = NextIds(categories: int, products: int, orders: int, orderItems: int)

  /** The three seeded categories, numbered from `first`. */
  function SeedCategoryRows(first: int): seq<CategoryRow> {
    [ CategoryRow(first, "主餐", "飽足主食", 0),
      CategoryRow(first + 1, "飲品", "咖啡與茶飲", 1),
      CategoryRow(first + 2, "點心", "輕食甜點", 2) ]
  }

  /** The three seeded products, numbered from `first`; their category ids are the literals 1, 2, 3. */
  function SeedProductRows(first: int): seq<ProductRow> {
    [ ProductRow(first, "招牌蛋堡", "經典早餐，溫暖飽足", 55, 1, 1, ""),
      ProductRow(first + 1, "熱美式", "香醇濃郁", 45, 2, 1, ""),
      ProductRow(first + 2, "可頌", "酥香柔軟", 40, 3, 1, "") ]
  }

  /**
   * The seeded rows take fresh ids: the categories replace an empty table and the products
   * follow the existing rows.
   */
  lemma SeedRowsFresh(products: seq<ProductRow>, firstCategory: int, firstProduct: int)
    requires Fresh(products, ProductIdOf, firstProduct)
    ensures Fresh(SeedCategoryRows(firstCategory), CategoryIdOf, firstCategory + 3)
    ensures Fresh(products + SeedProductRows(firstProduct), ProductIdOf, firstProduct + 3)
  {
    var all := products + SeedProductRows(firstProduct);
    assert forall i :: 0 <= i < |products| ==> all[i] == products[i];
    assert forall i :: |products| <= i < |all| ==> all[i].id == firstProduct + (i - |products|);
  }

  /**
   * The seeded products name their categories by the literals 1, 2 and 3: when the
   * seeded categories are numbered from 1 each product joins its own category; when they
   * are numbered from beyond 3 every seeded product joins none.
   */
  lemma SeedJoins(firstCategory: int, firstProduct: int)
    ensures firstCategory == 1 ==> forall k :: 0 <= k < 3 ==>
      JoinedCategoryName(SeedCategoryRows(firstCategory), SeedProductRows(firstProduct)[k].categoryId)
        == SeedCategoryRows(firstCategory)[k].name
    ensures firstCategory > 3 ==> forall p :: p in SeedProductRows(firstProduct) ==>
      JoinedCategoryName(SeedCategoryRows(firstCategory), p.categoryId) == Uncategorized
  {
    var cs, ps := SeedCategoryRows(firstCategory), SeedProductRows(firstProduct);
    if firstCategory == 1 {
      forall k | 0 <= k < 3
        ensures JoinedCategoryName(cs, ps[k].categoryId) == cs[k].name
      {
        assert ps[k].categoryId == cs[k].id == k + 1;
        assert forall j :: 0 <= j < k ==> cs[j].id != k + 1;
      }
    }
  }

  /**
   * `getOrderById`: the first order row with that id and, as its items, the item rows of
   * that order in table order; `None` is `null`.
   */
  function GetOrderById(orders: seq<OrderRow>, orderItems: seq<OrderItemRow>, id: int): (r: Option<OrderView>)
    ensures (forall i :: 0 <= i < |orders| ==> orders[i].id != id) <==> r.None?
    ensures forall i :: FirstWithKey(orders, OrderIdOf, id, i) ==>
        && r.Some?
        && r.value.id == id && r.value.status == orders[i].status && r.value.orderType == orders[i].orderType
        && r.value.tableNumber == orders[i].tableNumber && r.value.totalAmount == orders[i].totalAmount
        && r.value.createdAt == orders[i].createdAt
        && r.value.items == ItemViews(WithKey(orderItems, ItemOrderIdOf, id))
  {
    match FindIndex(orders, OrderIdOf, id)
    case Some(k) =>
      assert FirstWithKey(orders, OrderIdOf, id, k);
      FirstWithKeyUnique(orders, OrderIdOf, id, k);
      Some(OrderViewOf(orderItems, orders[k]))
    case None => None
  }

  /** An order row with its items (`{ ...order, items: getOrderItems(order.id) }`). */
  function OrderViewOf(orderItems: seq<OrderItemRow>, o: OrderRow): OrderView {
    OrderView(o.id, o.status, o.orderType, o.tableNumber, o.totalAmount, o.createdAt,
              ItemViews(WithKey(orderItems, ItemOrderIdOf, o.id)))
  }

  /** `ORDER BY created_at DESC`, ties in table order. */
  function NewestFirstRows(orders: seq<OrderRow>): (r: seq<OrderRow>)
    ensures forall i, j :: 0 <= i < j < |r| ==> Instant(r[i].createdAt) >= Instant(r[j].createdAt)
    ensures multiset(r) == multiset(orders) && |r| == |orders|
    ensures forall t :: WithKey(r, NewestFirst, t) == WithKey(orders, NewestFirst, t)
  {
    var r := SortBy(orders, NewestFirst);
    assert forall i, j :: 0 <= i < j < |r| ==> NewestFirst(r[i]) <= NewestFirst(r[j]);
    r
  }

  /**
   * `filter` on the listed orders by the date of `createdAt`: the orders of day `d`, whose
   * count and total are that day's order count and revenue.
   */
  function OrdersOn(rows: seq<OrderRow>, d: int): (r: seq<OrderRow>)
    ensures forall i :: 0 <= i < |r| ==> r[i].createdAt.day == d && r[i] in rows
    ensures |r| == DaySum(rows, OrderDayOf, One, d)
    ensures Sum(r, TotalOf) == DaySum(rows, OrderDayOf, TotalOf, d)
  {
    if rows == [] then []
    else
      var last := rows[|rows| - 1];
      var init := OrdersOn(rows[..|rows| - 1], d);
      if last.createdAt.day == d then
        assert (init + [last])[..|init|] == init;
        init + [last]
      else init
  }

  function ItemSaleOf(item: OrderItemRow): Sale {
    Sale(item.id, item.productName, item.quantity, item.subtotal)
  }

  /** The `order_items` rows as sold lines, in table order. */
  function ItemSales(rows: seq<OrderItemRow>): (sales: seq<Sale>)
    ensures |sales| == |rows| && forall i :: 0 <= i < |rows| ==> sales[i] == ItemSaleOf(rows[i])
  {
    seq(|rows|, i requires 0 <= i < |rows| => ItemSaleOf(rows[i]))
  }

  /** The `map((row, index) => ...)` of `getTopProducts`: each row numbered by its rank from 1. */
  function Ranks(gs: seq<Group>): (r: seq<TopProduct>)
    ensures |r| == |gs|
    ensures forall i :: 0 <= i < |gs| ==> r[i] == TopProduct(i + 1, gs[i].name, gs[i].totalSold, gs[i].totalRevenue)
  {
    seq(|gs|, i requires 0 <= i < |gs| => TopProduct(i + 1, gs[i].name, gs[i].totalSold, gs[i].totalRevenue))
  }

  /** The product names of ranked rows, in rank order. */
  function RankedNames(r: seq<TopProduct>): (names: seq<string>)
    ensures |names| == |r| && forall i :: 0 <= i < |r| ==> names[i] == r[i].productName
  {
    seq(|r|, i requires 0 <= i < |r| => r[i].productName)
  }

  /**
   * The first `n` groups of the tally, most sold first and numbered by rank, one per sold
   * name with its sums; a negative `n` keeps them all, as SQLite's `LIMIT -1` does.
   */
  lemma RankedTop(sales: seq<Sale>, n: int)
    ensures var r := Ranks(SqlLimit(SortBy(GroupByName(sales), MostSoldFirst), n));
      && (forall i :: 0 <= i < |r| ==> r[i].productId == i + 1)
      && (forall i, j :: 0 <= i < j < |r| ==> r[i].totalSold >= r[j].totalSold && r[i].productName != r[j].productName)
      && (forall i :: 0 <= i < |r| ==>
            && r[i].productName in Names(sales)
            && r[i].totalSold == SoldOf(sales, r[i].productName)
            && r[i].totalRevenue == RevenueOf(sales, r[i].productName))
      && |r| == (if 0 <= n < |Names(sales)| then n else |Names(sales)|)
      && KeepsBestSellers(RankedNames(r), sales)
  {
    var gs := GroupByName(sales);
    var ranked := SortBy(gs, MostSoldFirst);
    var top := SqlLimit(ranked, n);
    var r := Ranks(top);
    RankedTallies(gs, ranked, sales);
    RankedPrefix(ranked, top, sales);
    assert RankedNames(r) == NameList(top);
  }

  function ItemViewSubtotal(v: ItemView): int { v.subtotal }

  /** The columns `getOrderItems` selects. */
  function ItemViews(rows: seq<OrderItemRow>): (r: seq<ItemView>)
    ensures |r| == |rows|
    ensures forall i :: 0 <= i < |rows| ==>
      r[i] == ItemView(rows[i].id, rows[i].productName, rows[i].quantity, rows[i].unitPrice, rows[i].modifiers, rows[i].subtotal)
  {
    seq(|rows|, i requires 0 <= i < |rows| =>
      ItemView(rows[i].id, rows[i].productName, rows[i].quantity, rows[i].unitPrice, rows[i].modifiers, rows[i].subtotal))
  }

  /**
   * One line of `createOrder`, priced through `getProductById`: the product's price and
   * name (an empty name becomes "未知商品"), or price 0 and "未知商品" when there is no such
   * product; an empty modifier is stored as NULL; the subtotal is price times quantity.
   */
  function PendingLine(categories: seq<CategoryRow>, products: seq<ProductRow>, line: LineRequest): (item: PendingItem)
    ensures item.productId == line.productId && item.quantity == line.quantity
    ensures item.modifiers == OrNull(line.modifiers)
    ensures item.subtotal == item.unitPrice * line.quantity
  {
    var product := GetProductById(categories, products, line.productId);
    var unitPrice := if product.Some? then product.value.price else 0;
    var name := if product.Some? && product.value.name != [] then product.value.name else UnknownProduct;
    PendingItem(line.productId, name, line.quantity, unitPrice, OrNull(line.modifiers), unitPrice * line.quantity)
  }

  /**
   * A pending line takes the price and name of the first product row with the requested id,
   * an empty name read as "未知商品", or price 0 and "未知商品" when no row has that id.
   */
  lemma PendingLineFromCatalogue(categories: seq<CategoryRow>, products: seq<ProductRow>, line: LineRequest)
    ensures var item := PendingLine(categories, products, line);
      && ((forall i :: 0 <= i < |products| ==> products[i].id != line.productId) ==>
            item.unitPrice == 0 && item.productName == UnknownProduct)
      && forall i :: FirstWithKey(products, ProductIdOf, line.productId, i) ==>
           && item.unitPrice == products[i].price
           && item.productName == if products[i].name != [] then products[i].name else UnknownProduct
  {
    match FindIndex(products, ProductIdOf, line.productId)
    case Some(k) => FirstWithKeyUnique(products, ProductIdOf, line.productId, k);
    case None =>
  }

  /** The `items` array of `createOrder`: one pending line per requested line, in order. */
  function PendingItems(categories: seq<CategoryRow>, products: seq<ProductRow>, lines: seq<LineRequest>): (r: seq<PendingItem>)
    ensures |r| == |lines| && forall i :: 0 <= i < |lines| ==> r[i] == PendingLine(categories, products, lines[i])
  {
    seq(|lines|, i requires 0 <= i < |lines| => PendingLine(categories, products, lines[i]))
  }

  /** The `order_items` rows written for the pending lines, with ids from `firstId`. */
  function ItemRows(pending: seq<PendingItem>, orderId: int, firstId: int): (r: seq<OrderItemRow>)
    ensures |r| == |pending|
    ensures forall i :: 0 <= i < |pending| ==>
      r[i] == OrderItemRow(firstId + i, orderId, pending[i].productId, pending[i].productName,
                           pending[i].quantity, pending[i].unitPrice, pending[i].modifiers, pending[i].subtotal)
  {
    seq(|pending|, i requires 0 <= i < |pending| =>
      OrderItemRow(firstId + i, orderId, pending[i].productId, pending[i].productName,
                   pending[i].quantity, pending[i].unitPrice, pending[i].modifiers, pending[i].subtotal))
  }

  /**
   * An order row appended under an id above every existing order id, followed by its item
   * rows, reads back through `getOrderById` as that order with exactly those items, whose
   * subtotals add up to its total.
   */
  lemma ReadBackNewOrder(orders: seq<OrderRow>, before: seq<OrderItemRow>, row: OrderRow,
                         pending: seq<PendingItem>, firstItemId: int)
    requires KeysBelow(orders, OrderIdOf, row.id) && KeysBelow(before, ItemOrderIdOf, row.id)
    requires row.totalAmount == Sum(pending, PendingSubtotal)
    ensures var r := GetOrderById(orders + [row], before + ItemRows(pending, row.id, firstItemId), row.id);
      && r.Some?
      && r.value.id == row.id && r.value.status == row.status && r.value.createdAt == row.createdAt
      && r.value.items == ItemViews(ItemRows(pending, row.id, firstItemId))
      && r.value.totalAmount == Sum(r.value.items, ItemViewSubtotal)
  {
    var all := orders + [row];
    var added := ItemRows(pending, row.id, firstItemId);
    assert forall j :: 0 <= j < |orders| ==> all[j].id == OrderIdOf(orders[j]);
    assert FirstWithKey(all, OrderIdOf, row.id, |orders|);
    WithKeyAppend(before, added, ItemOrderIdOf, row.id);
    WithKeyBelow(before, ItemOrderIdOf, row.id);
    WithKeyAll(added, ItemOrderIdOf, row.id);
    SumPointwise(ItemViews(added), ItemViewSubtotal, pending, PendingSubtotal);
  }

  /** `UPDATE orders SET status = ? WHERE id = ?`. */
  function SetStatusRows(orders: seq<OrderRow>, id: int, status: OrderStatus): (r: seq<OrderRow>)
    ensures |r| == |orders|
    ensures forall i :: 0 <= i < |r| ==> r[i] == if orders[i].id == id then orders[i].(status := status) else orders[i]
  {
    seq(|orders|, i requires 0 <= i < |orders| => if orders[i].id == id then orders[i].(status := status) else orders[i])
  }

  class SqliteDb {
    var categories: seq<CategoryRow>
    var products: seq<ProductRow>
    var orders: seq<OrderRow>
    var orderItems: seq<OrderItemRow>
    var next: NextIds

    /** AUTOINCREMENT keeps every table's ids distinct and below its sequence; items point at allocated orders. */
    ghost predicate Valid()
      reads this
    {
      && Fresh(categories, CategoryIdOf, next.categories)
      && Fresh(products, ProductIdOf, next.products)
      && Fresh(orders, OrderIdOf, next.orders)
      && Fresh(orderItems, ItemIdOf, next.orderItems)
      && KeysBelow(orderItems, ItemOrderIdOf, next.orders)
    }

    /** A new database file: the four empty tables. */
    constructor ()
      ensures Valid()
      ensures categories == [] && products == [] && orders == [] && orderItems == []
      ensures next == NextIds(1, 1, 1, 1)
    {
      categories, products, orders, orderItems := [], [], [], [];
      next := NextIds(1, 1, 1, 1);
    }

    /**
     * The seeding guard of `initDatabase`: only when the categories table is empty are the
     * three categories and three products inserted.
     */
    method InitDatabase()
      requires Valid()
      modifies this
      ensures Valid()
      ensures orders == old(orders) && orderItems == old(orderItems)
      ensures old(categories) != [] ==> categories == old(categories) && products == old(products) && next == old(next)
      ensures old(categories) == [] ==>
        && categories == SeedCategoryRows(old(next.categories))
        && products == old(products) + SeedProductRows(old(next.products))
        && next == old(next).(categories := old(next.categories) + 3, products := old(next.products) + 3)
      ensures old(categories) == [] && old(next.categories) == 1 ==>
        forall k :: 0 <= k < 3 ==> JoinedCategoryName(categories, SeedProductRows(old(next.products))[k].categoryId) == categories[k].name
      ensures old(categories) == [] && old(next.categories) > 3 ==>
        forall p :: p in SeedProductRows(old(next.products)) ==> JoinedCategoryName(categories, p.categoryId) == Uncategorized
    {
      if |categories| == 0 {
        SeedRowsFresh(products, next.categories, next.products);
        SeedJoins(next.categories, next.products);
        categories := SeedCategoryRows(next.categories);
        products := products + SeedProductRows(next.products);
        next := next.(categories := next.categories + 3, products := next.products + 3);
      }
    }

    /** `listCategories`: the rows ordered by display order (ties in table order). */
    function ListCategories(): (r: seq<CategoryRow>)
      reads this
      ensures forall i, j :: 0 <= i < j < |r| ==> r[i].displayOrder <= r[j].displayOrder
      ensures multiset(r) == multiset(categories)
    {
      var r := SortBy(categories, DisplayOrderOf);
      assert forall i, j :: 0 <= i < j < |r| ==> DisplayOrderOf(r[i]) <= DisplayOrderOf(r[j]);
      r
    }

    /**
     * `createCategory`: inserts the trimmed name, the description or "" (not trimmed) and the
     * display order or 0, under the next rowid, and returns the inserted row.
     */
    method CreateCategory(input: CategoryInput) returns (c: CategoryRow)
      requires Valid()
      modifies this
      ensures Valid()
      ensures c == CategoryRow(old(next.categories), Trim(input.name), OrEmpty(input.description), input.displayOrder.GetOr(0))
      ensures categories == old(categories) + [c]
      ensures next == old(next).(categories := old(next.categories) + 1)
      ensures products == old(products) && orders == old(orders) && orderItems == old(orderItems)
    {
      c := CategoryRow(next.categories, Trim(input.name), OrEmpty(input.description), input.displayOrder.GetOr(0));
      categories := categories + [c];
      next := next.(categories := next.categories + 1);
    }

    /**
     * `updateCategory`: sets name, description and display order on the rows with that id,
     * the display order falling back to 0 rather than to the old value; no error for an
     * unknown id, which yields `None` and changes nothing.
     */
    method UpdateCategory(id: int, input: CategoryInput) returns (r: Option<CategoryRow>)
      requires Valid()
      modifies this
      ensures Valid()
      ensures next == old(next) && products == old(products) && orders == old(orders) && orderItems == old(orderItems)
      ensures categories == UpdateCategoryRows(old(categories), id, Trim(input.name), OrEmpty(input.description), input.displayOrder.GetOr(0))
      ensures (forall i :: 0 <= i < |old(categories)| ==> old(categories)[i].id != id) ==> r.None? && categories == old(categories)
      ensures (exists i :: 0 <= i < |old(categories)| && old(categories)[i].id == id) ==>
        r == Some(CategoryRow(id, Trim(input.name), OrEmpty(input.description), input.displayOrder.GetOr(0)))
    {
      var updated := CategoryRow(id, Trim(input.name), OrEmpty(input.description), input.displayOrder.GetOr(0));
      categories := UpdateCategoryRows(categories, id, updated.name, updated.description, updated.displayOrder);
      match FindIndex(categories, CategoryIdOf, id) {
        case Some(k) => r := Some(categories[k]);
        case None => r := None;
      }
      if forall i :: 0 <= i < |old(categories)| ==> old(categories)[i].id != id {
        assert forall i :: 0 <= i < |categories| ==> categories[i] == old(categories)[i];
      }
    }

    /**
     * `deleteCategory`: refuses while any product row has that category id; otherwise deletes
     * the rows with that id (none is not an error) and reports success.
     */
    method DeleteCategory(id: int) returns (r: Result<bool, DesktopError>)
      requires Valid()
      modifies this
      ensures Valid()
      ensures next == old(next) && products == old(products) && orders == old(orders) && orderItems == old(orderItems)
      ensures (exists i :: 0 <= i < |products| && products[i].categoryId == id) <==> r == Failure(CategoryInUse)
      ensures r.Failure? ==> categories == old(categories)
      ensures r.Success? ==> r.value && categories == Without(old(categories), CategoryIdOf, id)
    {
      if exists i :: 0 <= i < |products| && products[i].categoryId == id {
        r := Failure(CategoryInUse);
      } else {
        WithoutFresh(categories, CategoryIdOf, id, next.categories);
        categories := Without(categories, CategoryIdOf, id);
        r := Success(true);
      }
    }

    /**
     * `createProduct`: inserts the request's values under the next rowid and returns that
     * product as `getProductById` presents it.
     */
    method CreateProduct(input: ProductInput) returns (v: ProductView)
      requires Valid()
      modifies this
      ensures Valid()
      ensures products == old(products) + [ProductValues(old(next.products), input)]
      ensures v == View(categories, ProductValues(old(next.products), input))
      ensures GetProductById(categories, products, old(next.products)) == Some(v)
      ensures next == old(next).(products := old(next.products) + 1)
      ensures categories == old(categories) && orders == old(orders) && orderItems == old(orderItems)
    {
      var row := ProductValues(next.products, input);
      AppendedProductReadBack(categories, products, row);
      products := products + [row];
      next := next.(products := next.products + 1);
      v := GetProductById(categories, products, row.id).value;
    }

    /**
     * `updateProduct`: writes the request's values on the rows with that id and returns the
     * product as `getProductById` presents it; an unknown id yields `None` and changes nothing.
     */
    method UpdateProduct(id: int, input: ProductInput) returns (r: Option<ProductView>)
      requires Valid()
      modifies this
      ensures Valid()
      ensures next == old(next) && categories == old(categories) && orders == old(orders) && orderItems == old(orderItems)
      ensures products == UpdateProductRows(old(products), id, ProductValues(id, input))
      ensures (forall i :: 0 <= i < |old(products)| ==> old(products)[i].id != id) ==> r.None? && products == old(products)
      ensures (exists i :: 0 <= i < |old(products)| && old(products)[i].id == id) ==>
        r == Some(View(categories, ProductValues(id, input)))
    {
      UpdatedProductReadBack(categories, products, id, ProductValues(id, input), next.products);
      products := UpdateProductRows(products, id, ProductValues(id, input));
      r := GetProductById(categories, products, id);
    }

    /** `deleteProduct`: deletes the rows with that id (none is not an error) and reports success. */
    method DeleteProduct(id: int) returns (ok: bool)
      requires Valid()
      modifies this
      ensures Valid()
      ensures ok && products == Without(old(products), ProductIdOf, id)
      ensures next == old(next) && categories == old(categories) && orders == old(orders) && orderItems == old(orderItems)
    {
      WithoutFresh(products, ProductIdOf, id, next.products);
      products := Without(products, ProductIdOf, id);
      ok := true;
    }

    /** `listOrders`: every order newest first, each with its items. */
    function ListOrders(): (r: seq<OrderView>)
      reads this
      ensures |r| == |orders|
      ensures forall i :: 0 <= i < |r| ==> r[i] == OrderViewOf(orderItems, NewestFirstRows(orders)[i])
      ensures forall i, j :: 0 <= i < j < |r| ==> Instant(r[i].createdAt) >= Instant(r[j].createdAt)
    {
      var rows, items := NewestFirstRows(orders), orderItems;
      seq(|rows|, i requires 0 <= i < |rows| => OrderViewOf(items, rows[i]))
    }

    /** The `INSERT INTO orders` of `createOrder`: the row takes the next order id. */
    method InsertOrder(row: OrderRow)
      requires Valid() && row.id == next.orders
      modifies this
      ensures Valid()
      ensures orders == old(orders) + [row] && next == old(next).(orders := row.id + 1)
      ensures categories == old(categories) && products == old(products) && orderItems == old(orderItems)
    {
      orders := orders + [row];
      next := next.(orders := row.id + 1);
    }

    /**
     * The item inserts of `createOrder`, one row per pending line in order, under the
     * next item ids.
     */
    method InsertItems(pending: seq<PendingItem>, orderId: int)
      requires Valid() && orderId < next.orders
      modifies this
      ensures Valid()
      ensures orderItems == old(orderItems) + ItemRows(pending, orderId, old(next.orderItems))
      ensures next == old(next).(orderItems := old(next.orderItems) + |pending|)
      ensures categories == old(categories) && products == old(products) && orders == old(orders)
    {
      var i := 0;
      while i < |pending|
        invariant 0 <= i <= |pending|
        invariant orderItems == old(orderItems) + ItemRows(pending[..i], orderId, old(next.orderItems))
        invariant next == old(next).(orderItems := old(next.orderItems) + i)
        invariant categories == old(categories) && products == old(products) && orders == old(orders)
        invariant Valid()
      {
        var item := pending[i];
        var row := OrderItemRow(next.orderItems, orderId, item.productId, item.productName,
                                item.quantity, item.unitPrice, item.modifiers, item.subtotal);
        assert ItemRows(pending[..i + 1], orderId, old(next.orderItems))
            == ItemRows(pending[..i], orderId, old(next.orderItems)) + [row];
        orderItems := orderItems + [row];
        next := next.(orderItems := next.orderItems + 1);
        i := i + 1;
      }
      assert pending[..i] == pending;
    }

    /**
     * `createOrder`: prices the lines from the catalogue, inserts a PENDING order with the
     * summed total and the time `now`, then its item rows, and returns the new order as
     * `getOrderById` reads it back: exactly the inserted lines, totalling the order.
     */
    method CreateOrder(request: PlaceOrderRequest, now: Timestamp) returns (r: Option<OrderView>)
      requires Valid()
      modifies this
      ensures Valid()
      ensures categories == old(categories) && products == old(products)
      ensures
        var pending := PendingItems(old(categories), old(products), request.items);
        && orders == old(orders) + [OrderRow(old(next.orders), Pending, request.orderType,
                                             OrNull(request.tableNumber), Sum(pending, PendingSubtotal), now)]
        && orderItems == old(orderItems) + ItemRows(pending, old(next.orders), old(next.orderItems))
        && next == old(next).(orders := old(next.orders) + 1, orderItems := old(next.orderItems) + |pending|)
        && r.Some?
        && r.value.items == ItemViews(ItemRows(pending, old(next.orders), old(next.orderItems)))
      ensures r.Some? && r.value.id == old(next.orders) && r.value.status == Pending && r.value.createdAt == now
      ensures r.value.totalAmount == Sum(r.value.items, ItemViewSubtotal)
      ensures GetStatisticsToday(now.day).todayOrders == old(GetStatisticsToday(now.day).todayOrders) + 1
      ensures GetStatisticsToday(now.day).todayRevenue == old(GetStatisticsToday(now.day).todayRevenue) + r.value.totalAmount
    {
      var pending := PendingItems(categories, products, request.items);
      var orderId := next.orders;
      var row := OrderRow(orderId, Pending, request.orderType, OrNull(request.tableNumber), Sum(pending, PendingSubtotal), now);
      ReadBackNewOrder(orders, orderItems, row, pending, next.orderItems);
      DaySumSnoc(orders, row, OrderDayOf, One, now.day);
      DaySumSnoc(orders, row, OrderDayOf, TotalOf, now.day);
      InsertOrder(row);
      InsertItems(pending, orderId);
      r := GetOrderById(orders, orderItems, orderId);
    }

    /**
     * `updateOrderStatus`: sets the status on the rows with that id, whether or not there are
     * any, and reads the order back; `None` exactly when there is no such order.
     */
    method UpdateOrderStatus(id: int, status: OrderStatus) returns (r: Option<OrderView>)
      requires Valid()
      modifies this
      ensures Valid()
      ensures orders == SetStatusRows(old(orders), id, status)
      ensures next == old(next) && categories == old(categories) && products == old(products) && orderItems == old(orderItems)
      ensures r == GetOrderById(orders, orderItems, id)
      ensures r.None? <==> forall i :: 0 <= i < |old(orders)| ==> old(orders)[i].id != id
      ensures r.Some? ==> r.value.id == id && r.value.status == status
    {
      orders := SetStatusRows(orders, id, status);
      r := GetOrderById(orders, orderItems, id);
    }

    /**
     * `getStatisticsToday`: the listed orders created on day `today` give the order count and
     * the revenue, which are those of the table whatever the listing order; every product
     * counts, and low stock is always 0.
     */
    function GetStatisticsToday(today: int): (stats: StatisticsToday)
      reads this
      ensures stats.todayOrders == DaySum(orders, OrderDayOf, One, today)
      ensures stats.todayRevenue == DaySum(orders, OrderDayOf, TotalOf, today)
      ensures stats.totalProducts == |products| && stats.lowStockCount == 0
    {
      var listed := NewestFirstRows(orders);
      var todays := OrdersOn(listed, today);
      DaySumPermutation(listed, orders, OrderDayOf, One, today);
      DaySumPermutation(listed, orders, OrderDayOf, TotalOf, today);
      StatisticsToday(Sum(todays, TotalOf), |todays|, |products|, 0)
    }

    /**
     * `getRevenue(days = 7)`: one bucket per day from `today - (days - 1)` to `today`, oldest
     * first (none when `days <= 0`); the listed orders are added to the bucket of their day,
     * so each bucket holds its day's revenue and together they hold the window's revenue.
     */
    method GetRevenue(days: Option<int>, today: int) returns (buckets: seq<Bucket>)
      ensures var n := days.GetOr(7);
        && |buckets| == (if n > 0 then n else 0)
        && (forall j :: 0 <= j < |buckets| ==>
              buckets[j].date == today - (n - 1) + j && buckets[j].revenue == DaySum(orders, OrderDayOf, TotalOf, buckets[j].date))
        && Sum(buckets, BucketRevenue) == WindowSum(orders, OrderDayOf, TotalOf, today - (n - 1), |buckets|)
    {
      var n := days.GetOr(7);
      var listed := NewestFirstRows(orders);
      buckets := DailySeries(listed, OrderDayOf, TotalOf, n, today);
      WindowSumPermutation(listed, orders, OrderDayOf, TotalOf, today - (n - 1), |buckets|);
      forall j | 0 <= j < |buckets|
        ensures buckets[j].revenue == DaySum(orders, OrderDayOf, TotalOf, buckets[j].date)
      {
        DaySumPermutation(listed, orders, OrderDayOf, TotalOf, buckets[j].date);
      }
    }

    /**
     * `getTopProducts(limit = 5)`: the order lines grouped by product name, best sellers
     * first, cut by `LIMIT`, each numbered by its rank; one entry per sold name with that
     * name's summed quantity and subtotal.
     */
    function GetTopProducts(limit: Option<int>): (r: seq<TopProduct>)
      reads this
      ensures forall i :: 0 <= i < |r| ==> r[i].productId == i + 1
      ensures forall i, j :: 0 <= i < j < |r| ==> r[i].totalSold >= r[j].totalSold && r[i].productName != r[j].productName
      ensures forall i :: 0 <= i < |r| ==>
        && r[i].productName in Names(ItemSales(orderItems))
        && r[i].totalSold == SoldOf(ItemSales(orderItems), r[i].productName)
        && r[i].totalRevenue == RevenueOf(ItemSales(orderItems), r[i].productName)
      ensures var n := limit.GetOr(5); var names := |Names(ItemSales(orderItems))|;
        |r| == if 0 <= n < names then n else names
      ensures KeepsBestSellers(RankedNames(r), ItemSales(orderItems))
    {
      var sales := ItemSales(orderItems);
      RankedTop(sales, limit.GetOr(5));
      Ranks(SqlLimit(SortBy(GroupByName(sales), MostSoldFirst), limit.GetOr(5)))
    }
  }
}
