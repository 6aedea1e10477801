# Breakfast POS — a verified model of its order and catalogue core

The breakfast point-of-sale system keeps a menu of categories and products, takes orders
from a counter tablet and from the admin app's point-of-sale screen, and reports
revenue and best sellers. The same core behaviour exists in four places, and each is
modelled here in its own form:

- **The admin app's browser-local database** (`AdminLocalDb`). This is a class over the
  store's four collections and its four id counters. Every handler is a method that
  updates those fields, and the handlers that only read are functions. The class
  invariant says that every counter is above every id it has handed out, and that every
  order's total is the sum of its lines' subtotals.
- **The tablet's browser-local database** (`TabletLocalDb`). It is the reduced store: a
  read-only catalogue, plus order creation that advances two counters.
- **The desktop app's SQLite handlers** (`DesktopDb`). This is a class over the four
  tables, with the next rowid of each AUTOINCREMENT sequence. The SQL semantics are
  written out:
  - `LEFT JOIN … || '未分類'`;
  - `ORDER BY … DESC` with ties kept in table order;
  - `GROUP BY`, and `LIMIT`, where a negative value means no limit;
  - updates and deletes that touch no row and raise no error.
- **The cart store** (`Cart`), which is the same code in the tablet and in the admin app.
  Each action is a function from the old list of lines to the new one, and the store's
  invariant is one line per product with a positive quantity.
- **The Java back end**. Its pieces are modelled as follows:
  - The `Order` entity is a class, including its `@PrePersist` hook.
  - The order and product repositories are classes over their rows. The order table
    keeps idempotency keys unique.
  - The five services are modules of methods and functions over them: `OrderService`,
    `MenuService`, `AdminOrderService`, `StatisticsService` and `LineService`. Every
    exception is a `Failure` value named by its cause.

Shared pieces:
- `Seqs` holds sums, stable sorting, key lookups and SQL `LIMIT`.
- `Tally` groups sold lines by product name and ranks them.
- `Revenue` holds per-day sums and the daily revenue series that the admin and desktop
  stores share.
- `Clock` holds timestamps as a day number and a time of day.
- `OrderKinds` holds the two enums with their names.

Money is an unbounded integer. A timestamp is `Timestamp(day, time)`, where `day` counts
calendar days and `time` counts the ticks since midnight.

## Model

| member | source | states |
|---|---|---|
| Cart.AddItem | frontend/admin-app/src/pos/stores/cartStore.ts:23-34 | a product already in the cart gets one more unit on its first line, with the rest of the line kept; a new product is appended with quantity 1 |
| Cart.RemoveItem | frontend/admin-app/src/pos/stores/cartStore.ts:35-39 | keeps exactly the lines of the other products |
| Cart.RemoveItemKeepsOrder | frontend/tablet/src/stores/cartStore.ts:46-50 | the filter distributes over concatenation, so the kept lines stay in their order |
| Cart.UpdateQuantity | frontend/admin-app/src/pos/stores/cartStore.ts:40-53 | a quantity of 0 or less is `removeItem`; otherwise every line of the product takes the quantity and every other line is untouched |
| Cart.ClearCart | frontend/tablet/src/stores/cartStore.ts:69-71 | the cleared cart is empty and keeps the invariant |
| Cart.AddItemWellFormed | frontend/tablet/src/stores/cartStore.ts:31-43 | `addItem` keeps one line per product, each with quantity at least 1 |
| Cart.RemoveItemWellFormed | frontend/admin-app/src/pos/stores/cartStore.ts:35-39 | `removeItem` keeps the invariant |
| Cart.UpdateQuantityWellFormed | frontend/tablet/src/stores/cartStore.ts:53-66 | `updateQuantity` keeps the invariant, whatever the quantity |
| Cart.AddItemCount | frontend/admin-app/src/pos/stores/cartStore.ts:56 | every `addItem` raises `itemCount()` by exactly 1 |
| Cart.AddItemTotal | frontend/admin-app/src/pos/stores/cartStore.ts:55 | `addItem` raises `totalAmount()` by one unit price: the new item's price for a new line, and the existing line's price otherwise |
| Cart.RemoveItemSplits | frontend/tablet/src/stores/cartStore.ts:46-50 | any per-line measure of the cart is the measure of the kept lines plus that of the removed product's lines |
| Cart.RemoveItemTotals | frontend/tablet/src/stores/cartStore.ts:74-81 | `removeItem` takes away from the count and the total exactly what the product's lines held |
| Cart.UpdateQuantityCount | frontend/tablet/src/stores/cartStore.ts:53-66 | setting a positive quantity replaces that line's quantity in the count |
| Cart.ClearCartTotals | frontend/admin-app/src/pos/stores/cartStore.ts:54-56 | an emptied cart counts 0 items and totals 0 |
| AdminLocalDb.ResolveCategoryName | frontend/admin-app/src/services/localDb.ts:125-131 | the live category's name if non-empty, else the cached name if non-empty, else "未分類"; never empty |
| AdminLocalDb.ListProducts | frontend/admin-app/src/services/localDb.ts:179-180 | every product, in order, with only its category name resolved, which is never empty |
| AdminLocalDb.RenamedCategoryListed | frontend/admin-app/src/services/localDb.ts:149-162 | after a category is renamed to a non-empty name, every product of it lists under that name |
| AdminLocalDb.DetachUnusedCategory | frontend/admin-app/src/services/localDb.ts:163-176 | the remap in `categories.remove` changes nothing when no product uses the category |
| AdminLocalDb.PriceLine | frontend/admin-app/src/services/localDb.ts:227-238 | a line keeps the requested quantity and modifiers, takes the given id, and its subtotal is price times quantity |
| AdminLocalDb.PriceLineFromCatalogue | frontend/admin-app/src/services/localDb.ts:228-232 | a line takes the first matching product's price and name (an empty name read as "未知商品"), or 0 and "未知商品" when there is none |
| Tally.RankedPrefix | frontend/admin-app/src/services/localDb.ts:304 | a prefix of the ranked tally stays in order, one entry per name with its sums, and keeps the best sellers |
| AdminLocalDb.TopProducts | frontend/admin-app/src/services/localDb.ts:285-305 | one entry per sold name with that name's summed quantity and subtotal and its first line id, best sellers first, cut by `slice(0, limit)`; no sold name left out sold more than one kept |
| AdminLocalDb.PrependOrderValid | frontend/admin-app/src/services/localDb.ts:239-250 | putting a consistent order with the next id in front keeps ids fresh and totals consistent |
| AdminLocalDb.SetStatusValid | frontend/admin-app/src/services/localDb.ts:252-258 | a status change keeps the orders valid |
| AdminLocalDb.ItemsConsistent | frontend/admin-app/src/services/localDb.ts:227-238 | built lines have subtotal = price × quantity, and their ids lie below the advanced line counter |
| AdminLocalDb.LocalDb.constructor | frontend/admin-app/src/services/localDb.ts:25-102 | the seeded state: three categories, three products, one demo order totalling 140; the counters are 4, 4, 2, 4 and the store is valid |
| AdminLocalDb.LocalDb.ListCategories | frontend/admin-app/src/services/localDb.ts:135-137 | a stable sort of the categories by display order: sorted, a permutation, and equal keys in stored order |
| AdminLocalDb.LocalDb.CreateCategory | frontend/admin-app/src/services/localDb.ts:138-148 | new id from the counter, trimmed name, display order defaulting to the category count, appended; the invariant is kept |
| AdminLocalDb.LocalDb.UpdateCategory | frontend/admin-app/src/services/localDb.ts:149-162 | not found iff no category has the id; otherwise that category is updated, the display order falls back to the old one, and exactly its products take the new name |
| AdminLocalDb.LocalDb.RemoveCategory | frontend/admin-app/src/services/localDb.ts:163-176 | not found iff no category has the id; refused iff it exists and a product uses it; succeeds iff it exists and no product uses it, and then exactly that category is removed |
| AdminLocalDb.LocalDb.CreateProduct | frontend/admin-app/src/services/localDb.ts:181-197 | new id from the counter, normalised fields, category name resolved from the live category alone, appended |
| AdminLocalDb.LocalDb.UpdateProduct | frontend/admin-app/src/services/localDb.ts:198-211 | not found iff no product has the id; otherwise it keeps its id, takes the fields, and falls back to its old cached category name |
| AdminLocalDb.LocalDb.RemoveProduct | frontend/admin-app/src/services/localDb.ts:212-218 | fails iff no product has the id, and then with not found and nothing changed; otherwise exactly that product is removed |
| AdminLocalDb.LocalDb.ListOrders | frontend/admin-app/src/services/localDb.ts:221-224 | newest first, a permutation of the orders, with ties in stored order |
| AdminLocalDb.LocalDb.GetToday | frontend/admin-app/src/services/localDb.ts:261-268 | counts every stored order and sums every total, whatever the date; low stock is 0 |
| AdminLocalDb.LocalDb.CreateOrder | frontend/admin-app/src/services/localDb.ts:225-251 | priced lines with consecutive ids, total = sum of subtotals, next id, PENDING, put in front; `getToday` rises by one order and by the total |
| AdminLocalDb.LocalDb.PriceRequestLines | frontend/admin-app/src/services/localDb.ts:227-238 | the loop yields the priced lines and advances the line counter once per line |
| AdminLocalDb.LocalDb.UpdateStatus | frontend/admin-app/src/services/localDb.ts:252-258 | not found iff no order has the id; otherwise only that order's status changes |
| AdminLocalDb.LocalDb.GetRevenue | frontend/admin-app/src/services/localDb.ts:269-284 | `max(days, 0)` buckets, oldest first, each holding its day's revenue; together they hold the window's revenue |
| AdminLocalDb.LocalDb.GetTopProducts | frontend/admin-app/src/services/localDb.ts:285-305 | the Map-based tally loop computes `TopProducts`: best sellers first, and no sold name left out sold more than one kept |
| AdminLocalDb.Record | frontend/admin-app/src/services/localDb.ts:290-301 | one tally step: bump the entry of the name, or add it |
| TabletLocalDb.PriceLine | frontend/tablet/src/services/localDb.ts:79-91 | a line keeps the requested quantity and modifiers, takes the given id, and its subtotal is price × quantity |
| TabletLocalDb.PriceLineFromCatalogue | frontend/tablet/src/services/localDb.ts:80-85 | the first matching product's price and name (an empty name read as "未知商品"), or 0 and "未知商品" when there is none |
| TabletLocalDb.PrependOrderValid | frontend/tablet/src/services/localDb.ts:108-117 | prepending a consistent order with the next id keeps the orders valid |
| TabletLocalDb.ItemsConsistent | frontend/tablet/src/services/localDb.ts:78-92 | built lines are self-consistent and lie below the advanced line counter |
| TabletLocalDb.LocalDb.constructor | frontend/tablet/src/services/localDb.ts:15-55 | the seed: three categories, three products, no orders, both counters at 1 |
| TabletLocalDb.LocalDb.ListCategories | frontend/tablet/src/services/localDb.ts:96-98 | a stable sort by display order, a missing one counting as 0 |
| TabletLocalDb.LocalDb.BuildOrderItems | frontend/tablet/src/services/localDb.ts:78-92 | one priced line per requested line, in order, with the line counter advanced once per line |
| TabletLocalDb.LocalDb.CreateOrder | frontend/tablet/src/services/localDb.ts:104-119 | total = sum of subtotals, next order id, PENDING, put in front; the invariant is kept |
| DesktopDb.OrNull | desktop/main.js:235 | an empty modifier is stored as NULL, and a non-empty one as given |
| DesktopDb.JoinedCategoryName | desktop/main.js:124-135 | the joined category's name when non-empty, else "未分類" |
| DesktopDb.ListProducts | desktop/main.js:124-135 | every product exactly once (the views are a permutation of the presented rows), newest id first, each presented with its joined category name |
| DesktopDb.ViewsOfReordering | desktop/main.js:124-135 | presenting a reordering of the rows presents exactly the rows |
| DesktopDb.ViewsPermutation | desktop/main.js:124-135 | two reorderings of the same rows present the same views, each as often |
| DesktopDb.GetProductById | desktop/main.js:143-162 | `null` iff no row has the id; otherwise the first such row, presented |
| DesktopDb.ProductValues | desktop/main.js:164-193 | the row values written: trimmed name, `|| ''` defaults, and `available` as 1 or 0 |
| DesktopDb.GetOrderById | desktop/main.js:199-215 | `null` iff no order has the id; otherwise the first such order with exactly its item rows, in table order |
| DesktopDb.NewestFirstRows | desktop/main.js:217-223 | `ORDER BY created_at DESC`: sorted by time, descending, a permutation, and rows with equal times keep table order |
| DesktopDb.OrdersOn | desktop/main.js:270-275 | the orders of one day: their count and total are that day's count and revenue |
| DesktopDb.PendingLine | desktop/main.js:225-240 | a line keeps the product id and quantity; empty modifiers are stored as NULL; subtotal is price × quantity |
| DesktopDb.PendingLineFromCatalogue | desktop/main.js:228-232 | a line priced through `getProductById` takes the first matching row's price and name (an empty name read as "未知商品"), or 0 and "未知商品" when there is none |
| DesktopDb.SqliteDb.constructor | desktop/main.js:10-47 | a new database: four empty tables, every sequence at 1 |
| DesktopDb.SqliteDb.InitDatabase | desktop/main.js:49-85 | seeds only into an empty categories table; on a fresh file each product joins its category; once the category sequence has passed 3, every seeded product lists as "未分類" |
| DesktopDb.SqliteDb.ListCategories | desktop/main.js:88-93 | ordered by display order, and a permutation of the rows |
| DesktopDb.SqliteDb.CreateCategory | desktop/main.js:95-103 | inserts the trimmed name, the description or "", and the display order or 0 under the next rowid |
| DesktopDb.SqliteDb.UpdateCategory | desktop/main.js:105-113 | updates the rows with the id, the display order falling back to 0; `None` and no change for an unknown id |
| DesktopDb.SqliteDb.DeleteCategory | desktop/main.js:115-122 | refused iff a product uses the id; otherwise the rows with that id are deleted, and an unknown id succeeds |
| DesktopDb.SqliteDb.CreateProduct | desktop/main.js:164-178 | appends the row under the next rowid, and `getProductById` then returns exactly the result |
| DesktopDb.SqliteDb.UpdateProduct | desktop/main.js:179-192 | writes the values on the rows with the id; `None` and no change for an unknown id |
| DesktopDb.SqliteDb.DeleteProduct | desktop/main.js:194-197 | deletes the rows with the id and always reports success |
| DesktopDb.SqliteDb.ListOrders | desktop/main.js:217-223 | every order newest first, each with its own item rows |
| DesktopDb.SqliteDb.InsertItems | desktop/main.js:245-259 | one item row per pending line, in order, under consecutive rowids |
| DesktopDb.SqliteDb.CreateOrder | desktop/main.js:225-263 | a PENDING order at `now` under the next rowid, read back with exactly the inserted lines, which sum to its total; today's statistics rise by one order and by that total |
| DesktopDb.SqliteDb.UpdateOrderStatus | desktop/main.js:265-268 | only the status of the rows with the id changes; `None` iff there is no such order |
| DesktopDb.SqliteDb.GetStatisticsToday | desktop/main.js:270-282 | today's count and revenue are those of the table, whatever the listing order; low stock is 0 |
| DesktopDb.SqliteDb.GetRevenue | desktop/main.js:284-298 | `max(days, 0)` buckets (7 by default), each holding its day's revenue over the table; together they hold the window's revenue |
| DesktopDb.SqliteDb.GetTopProducts | desktop/main.js:300-318 | ranks from 1, best sellers first, one entry per name with its sums, cut by `LIMIT` (5 by default; negative means all); no sold name left out sold more than one kept |
| Seqs.SortBy | desktop/main.js:217-223 | sorted by the key, a permutation, and stable: equal keys keep their order |
| Seqs.SqlLimit | desktop/main.js:300-318 | `LIMIT n`: the first `n` rows, or all of them when `n` is negative |
| Seqs.JsSliceTo | frontend/admin-app/src/services/localDb.ts:305 | `slice(0, end)`, with negative ends counted from the back |
| Seqs.SumPermutation | frontend/admin-app/src/services/localDb.ts:262-264 | a sum does not depend on the order of its terms |
| Tally.GroupByName | src/main/java/com/breakfast/pos/repository/OrderRepository.java:28-32 | `GROUP BY` the product name: one group per sold name, holding that name's sums |
| Tally.RankedTallies | frontend/admin-app/src/services/localDb.ts:304 | ranking the groups keeps one per name with its sums, in descending quantity |
| Revenue.DailySeries | desktop/main.js:284-298 | the two loops yield `max(days, 0)` consecutive day buckets, each its day's sum, and together the window's sum |
| Revenue.DaySumPermutation | desktop/main.js:270-282 | a day's sum is the same over any reordering of the rows |
| Revenue.WindowSumPermutation | desktop/main.js:284-298 | a window's sum is the same over any reordering of the rows |
| Text.TrimRemovesOnlyEnds | desktop/main.js:98 | `trim()` drops only leading and trailing whitespace |
| Text.TrimIdempotent | frontend/admin-app/src/services/localDb.ts:142 | trimming twice is trimming once |
| OrderKinds.ParseStatus | src/main/java/com/breakfast/pos/model/entity/Order.java:52-54 | `valueOf`: a parsed status carries exactly the given name; an unknown name gives none |
| OrderKinds.StatusNamesRoundTrip | src/main/java/com/breakfast/pos/model/entity/Order.java:52-54 | every status name parses back to its status |
| OrderKinds.TypeNamesRoundTrip | src/main/java/com/breakfast/pos/model/entity/Order.java:56-58 | every type name parses back to its type |
| Clock.InstantOrder | src/main/java/com/breakfast/pos/service/StatisticsService.java:24-25 | timestamps compare by day, then by time of day |
| JavaOrder.Order.constructor | src/main/java/com/breakfast/pos/model/entity/Order.java:41-43 | the builder's fields as given, no creation time, and `items` defaulting to an empty list; `totalAmount` starts at 0 where the Java builder leaves it null, which no caller sees because `setTotalAmount` always runs before the save |
| JavaOrder.Order.SetItemsAndTotal | src/main/java/com/breakfast/pos/service/OrderService.java:70-71 | `setItems` then `setTotalAmount`: exactly those two fields change |
| JavaOrder.Order.OnCreate | src/main/java/com/breakfast/pos/model/entity/Order.java:45-50 | stamps `createdAt`, and sets PENDING only when no status was set |
| JavaOrder.FindByKey | src/main/java/com/breakfast/pos/repository/OrderRepository.java:18 | `findByIdempotencyKey`: a row holding the key, or none iff no row holds it |
| JavaOrder.OrderRepository.Insert | src/main/java/com/breakfast/pos/model/entity/Order.java:36-37 | the unique key refuses a taken key and saves nothing; otherwise the row is appended under the next id after `onCreate` |
| JavaOrder.OrderRepository.Update | src/main/java/com/breakfast/pos/service/AdminOrderService.java:44-45 | `save` of an order read back by id: only the row with that id becomes the record, every other row and the id counter stay |
| JavaProduct.FindProduct | src/main/java/com/breakfast/pos/repository/ProductRepository.java:7 | `findById`: the product with that id, or none iff there is none |
| JavaProduct.ProductRepository.Insert | src/main/java/com/breakfast/pos/service/MenuService.java:63 | `save` of a new product: it is appended under the next identity id, which advances by one |
| JavaProduct.ProductRepository.Replace | src/main/java/com/breakfast/pos/service/MenuService.java:80 | `save` of a product read back by id: only the row with that id becomes the product, every other row and the id counter stay |
| JavaProduct.ProductRepository.DeleteById | src/main/java/com/breakfast/pos/service/MenuService.java:90 | `deleteById`: exactly the rows with that id are gone, the rest stay in order, and the ids stay fresh |
| OrderService.ValidateOrderRequest | src/main/java/com/breakfast/pos/service/OrderService.java:110-119 | empty iff items are null or empty; otherwise a non-positive quantity iff some quantity is ≤ 0 |
| OrderService.CreateOrderItem | src/main/java/com/breakfast/pos/service/OrderService.java:89-108 | not found iff no product; unavailable iff found but not available; otherwise a snapshot of name and price with subtotal = price × quantity |
| OrderService.CreateOrderItems | src/main/java/com/breakfast/pos/service/OrderService.java:62-64 | all lines priced in order, or the failure of the first line that cannot be |
| OrderService.KeyedRowIsFound | src/main/java/com/breakfast/pos/model/entity/Order.java:36-37 | with unique keys, a saved row is the one found by its key |
| OrderService.PlaceOrder | src/main/java/com/breakfast/pos/service/OrderService.java:41-87 | validation first; a replayed key returns the saved order and saves nothing; then the type; then the lines, failing with the first line's error; a request that passes all of these saves exactly one new order unless its key was taken; a new order is PENDING at `now` with total = sum of the lines; failures save nothing |
| OrderService.PlaceOrderTwice | src/main/java/com/breakfast/pos/service/OrderService.java:45-52 | replaying a request after a success returns the same order and adds no second row |
| MenuService.GetProductById | src/main/java/com/breakfast/pos/service/MenuService.java:38-42 | empty iff no product has the id; otherwise that product's response |
| MenuService.CreateProduct | src/main/java/com/breakfast/pos/service/MenuService.java:49-64 | fails iff the category is unknown, and then saves nothing; otherwise exactly the requested product is saved and found again by id |
| MenuService.UpdateProduct | src/main/java/com/breakfast/pos/service/MenuService.java:66-83 | product not found first, then category not found; fails iff one of the two is missing; otherwise only that product's five fields change |
| MenuService.DeleteProduct | src/main/java/com/breakfast/pos/service/MenuService.java:85-91 | not found iff absent; otherwise exactly that product is gone and every other product stays |
| MenuService.ToggleTwice | src/main/java/com/breakfast/pos/service/MenuService.java:93-103 | toggling availability twice restores the products |
| MenuService.ToggleAvailability | src/main/java/com/breakfast/pos/service/MenuService.java:93-103 | not found iff absent; otherwise only that product's availability flips |
| AdminOrderService.ByCreatedAtDescending | src/main/java/com/breakfast/pos/service/AdminOrderService.java:26 | newest first, a permutation of the rows, and rows with equal times keep table order |
| AdminOrderService.GetAllOrders | src/main/java/com/breakfast/pos/service/AdminOrderService.java:24-30 | refused iff page < 0 or size < 1; otherwise the page-th run of `size` orders of the newest-first list, with its exact length |
| AdminOrderService.OrderOnItsPage | src/main/java/com/breakfast/pos/service/AdminOrderService.java:24-30 | the order at rank k is at slot k mod size of page k div size |
| AdminOrderService.GetOrderById | src/main/java/com/breakfast/pos/service/AdminOrderService.java:32-37 | not found iff no row has the id |
| AdminOrderService.UpdateOrderStatus | src/main/java/com/breakfast/pos/service/AdminOrderService.java:39-46 | not found first, then an unknown status name; succeeds iff the order exists and the name parses, and then only that order's status changes, from any status |
| StatisticsService.ToInt32 | src/main/java/com/breakfast/pos/service/StatisticsService.java:34-36 | `(int)` narrowing: within int range, congruent mod 2^32, and the identity on values that fit |
| StatisticsService.DayWindowIs | src/main/java/com/breakfast/pos/repository/OrderRepository.java:22-23 | inclusive `BETWEEN` midnight and the next midnight: that day or exactly the closing midnight |
| StatisticsService.MidnightInTwoWindows | src/main/java/com/breakfast/pos/service/StatisticsService.java:44-50 | an order at midnight lies in two consecutive day windows |
| StatisticsService.DayWindowRevenue | src/main/java/com/breakfast/pos/repository/OrderRepository.java:22-23 | a day window's revenue is the day's revenue plus that of the orders at the closing midnight |
| StatisticsService.Unavailable | src/main/java/com/breakfast/pos/repository/ProductRepository.java:9 | exactly the unavailable products |
| StatisticsService.GetTodayStatistics | src/main/java/com/breakfast/pos/service/StatisticsService.java:22-37 | window revenue and count, product count and unavailable count, all narrowed to int |
| StatisticsService.GetRevenueData | src/main/java/com/breakfast/pos/service/StatisticsService.java:39-54 | `max(days, 0)` entries, oldest first, each its day-window revenue |
| StatisticsService.GetTopProducts | src/main/java/com/breakfast/pos/service/StatisticsService.java:56-65 | fails iff limit < 0; otherwise best sellers first, one per name, with its sums, at most `limit`; no sold name left out sold more than one kept |
| StatisticsService.TopProductsAreBestSellers | src/main/java/com/breakfast/pos/service/StatisticsService.java:56-65 | no sold name left out of the first `limit` rows sold more units than a name kept |
| LineService.StatusMessage | src/main/java/com/breakfast/pos/service/LineService.java:35-40 | a message exactly for PREPARING, SERVED and COMPLETED |
| LineService.NotifyOrderStatusChange | src/main/java/com/breakfast/pos/service/LineService.java:32-45 | a push to the mock user iff the status has a message, carrying that message |
| LineService.MessagesDistinct | src/main/java/com/breakfast/pos/service/LineService.java:35-40 | different statuses get different messages |

## Left out

- **Persistence:** `loadState`/`saveState`, their `localStorage` JSON and the fallback to
  the seed on bad JSON are I/O. Each browser handler is modelled on the state already loaded.
- **Clocks:** `new Date()`, `LocalDate.now()` and `LocalDateTime.now()` are parameters
  (`today`, `now`).
- **Date labels:** the ISO date labels of the revenue series are day numbers, and the UTC
  `slice(0, 10)` is the `day` of a timestamp.
- **ISO timestamps:** `localeCompare` on ISO timestamp strings is the order of instants.
- **Money:** `BigDecimal`, SQLite `REAL` and JavaScript numbers are unbounded integers.
  Floating-point rounding and `doubleValue()` are not modelled.
- **Type coercions:** `Number(...)`, `Boolean(...)` and `!!` are not modelled. The inputs
  arrive already typed.
- **Status values:** the desktop `status` column is free text in SQLite, but is modelled
  as the status enum the front ends send.
- **Transactions:** the atomicity of `db.transaction` and `@Transactional` is not
  modelled. Each modelled call runs alone, and every Java failure is checked before
  anything is saved.
- **Tie order:** SQL and JPA leave the order of ties open. The model keeps ties in table
  order, by a stable sort.
- **`GROUP BY` order:** the order of `GROUP BY` groups before ranking is first-sold order.
- **Mapping and I/O:** mappers, DTO records and controllers are outside the core.
  `PrintService.printReceipt` is not part of this model. Its failures, and any failure
  of the notification, are swallowed by `placeOrder`.
- **LINE push:** `sendPushNotification` only logs. The model returns the push it would
  send.
- **Product entity:** `Product.java` is not part of this model. The product entity is
  modelled from its uses: id, name, price, description, category and availability.
- **JPA entities:** managed entities are value snapshots (`OrderRecord`, `Product`) held
  by the repository classes. Lazy loading and aliasing of managed entities are not
  modelled.
- **Seed order:** the seed of a fresh admin store stamps its demo order with the
  constructor's `now`. The other seed values are constants.
- **Tablet products:** `TabletLocalDb.LocalDb.ListProducts` returns the products as
  stored; no property beyond that is claimed.
- StatisticsService.GetRevenueData: does not model the `int` overflow of `days - 1` when
  `days` is `Integer.MIN_VALUE`. The loop is modelled over unbounded integers.
- StatisticsService.GetTodayStatistics: the revenue is not converted with
  `doubleValue()`. The sum stays exact.
- DesktopDb.SqliteDb.GetTopProducts: `SUM` of `REAL` subtotals is an exact integer sum.
- **Desktop updater:** the updater, windowing and IPC registration of `desktop/main.js`
  are outside the core.
- JavaOrder.Order.constructor: `totalAmount` starts at 0, where the Java builder leaves it
  `null`. `placeOrder` always calls `setTotalAmount` before the save, so no saved order
  differs.
