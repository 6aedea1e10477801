/**
 * `StatisticsService`: today's figures, the daily revenue series and the best sellers,
 * over the order and product tables. Day windows run from one midnight to the next with
 * both ends included, as SQL `BETWEEN` does, and every `long` handed to an `int` is
 * narrowed to 32 bits.
 */
module StatisticsService {
  import opened Wrappers
  import opened Seqs
  import opened Clock
  import opened Tally
  import opened Revenue
  import opened JavaOrder
  import opened JavaProduct

  const TwoTo31: int := 0x8000_0000
  const TwoTo32: int := 0x1_0000_0000

  /** Java's narrowing of a `long` to an `int`: the low 32 bits, read as two's complement. */
  function ToInt32(x: int): (r: int)
    ensures -TwoTo31 <= r < TwoTo31
    ensures (x - r) % TwoTo32 == 0
    ensures -TwoTo31 <= x < TwoTo31 ==> r == x
  {
    var low := x % TwoTo32;
    if low >= TwoTo31 then low - TwoTo32 else low
  }

  datatype TodayStatistics = TodayStatistics(todayRevenue: int, todayOrders: int, totalProducts: int, lowStockCount: int)

  /** A row of `getTopProducts`: no id, only the name and its sums. */
  datatype TopProduct = TopProduct(productName: string, totalSold: int, totalRevenue: int)

  /** Why the statistics calls throw. */
  datatype StatisticsError = NegativeLimit    // IllegalArgumentException of Stream.limit

  /** `createdAt BETWEEN start AND end`: both ends included. */
  predicate Between(t: Timestamp, start: Timestamp, end: Timestamp) {
    Instant(start) <= Instant(t) <= Instant(end)
  }

  /** The window of day `d`: `date.atStartOfDay()` to `startOfDay.plusDays(1)`. */
  predicate InDayWindow(t: Timestamp, d: int) {
    Between(t, StartOfDay(d), StartOfDay(d + 1))
  }

  /**
   * A timestamp lies in the window of day `d` exactly when it falls on day `d` or is the
   * midnight that ends it.
   */
  lemma DayWindowIs(t: Timestamp, d: int)
    ensures InDayWindow(t, d) <==> t.day == d || t == StartOfDay(d + 1)
  {
    InstantOrder(StartOfDay(d), t);
    InstantOrder(t, StartOfDay(d + 1));
  }

  /** An order placed exactly at midnight lies in the windows of both days that meet there. */
  lemma MidnightInTwoWindows(t: Timestamp)
    requires t.time == 0
    ensures InDayWindow(t, t.day) && InDayWindow(t, t.day - 1)
  {
    DayWindowIs(t, t.day);
    DayWindowIs(t, t.day - 1);
  }

  /** `COALESCE(SUM(o.totalAmount), 0)` over the orders inside the window. */
  function SumBetween(rows: seq<OrderRecord>, start: Timestamp, end: Timestamp): int {
    if rows == [] then 0
    else
      var last := rows[|rows| - 1];
      SumBetween(rows[..|rows| - 1], start, end) + (if Between(last.createdAt, start, end) then last.totalAmount else 0)
  }

  /** `COUNT(o)` over the orders inside the window. */
  function CountBetween(rows: seq<OrderRecord>, start: Timestamp, end: Timestamp): (n: nat)
    ensures n <= |rows|
  {
    if rows == [] then 0
    else
      var last := rows[|rows| - 1];
      CountBetween(rows[..|rows| - 1], start, end) + (if Between(last.createdAt, start, end) then 1 else 0)
  }

  function RecordDay(o: OrderRecord): int { o.createdAt.day }
  function CreatedAtInstant(o: OrderRecord): int { Instant(o.createdAt) }

  /**
   * The revenue of a day window is the revenue of that day's orders plus that of the orders
   * placed exactly at the following midnight, which the next day's window counts again.
   */
  lemma {:induction false} DayWindowRevenue(rows: seq<OrderRecord>, d: int)
    ensures SumBetween(rows, StartOfDay(d), StartOfDay(d + 1))
         == DaySum(rows, RecordDay, RecordTotal, d) + DaySum(rows, CreatedAtInstant, RecordTotal, Instant(StartOfDay(d + 1)))
  {
    if rows != [] {
      var last := rows[|rows| - 1];
      DayWindowRevenue(rows[..|rows| - 1], d);
      DayWindowIs(last.createdAt, d);
      InstantOrder(last.createdAt, StartOfDay(d + 1));
    }
  }

  /** The products with `available == false` (`countByAvailableFalse`). */
  function Unavailable(products: seq<Product>): (r: seq<Product>)
    ensures forall p :: p in r <==> p in products && !p.available
    ensures |r| <= |products|
  {
    if products == [] then []
    else
      var rest := Unavailable(products[1..]);
      assert forall p :: p in products <==> p == products[0] || p in products[1..];
      if products[0].available then rest else [products[0]] + rest
  }

  /**
   * `getTodayStatistics`: the revenue and count of the orders in today's window, the number
   * of products, and as low stock the number of unavailable products; the three counts are
   * narrowed to `int`.
   */
  function GetTodayStatistics(orders: seq<OrderRecord>, products: seq<Product>, today: int): (stats: TodayStatistics)
    ensures stats.todayRevenue
         == DaySum(orders, RecordDay, RecordTotal, today) + DaySum(orders, CreatedAtInstant, RecordTotal, Instant(StartOfDay(today + 1)))
    ensures stats.todayOrders == ToInt32(CountBetween(orders, StartOfDay(today), StartOfDay(today + 1)))
    ensures stats.totalProducts == ToInt32(|products|)
    ensures stats.lowStockCount == ToInt32(|Unavailable(products)|)
    ensures |orders| < TwoTo31 ==> 0 <= stats.todayOrders <= |orders|
    ensures |products| < TwoTo31 ==> 0 <= stats.lowStockCount <= stats.totalProducts
  {
    var start, end := StartOfDay(today), StartOfDay(today + 1);
    DayWindowRevenue(orders, today);
    TodayStatistics(
      SumBetween(orders, start, end),
      ToInt32(CountBetween(orders, start, end)),
      ToInt32(|products|),
      ToInt32(|Unavailable(products)|))
  }

  /**
   * `getRevenueData(days)`: one entry per day from `today - (days - 1)` to `today`, oldest
   * first (none when `days <= 0`), each the revenue of that day's window, so each holds
   * the day's orders and the orders placed at the midnight that ends it.
   */
  method GetRevenueData(orders: seq<OrderRecord>, days: int, today: int) returns (series: seq<Bucket>)
    ensures |series| == if days > 0 then days else 0
    ensures forall j :: 0 <= j < |series| ==>
      && series[j].date == today - (days - 1) + j
      && series[j].revenue == SumBetween(orders, StartOfDay(series[j].date), StartOfDay(series[j].date + 1))
      && series[j].revenue == DaySum(orders, RecordDay, RecordTotal, series[j].date)
                            + DaySum(orders, CreatedAtInstant, RecordTotal, Instant(StartOfDay(series[j].date + 1)))
  {
    series := [];
    var i := days - 1;
    while i >= 0
      invariant if days > 0 then -1 <= i < days else i == days - 1
      invariant |series| == days - 1 - i
      invariant forall j :: 0 <= j < |series| ==>
        && series[j].date == today - (days - 1) + j
        && series[j].revenue == SumBetween(orders, StartOfDay(series[j].date), StartOfDay(series[j].date + 1))
        && series[j].revenue == DaySum(orders, RecordDay, RecordTotal, series[j].date)
                              + DaySum(orders, CreatedAtInstant, RecordTotal, Instant(StartOfDay(series[j].date + 1)))
    {
      var date := today - i;
      DayWindowRevenue(orders, date);
      series := series + [Bucket(date, SumBetween(orders, StartOfDay(date), StartOfDay(date + 1)))];
      i := i - 1;
    }
  }

  function SaleOf(item: OrderItem): Sale {
    Sale(0, item.productName, item.quantity, item.subtotal)
  }

  /** Every `OrderItem` row of every order, as sold lines. */
  function AllSales(orders: seq<OrderRecord>): (sales: seq<Sale>) {
    if orders == [] then []
    else
      var items := orders[|orders| - 1].items;
      AllSales(orders[..|orders| - 1]) + seq(|items|, i requires 0 <= i < |items| => SaleOf(items[i]))
  }

  /** The product names of result rows, in order. */
  function ProductNames(r: seq<TopProduct>): (names: seq<string>)
    ensures |names| == |r| && forall i :: 0 <= i < |r| ==> names[i] == r[i].productName
  {
    seq(|r|, i requires 0 <= i < |r| => r[i].productName)
  }

  /** The `map` of `getTopProducts`: the summed quantity narrowed to `int`. */
  function ToTopProducts(gs: seq<Group>): (r: seq<TopProduct>)
    ensures |r| == |gs|
    ensures forall i :: 0 <= i < |gs| ==> r[i] == TopProduct(gs[i].name, ToInt32(gs[i].totalSold), gs[i].totalRevenue)
  {
    seq(|gs|, i requires 0 <= i < |gs| => TopProduct(gs[i].name, ToInt32(gs[i].totalSold), gs[i].totalRevenue))
  }

  /**
   * `getTopProducts(limit)`: a negative limit is refused; otherwise the order lines grouped
   * by product name, largest summed quantity first, at most `limit` of them, one per name,
   * each with its name's sums, the quantity narrowed to `int`.
   */
  function GetTopProducts(orders: seq<OrderRecord>, limit: int): (r: Result<seq<TopProduct>, StatisticsError>)
    ensures r.Failure? <==> limit < 0
    ensures r.Success? ==>
      var sales := AllSales(orders);
      && |r.value| == (if limit < |Names(sales)| then limit else |Names(sales)|)
      && (forall i, j :: 0 <= i < j < |r.value| ==>
            && SoldOf(sales, r.value[i].productName) >= SoldOf(sales, r.value[j].productName)
            && r.value[i].productName != r.value[j].productName)
      && (forall i :: 0 <= i < |r.value| ==>
            && r.value[i].productName in Names(sales)
            && r.value[i].totalSold == ToInt32(SoldOf(sales, r.value[i].productName))
            && r.value[i].totalRevenue == RevenueOf(sales, r.value[i].productName))
      && KeepsBestSellers(ProductNames(r.value), sales)
  {
    if limit < 0 then Failure(NegativeLimit)
    else
      var sales := AllSales(orders);
      TopProductsOf(sales, limit);
      TopProductsAreBestSellers(sales, limit);
      Success(ToTopProducts(SqlLimit(SortBy(GroupByName(sales), MostSoldFirst), limit)))
  }

  /** The first `limit` rows, most sold first, of the tally of `sales`, one per name with its sums. */
  lemma TopProductsOf(sales: seq<Sale>, limit: int)
    requires limit >= 0
    ensures var r := ToTopProducts(SqlLimit(SortBy(GroupByName(sales), MostSoldFirst), limit));
      && |r| == (if limit < |Names(sales)| then limit else |Names(sales)|)
      && (forall i, j :: 0 <= i < j < |r| ==>
            SoldOf(sales, r[i].productName) >= SoldOf(sales, r[j].productName) && r[i].productName != r[j].productName)
      && forall i :: 0 <= i < |r| ==>
           && r[i].productName in Names(sales)
           && r[i].totalSold == ToInt32(SoldOf(sales, r[i].productName))
           && r[i].totalRevenue == RevenueOf(sales, r[i].productName)
  {
    var gs := GroupByName(sales);
    var ranked := SortBy(gs, MostSoldFirst);
    RankedTallies(gs, ranked, sales);
    RankedPrefix(ranked, SqlLimit(ranked, limit), sales);
  }

  /** No sold name left out of the first `limit` rows sold more units than a name kept in them. */
  lemma TopProductsAreBestSellers(sales: seq<Sale>, limit: int)
    ensures KeepsBestSellers(ProductNames(ToTopProducts(SqlLimit(SortBy(GroupByName(sales), MostSoldFirst), limit))), sales)
  {
    var gs := GroupByName(sales);
    var ranked := SortBy(gs, MostSoldFirst);
    var top := SqlLimit(ranked, limit);
    RankedTallies(gs, ranked, sales);
    RankedPrefix(ranked, top, sales);
    assert ProductNames(ToTopProducts(top)) == NameList(top);
  }
}
