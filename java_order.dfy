/**
 * The backend's persisted order: the `Order` JPA entity with its `@PrePersist` defaults,
 * and the order table behind `OrderRepository`, whose rows carry identity ids and
 * pairwise distinct idempotency keys.
 */
module JavaOrder {
  import opened Wrappers
  import opened Seqs
  import opened OrderKinds
  import opened Clock

  /** An `OrderItem` as saved with its order: a snapshot of the product's name and price. */
  datatype OrderItem = OrderItem(
    productId: int, productName: string, quantity: int, unitPrice: int,
    modifiers: Option<string>, subtotal: int)

  function ItemSubtotal(item: OrderItem): int { item.subtotal }
  function ItemQuantity(item: OrderItem): int { item.quantity }

  /**
   * The `Order` entity before it is saved. `status` and `createdAt` may still be null;
   * `items` starts as the empty list of `@Builder.Default`.
   */
  class Order {
    var status: Option<OrderStatus>
    var orderType: OrderType
    var tableNumber: Option<string>
    var totalAmount: int
    var idempotencyKey: Option<string>
    var createdAt: Option<Timestamp>
    var items: seq<OrderItem>

    /** `Order.builder()...build()`: the given fields, no timestamp, no items, total 0. */
    constructor (orderType: OrderType, tableNumber: Option<string>, idempotencyKey: Option<string>, status: Option<OrderStatus>)
      ensures this.orderType == orderType && this.tableNumber == tableNumber
      ensures this.idempotencyKey == idempotencyKey && this.status == status
      ensures createdAt == None && items == [] && totalAmount == 0
    {
      this.orderType := orderType;
      this.tableNumber := tableNumber;
      this.idempotencyKey := idempotencyKey;
      this.status := status;
      createdAt := None;
      items := [];
      totalAmount := 0;
    }

    /** `setItems` followed by `setTotalAmount`. */
    method SetItemsAndTotal(newItems: seq<OrderItem>, total: int)
      modifies this
      ensures items == newItems && totalAmount == total
      ensures status == old(status) && orderType == old(orderType) && tableNumber == old(tableNumber)
      ensures idempotencyKey == old(idempotencyKey) && createdAt == old(createdAt)
    {
      items := newItems;
      totalAmount := total;
    }

    /**
     * `onCreate`, run before the first insert: the creation time is always overwritten with
     * `now`; the status becomes PENDING only when none was set, so an explicit status stays.
     */
    method OnCreate(now: Timestamp)
      modifies this
      ensures createdAt == Some(now)
      ensures status == if old(status).None? then Some(Pending) else old(status)
      ensures orderType == old(orderType) && tableNumber == old(tableNumber) && totalAmount == old(totalAmount)
      ensures idempotencyKey == old(idempotencyKey) && items == old(items)
    {
      createdAt := Some(now);
      if status.None? {
        status := Some(Pending);
      }
    }
  }

  /** A row of the `orders` table with its items: what the repository hands back. */
  datatype OrderRecord = OrderRecord(
    id: int, status: OrderStatus, orderType: OrderType, tableNumber: Option<string>,
    totalAmount: int, idempotencyKey: Option<string>, createdAt: Timestamp, items: seq<OrderItem>)

  function RecordId(o: OrderRecord): int { o.id }
  function RecordTotal(o: OrderRecord): int { o.totalAmount }

  /** `uk_orders_idempotency_key`: no two rows share a non-null key. */
  ghost predicate KeysUnique(rows: seq<OrderRecord>) {
    forall i, j :: 0 <= i < j < |rows| && rows[i].idempotencyKey.Some? ==>
      rows[i].idempotencyKey != rows[j].idempotencyKey
  }

  /** The row whose key is `key`, if any (`findByIdempotencyKey`). */
  function FindByKey(rows: seq<OrderRecord>, key: string): (r: Option<OrderRecord>)
    ensures r.None? <==> forall i :: 0 <= i < |rows| ==> rows[i].idempotencyKey != Some(key)
    ensures r.Some? ==> r.value in rows && r.value.idempotencyKey == Some(key)
  {
    if rows == [] then None
    else if rows[0].idempotencyKey == Some(key) then Some(rows[0])
    else
      var r := FindByKey(rows[1..], key);
      assert forall i :: 1 <= i < |rows| ==> rows[i] == rows[1..][i - 1];
      r
  }

  /** The row with id `id`, if any (`findById`). */
  function FindById(rows: seq<OrderRecord>, id: int): (r: Option<OrderRecord>)
    ensures r.None? <==> forall i :: 0 <= i < |rows| ==> rows[i].id != id
    ensures r.Some? ==> r.value in rows && r.value.id == id
  {
    match FindIndex(rows, RecordId, id)
    case Some(k) => Some(rows[k])
    case None => None
  }

  /** The error of a save that breaks `uk_orders_idempotency_key`. */
  datatype SaveError = DuplicateIdempotencyKey

  /** The `orders` table: rows in insertion order and the next identity value. */
  class OrderRepository {
    var rows: seq<OrderRecord>
    var nextId: int

    ghost predicate Valid()
      reads this
    {
      Fresh(rows, RecordId, nextId) && KeysUnique(rows)
    }

    constructor ()
      ensures Valid() && rows == [] && nextId == 1
    {
      rows := [];
      nextId := 1;
    }

    /**
     * `save` of a new order: `onCreate` runs first, then the insert either takes the next
     * identity id or, when another row already holds the same non-null idempotency key,
     * fails on the unique constraint and leaves the table as it was.
     */
    method Insert(order: Order, now: Timestamp) returns (r: Result<OrderRecord, SaveError>)
      requires Valid()
      modifies this, order
      ensures Valid()
      ensures order.createdAt == Some(now)
      ensures order.status == if old(order.status).None? then Some(Pending) else old(order.status)
      ensures order.items == old(order.items) && order.totalAmount == old(order.totalAmount)
      ensures order.idempotencyKey == old(order.idempotencyKey)
      ensures order.orderType == old(order.orderType) && order.tableNumber == old(order.tableNumber)
      ensures (order.idempotencyKey.Some? && FindByKey(old(rows), order.idempotencyKey.value).Some?) <==> r.Failure?
      ensures r.Failure? ==> r == Failure(DuplicateIdempotencyKey)
      ensures r.Failure? ==> rows == old(rows) && nextId == old(nextId)
      ensures r.Success? ==>
        && r.value == OrderRecord(old(nextId), order.status.value, order.orderType, order.tableNumber,
                                  order.totalAmount, order.idempotencyKey, now, order.items)
        && rows == old(rows) + [r.value]
        && nextId == old(nextId) + 1
    {
      order.OnCreate(now);
      if order.idempotencyKey.Some? && FindByKey(rows, order.idempotencyKey.value).Some? {
        r := Failure(DuplicateIdempotencyKey);
      } else {
        var record := OrderRecord(nextId, order.status.value, order.orderType, order.tableNumber,
                                  order.totalAmount, order.idempotencyKey, now, order.items);
        rows := rows + [record];
        nextId := nextId + 1;
        r := Success(record);
      }
    }

    /** `save` of an order read back with `findById` and changed: the row with its id is replaced. */
    method Update(record: OrderRecord)
      requires Valid()
      requires exists i :: 0 <= i < |rows| && rows[i].id == record.id
      requires forall i :: 0 <= i < |rows| && rows[i].id == record.id ==> rows[i].idempotencyKey == record.idempotencyKey
      modifies this
      ensures Valid()
      ensures nextId == old(nextId) && |rows| == |old(rows)|
      ensures forall i :: 0 <= i < |rows| ==> rows[i] == if old(rows)[i].id == record.id then record else old(rows)[i]
    {
      var k :| 0 <= k < |rows| && rows[k].id == record.id;
      rows := rows[k := record];
    }
  }
}
