/**
 * `AdminOrderService`: the paged order list, newest first, and the lookups and status
 * change of a single order.
 */
module AdminOrderService {
  import opened Wrappers
  import opened Seqs
  import opened OrderKinds
  import opened Clock
  import opened JavaOrder

  /** Why the admin calls throw. */
  datatype AdminError =
    | InvalidPageRequest          // IllegalArgumentException of PageRequest.of
    | OrderNotFound(id: int)      // ResourceNotFoundException
    | UnknownStatus               // IllegalArgumentException of OrderStatus.valueOf

  function NewestFirst(o: OrderRecord): int { -Instant(o.createdAt) }

  /** `Sort.by("createdAt").descending()`; rows with equal times keep table order. */
  function ByCreatedAtDescending(rows: seq<OrderRecord>): (r: seq<OrderRecord>)
    ensures forall i, j :: 0 <= i < j < |r| ==> Instant(r[i].createdAt) >= Instant(r[j].createdAt)
    ensures multiset(r) == multiset(rows) && |r| == |rows|
    ensures forall t :: WithKey(r, NewestFirst, t) == WithKey(rows, NewestFirst, t)
  {
    var r := SortBy(rows, NewestFirst);
    assert forall i, j :: 0 <= i < j < |r| ==> NewestFirst(r[i]) <= NewestFirst(r[j]);
    r
  }

  /**
   * `getAllOrders(page, size)`: a negative page or a size below 1 is refused; otherwise the
   * `page`-th run of `size` orders of the newest-first list, shorter or empty past its end.
   */
  function GetAllOrders(rows: seq<OrderRecord>, page: int, size: int): (r: Result<seq<OrderRecord>, AdminError>)
    ensures r.Failure? <==> page < 0 || size < 1
    ensures r.Failure? ==> r.error == InvalidPageRequest
    ensures r.Success? ==>
      && |r.value| <= size
      && |r.value| == (if page * size >= |rows| then 0
                       else if page * size + size <= |rows| then size
                       else |rows| - page * size)
      && forall i :: 0 <= i < |r.value| ==> r.value[i] == ByCreatedAtDescending(rows)[page * size + i]
  {
    if page < 0 || size < 1 then Failure(InvalidPageRequest)
    else
      PageOffset(page, size);
      Success(Slice(ByCreatedAtDescending(rows), page * size, size))
  }

  /** A page never starts before the first row. */
  lemma PageOffset(page: int, size: int)
    requires page >= 0 && size >= 1
    ensures page * size >= 0
  {
  }

  /** The run of at most `size` elements starting at `from`, empty past the end. */
  function Slice<T>(s: seq<T>, from: int, size: int): (r: seq<T>)
    requires from >= 0 && size >= 1
    ensures |r| <= size
    ensures |r| == (if from >= |s| then 0 else if from + size <= |s| then size else |s| - from)
    ensures forall i :: 0 <= i < |r| ==> r[i] == s[from + i]
  {
    var lo := if from < |s| then from else |s|;
    var hi := if from + size < |s| then from + size else |s|;
    s[lo..hi]
  }

  /** Rank `k` lies on page `k / size`, at slot `k % size` of it. */
  lemma PageOfRank(k: nat, size: int)
    requires size >= 1
    ensures k / size >= 0
    ensures (k / size) * size <= k < (k / size) * size + size
    ensures k % size == k - (k / size) * size
  {
  }

  /** Every order lies on exactly one page: the one numbered by its rank divided by the size. */
  lemma OrderOnItsPage(rows: seq<OrderRecord>, k: nat, size: int)
    requires k < |rows| && size >= 1
    ensures GetAllOrders(rows, k / size, size).Success?
    ensures k % size < |GetAllOrders(rows, k / size, size).value|
    ensures GetAllOrders(rows, k / size, size).value[k % size] == ByCreatedAtDescending(rows)[k]
  {
    PageOfRank(k, size);
    var from := (k / size) * size;
    var page := GetAllOrders(rows, k / size, size).value;
    assert from <= k < from + size && from < |rows|;
    assert page[k - from] == ByCreatedAtDescending(rows)[from + (k - from)];
  }

  /** `getOrderById`: the order with that id, or not found. */
  function GetOrderById(rows: seq<OrderRecord>, id: int): (r: Result<OrderRecord, AdminError>)
    ensures r.Failure? <==> forall i :: 0 <= i < |rows| ==> rows[i].id != id
    ensures r.Failure? ==> r.error == OrderNotFound(id)
    ensures r.Success? ==> r.value in rows && r.value.id == id
  {
    match FindById(rows, id)
    case Some(o) => Success(o)
    case None => Failure(OrderNotFound(id))
  }

  /**
   * `updateOrderStatus`: an unknown order fails first; then a name that is no status fails
   * and changes nothing; otherwise that order takes the status, from whatever status it had,
   * and nothing else changes.
   */
  method UpdateOrderStatus(repo: OrderRepository, id: int, status: string) returns (r: Result<OrderRecord, AdminError>)
    requires repo.Valid()
    modifies repo
    ensures repo.Valid()
    ensures repo.nextId == old(repo.nextId)
    ensures FindById(old(repo.rows), id).None? <==> r == Failure(OrderNotFound(id))
    ensures FindById(old(repo.rows), id).Some? && ParseStatus(status).None? <==> r == Failure(UnknownStatus)
    ensures FindById(old(repo.rows), id).Some? && ParseStatus(status).Some? <==> r.Success?
    ensures r.Failure? ==> repo.rows == old(repo.rows)
    ensures r.Success? ==>
      && Some(r.value.status) == ParseStatus(status)
      && r.value == FindById(old(repo.rows), id).value.(status := r.value.status)
      && |repo.rows| == |old(repo.rows)|
      && forall i :: 0 <= i < |repo.rows| ==> repo.rows[i] == if old(repo.rows)[i].id == id then r.value else old(repo.rows)[i]
  {
    match FindById(repo.rows, id) {
      case None =>
        r := Failure(OrderNotFound(id));
      case Some(order) =>
        match ParseStatus(status) {
          case None =>
            r := Failure(UnknownStatus);
          case Some(s) =>
            var updated := order.(status := s);
            ghost var k :| 0 <= k < |repo.rows| && repo.rows[k] == order;
            assert forall i :: 0 <= i < |repo.rows| && repo.rows[i].id == id ==> i == k;
            repo.Update(updated);
            r := Success(updated);
        }
    }
  }
}
