/**
 * The cart store of the tablet app and of the admin app's point-of-sale screen (the two
 * stores are the same code): a list of cart lines, and the new list each action computes
 * from the old one.
 */
module Cart {
  import opened Wrappers
  import opened Seqs

  datatype CartItem = CartItem(productId: int, name: string, price: int, quantity: int, modifiers: Option<string>)

  /** What `addItem` is given: a cart line without its quantity. */
  datatype NewItem = NewItem(productId: int, name: string, price: int, modifiers: Option<string>)

  function ProductIdOf(line: CartItem): int { line.productId }
  function QuantityOf(line: CartItem): int { line.quantity }
  function LineTotal(line: CartItem): int { line.price * line.quantity }

  /** Some line is for product `pid`. */
  ghost predicate InCart(items: seq<CartItem>, pid: int) {
    exists i :: 0 <= i < |items| && items[i].productId == pid
  }

  /** The store's invariant: one line per product, and every quantity at least 1. */
  ghost predicate WellFormed(items: seq<CartItem>) {
    && (forall i, j :: 0 <= i < j < |items| ==> items[i].productId != items[j].productId)
    && (forall i :: 0 <= i < |items| ==> items[i].quantity >= 1)
  }

  /**
   * `addItem`: a product already in the cart gets one more unit on its first line (name,
   * price and modifiers of that line stay); a new product is appended with quantity 1.
   */
  function AddItem(items: seq<CartItem>, item: NewItem): (r: seq<CartItem>)
    ensures !InCart(items, item.productId) ==>
      r == items + [CartItem(item.productId, item.name, item.price, 1, item.modifiers)]
    ensures InCart(items, item.productId) ==> |r| == |items|
    ensures forall k :: FirstWithKey(items, ProductIdOf, item.productId, k) ==>
      r == items[k := items[k].(quantity := items[k].quantity + 1)]
  {
    match FindIndex(items, ProductIdOf, item.productId)
    case Some(k) =>
      FirstWithKeyUnique(items, ProductIdOf, item.productId, k);
      items[k := items[k].(quantity := items[k].quantity + 1)]
    case None => items + [CartItem(item.productId, item.name, item.price, 1, item.modifiers)]
  }

  /** `removeItem`: keeps exactly the lines of other products, in their order. */
  function RemoveItem(items: seq<CartItem>, pid: int): (r: seq<CartItem>)
    ensures forall x :: x in r <==> x in items && x.productId != pid
    ensures |r| <= |items|
  {
    if items == [] then []
    else if items[0].productId != pid then [items[0]] + RemoveItem(items[1..], pid)
    else RemoveItem(items[1..], pid)
  }

  /** Removing from a concatenation removes from each part and keeps the parts in order. */
  lemma {:induction false} RemoveItemKeepsOrder(a: seq<CartItem>, b: seq<CartItem>, pid: int)
    ensures RemoveItem(a + b, pid) == RemoveItem(a, pid) + RemoveItem(b, pid)
  {
    if a == [] {
      assert a + b == b;
    } else {
      assert (a + b)[0] == a[0] && (a + b)[1..] == a[1..] + b;
      RemoveItemKeepsOrder(a[1..], b, pid);
    }
  }

  /**
   * `updateQuantity`: a quantity of 0 or less removes the product's lines; otherwise every
   * line of that product takes the new quantity (a line already at it is kept as is) and
   * every other line is untouched.
   */
  function UpdateQuantity(items: seq<CartItem>, pid: int, quantity: int): (r: seq<CartItem>)
    ensures quantity <= 0 ==> r == RemoveItem(items, pid)
    ensures quantity > 0 ==>
      && |r| == |items|
      && forall i :: 0 <= i < |items| ==>
           r[i] == if items[i].productId == pid then items[i].(quantity := quantity) else items[i]
  {
    if quantity <= 0 then
      RemoveItem(items, pid)
    else
      seq(|items|, i requires 0 <= i < |items| =>
        if items[i].productId == pid then
          (if items[i].quantity == quantity then items[i] else items[i].(quantity := quantity))
        else items[i])
  }

  /** `clearCart`. */
  function ClearCart(): (r: seq<CartItem>)
    ensures WellFormed(r) && |r| == 0
  {
    []
  }

  /** `totalAmount()`: the sum of price times quantity over the lines. */
  function TotalAmount(items: seq<CartItem>): int {
    Sum(items, LineTotal)
  }

  /** `itemCount()`: the sum of the quantities. */
  function ItemCount(items: seq<CartItem>): int {
    Sum(items, QuantityOf)
  }

  lemma AddItemWellFormed(items: seq<CartItem>, item: NewItem)
    requires WellFormed(items)
    ensures WellFormed(AddItem(items, item))
  {
  }

  /** The lines after the first of a well-formed cart are well-formed. */
  lemma TailWellFormed(items: seq<CartItem>)
    requires WellFormed(items) && items != []
    ensures WellFormed(items[1..])
  {
    var tail := items[1..];
    forall i, j | 0 <= i < j < |tail| ensures tail[i].productId != tail[j].productId {
      assert tail[i] == items[i + 1] && tail[j] == items[j + 1];
    }
  }

  /** A line in front of a well-formed cart without its product, and with a positive quantity, keeps it well-formed. */
  lemma ConsWellFormed(x: CartItem, rest: seq<CartItem>)
    requires WellFormed(rest) && x.quantity >= 1
    requires forall j :: 0 <= j < |rest| ==> x.productId != rest[j].productId
    ensures WellFormed([x] + rest)
  {
    var r := [x] + rest;
    forall i, j | 0 <= i < j < |r| ensures r[i].productId != r[j].productId {
      assert r[j] == rest[j - 1];
      if i > 0 { assert r[i] == rest[i - 1]; }
    }
    forall i | 0 <= i < |r| ensures r[i].quantity >= 1 {
      if i > 0 { assert r[i] == rest[i - 1]; }
    }
  }

  lemma {:induction false} RemoveItemWellFormed(items: seq<CartItem>, pid: int)
    requires WellFormed(items)
    ensures WellFormed(RemoveItem(items, pid))
  {
    if items != [] {
      var tail := items[1..];
      TailWellFormed(items);
      RemoveItemWellFormed(tail, pid);
      var rest := RemoveItem(tail, pid);
      if items[0].productId != pid {
        forall j | 0 <= j < |rest| ensures items[0].productId != rest[j].productId {
          assert rest[j] in tail;
          var m :| 0 <= m < |tail| && tail[m] == rest[j];
          assert tail[m] == items[m + 1];
        }
        ConsWellFormed(items[0], rest);
      }
    }
  }

  lemma UpdateQuantityWellFormed(items: seq<CartItem>, pid: int, quantity: int)
    requires WellFormed(items)
    ensures WellFormed(UpdateQuantity(items, pid, quantity))
  {
    if quantity <= 0 {
      RemoveItemWellFormed(items, pid);
    }
  }

  /** One more unit on a line adds its price to the line's total. */
  lemma LineTotalBump(line: CartItem)
    ensures LineTotal(line.(quantity := line.quantity + 1)) == LineTotal(line) + line.price
  {
    assert line.price * (line.quantity + 1) == line.price * line.quantity + line.price;
  }

  /** Every `addItem` adds exactly one unit to the count. */
  lemma AddItemCount(items: seq<CartItem>, item: NewItem)
    ensures ItemCount(AddItem(items, item)) == ItemCount(items) + 1
  {
    match FindIndex(items, ProductIdOf, item.productId) {
      case Some(k) =>
        assert FirstWithKey(items, ProductIdOf, item.productId, k);
        SumUpdate(items, k, items[k].(quantity := items[k].quantity + 1), QuantityOf);
      case None =>
        var line := CartItem(item.productId, item.name, item.price, 1, item.modifiers);
        SumAppend(items, [line], QuantityOf);
        SumSingle(line, QuantityOf);
    }
  }

  /** `addItem` raises the total by one unit of the line's price: the cart line's own price when the product is already there. */
  lemma AddItemTotal(items: seq<CartItem>, item: NewItem)
    requires WellFormed(items)
    ensures !InCart(items, item.productId) ==> TotalAmount(AddItem(items, item)) == TotalAmount(items) + item.price
    ensures forall k :: 0 <= k < |items| && items[k].productId == item.productId ==>
      TotalAmount(AddItem(items, item)) == TotalAmount(items) + items[k].price
  {
    forall k | 0 <= k < |items| && items[k].productId == item.productId
      ensures TotalAmount(AddItem(items, item)) == TotalAmount(items) + items[k].price
    {
      assert FirstWithKey(items, ProductIdOf, item.productId, k);
      SumUpdate(items, k, items[k].(quantity := items[k].quantity + 1), LineTotal);
      LineTotalBump(items[k]);
    }
    if !InCart(items, item.productId) {
      var line := CartItem(item.productId, item.name, item.price, 1, item.modifiers);
      SumAppend(items, [line], LineTotal);
      SumSingle(line, LineTotal);
    }
  }

  /** Any per-line measure splits between the lines `removeItem` keeps and the lines of the removed product. */
  lemma {:induction false} RemoveItemSplits(items: seq<CartItem>, pid: int, f: CartItem -> int)
    ensures Sum(RemoveItem(items, pid), f) + Sum(WithKey(items, ProductIdOf, pid), f) == Sum(items, f)
  {
    if items != [] {
      var tail := items[1..];
      RemoveItemSplits(tail, pid, f);
      assert items == [items[0]] + tail;
      SumCons(items[0], tail, f);
      if items[0].productId == pid {
        assert WithKey(items, ProductIdOf, pid) == [items[0]] + WithKey(tail, ProductIdOf, pid);
        SumCons(items[0], WithKey(tail, ProductIdOf, pid), f);
      } else {
        assert WithKey(items, ProductIdOf, pid) == WithKey(tail, ProductIdOf, pid);
        SumCons(items[0], RemoveItem(tail, pid), f);
      }
    }
  }

  /** What `removeItem` takes away from the count and the total is exactly what the product's lines held. */
  lemma RemoveItemTotals(items: seq<CartItem>, pid: int)
    ensures ItemCount(RemoveItem(items, pid)) + ItemCount(WithKey(items, ProductIdOf, pid)) == ItemCount(items)
    ensures TotalAmount(RemoveItem(items, pid)) + TotalAmount(WithKey(items, ProductIdOf, pid)) == TotalAmount(items)
  {
    RemoveItemSplits(items, pid, QuantityOf);
    RemoveItemSplits(items, pid, LineTotal);
  }

  /** Setting a product's quantity to `q > 0` replaces its line's quantity in the count. */
  lemma UpdateQuantityCount(items: seq<CartItem>, pid: int, quantity: int, k: nat)
    requires WellFormed(items) && quantity > 0
    requires k < |items| && items[k].productId == pid
    ensures ItemCount(UpdateQuantity(items, pid, quantity)) == ItemCount(items) - items[k].quantity + quantity
  {
    var r := UpdateQuantity(items, pid, quantity);
    assert r == items[k := items[k].(quantity := quantity)];
    SumUpdate(items, k, items[k].(quantity := quantity), QuantityOf);
  }

  /** An emptied cart counts nothing and costs nothing. */
  lemma ClearCartTotals()
    ensures ItemCount(ClearCart()) == 0 && TotalAmount(ClearCart()) == 0
  {
  }
}
