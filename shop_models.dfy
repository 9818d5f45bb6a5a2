/**
 * The shop's order tables (app/shop/models.py): orders with a status and
 * totals, and order items that belong to an order and may point at a product.
 * A table is a sequence of rows kept in creation order, so primary keys
 * increase along it; the model's `-id` ordering reads it from the end.
 */
module ShopModels {
  import opened Wrappers

  type OrderId = nat
  type ItemId = nat
  type ProductId = nat
  type UserId = nat

  /** The two `order_status` choices. */
  datatype OrderStatus = Pending | Done

  /** `max_length` of the `order_status` column. */
  const StatusMaxLength: nat := 9

  /** The text stored in the `order_status` column. */
  function StatusValue(s: OrderStatus): (v: string)
    ensures 0 < |v| <= StatusMaxLength
  {
    match s
    case Pending => "Pending"
    case Done => "Done"
  }

  /** Reads a stored status back; text outside the choices is rejected. */
  function ParseStatus(v: string): (r: Option<OrderStatus>)
    ensures r.Some? ==> StatusValue(r.value) == v
    ensures r.None? ==> forall s: OrderStatus :: StatusValue(s) != v
  {
    if v == "Pending" then Some(Pending)
    else if v == "Done" then Some(Done)
    else None
  }

  /** Both choices survive being written and read back. */
  lemma StatusRoundTrip(s: OrderStatus)
    ensures ParseStatus(StatusValue(s)) == Some(s)
  {
  }

  datatype Order = Order(
    id: OrderId,
    status: OrderStatus,
    totalQuantity: int,
    totalPrice: Option<real>,
    user: Option<UserId>)

  /** A new order with no explicit field values: the column defaults apply. */
  function NewOrder(id: OrderId, user: Option<UserId>): (o: Order)
    ensures o.id == id && o.user == user
    ensures o.status == Pending && StatusValue(o.status) == "Pending"
    ensures o.totalQuantity == 0 && o.totalPrice == Some(0.0)
  {
    Order(id, Pending, 0, Some(0.0), user)
  }

  datatype OrderItem = OrderItem(
    id: ItemId,
    order: OrderId,
    product: Option<ProductId>,
    quantity: real)

  /** Default of the non-null `quantity` column. */
  const DefaultQuantity: real := 1.0

  /** A new order item; a quantity that is not given takes the column default. */
  function NewOrderItem(id: ItemId, order: OrderId, product: Option<ProductId>, quantity: Option<real>)
    : (it: OrderItem)
    ensures it.id == id && it.order == order && it.product == product
    ensures quantity.None? ==> it.quantity == DefaultQuantity
    ensures quantity.Some? ==> it.quantity == quantity.value
  {
    OrderItem(id, order, product, if quantity.Some? then quantity.value else DefaultQuantity)
  }

  /** The primary keys of the order table. */
  function OrderIds(orders: seq<Order>): set<OrderId>
  {
    set k | 0 <= k < |orders| :: orders[k].id
  }

  /** Rows are in creation order: the auto-increment keys strictly increase. */
  ghost predicate IdsAscending(items: seq<OrderItem>)
  {
    forall i, j :: 0 <= i < j < |items| ==> items[i].id < items[j].id
  }

  /** Every key already handed out is below the next one. */
  ghost predicate IdsBelow(items: seq<OrderItem>, next: ItemId)
  {
    forall i :: 0 <= i < |items| ==> items[i].id < next
  }

  /** Every item belongs to an order that exists (the `order` foreign key). */
  ghost predicate ItemsBelongTo(items: seq<OrderItem>, orderIds: set<OrderId>)
  {
    forall i :: 0 <= i < |items| ==> items[i].order in orderIds
  }

  /** Order rows are in creation order: their auto-increment keys strictly increase. */
  ghost predicate OrderKeysAscending(orders: seq<Order>)
  {
    forall i, j :: 0 <= i < j < |orders| ==> orders[i].id < orders[j].id
  }

  /** Every order key already handed out is below the next one. */
  ghost predicate OrderKeysBelow(orders: seq<Order>, next: OrderId)
  {
    forall i :: 0 <= i < |orders| ==> orders[i].id < next
  }

  /** Distinct rows of an ascending order table have distinct keys, so an item's `order` names exactly one order. */
  lemma OrderKeysUnique(orders: seq<Order>, i: nat, j: nat)
    requires OrderKeysAscending(orders)
    requires i < |orders| && j < |orders| && orders[i].id == orders[j].id
    ensures i == j
  {
  }

  /** The item table's invariant. */
  ghost predicate TableValid(items: seq<OrderItem>, next: ItemId, orderIds: set<OrderId>)
  {
    IdsAscending(items) && IdsBelow(items, next) && ItemsBelongTo(items, orderIds)
  }

  /**
   * `OrderItem.objects.filter(order=o)` in the model's default `-id` order:
   * the items of `o`, newest first.
   */
  function ItemsOfOrder(items: seq<OrderItem>, o: OrderId): (r: seq<OrderItem>)
    ensures forall k :: 0 <= k < |r| ==> r[k] in items && r[k].order == o
    ensures forall x :: x in items && x.order == o ==> x in r
    ensures |r| <= |items|
  {
    if items == [] then []
    else
      var last := items[|items| - 1];
      var rest := ItemsOfOrder(items[..|items| - 1], o);
      if last.order == o then [last] + rest else rest
  }

  /** With ascending keys, that query lists the items by strictly descending key. */
  lemma {:induction false} ItemsOfOrderDescending(items: seq<OrderItem>, o: OrderId)
    requires IdsAscending(items)
    ensures forall i, j :: 0 <= i < j < |ItemsOfOrder(items, o)| ==>
      ItemsOfOrder(items, o)[i].id > ItemsOfOrder(items, o)[j].id
  {
    if items != [] {
      var front := items[..|items| - 1];
      assert IdsAscending(front);
      ItemsOfOrderDescending(front, o);
      var last := items[|items| - 1];
      var r := ItemsOfOrder(items, o);
      if last.order == o {
        forall k | 1 <= k < |r| ensures r[0].id > r[k].id {
          assert r[k] in front;
        }
      }
    }
  }

  /**
   * The position of `.first()` of that query: the last row of the table that
   * belongs to `o`, or `None` when the order has no items.
   */
  function FirstIndex(items: seq<OrderItem>, o: OrderId): (r: Option<nat>)
    ensures r.None? <==> forall i :: 0 <= i < |items| ==> items[i].order != o
    ensures r.Some? ==> r.value < |items| && items[r.value].order == o
    ensures r.Some? ==> forall j :: r.value < j < |items| ==> items[j].order != o
  {
    if items == [] then None
    else if items[|items| - 1].order == o then Some(|items| - 1)
    else FirstIndex(items[..|items| - 1], o)
  }

  /** `.first()` is the head of the `-id` query, and there is one exactly when the order has items. */
  lemma {:induction false} FirstIndexIsQueryHead(items: seq<OrderItem>, o: OrderId)
    ensures FirstIndex(items, o).None? <==> ItemsOfOrder(items, o) == []
    ensures FirstIndex(items, o).Some? ==> ItemsOfOrder(items, o)[0] == items[FirstIndex(items, o).value]
  {
    if items != [] && items[|items| - 1].order != o {
      FirstIndexIsQueryHead(items[..|items| - 1], o);
    }
  }

  /** `.first()` is the item of the order with the highest key, i.e. the newest one. */
  lemma FirstIndexIsNewest(items: seq<OrderItem>, o: OrderId, j: nat)
    requires IdsAscending(items)
    requires j < |items| && items[j].order == o
    ensures FirstIndex(items, o).Some?
    ensures items[j].id <= items[FirstIndex(items, o).value].id
  {
  }

  /** Changing quantities (or products) leaves `.first()` where it was. */
  lemma {:induction false} FirstIndexIgnoresPayload(items: seq<OrderItem>, items': seq<OrderItem>, o: OrderId)
    requires |items| == |items'|
    requires forall i :: 0 <= i < |items| ==> items[i].order == items'[i].order
    ensures FirstIndex(items, o) == FirstIndex(items', o)
  {
    if items != [] {
      FirstIndexIgnoresPayload(items[..|items| - 1], items'[..|items| - 1], o);
    }
  }

  /** `on_delete=CASCADE`: deleting order `o` deletes all of its items and keeps every other item in order. */
  function CascadeOrder(items: seq<OrderItem>, o: OrderId): (r: seq<OrderItem>)
    ensures forall x :: x in r <==> x in items && x.order != o
    ensures |r| <= |items|
  {
    if items == [] then []
    else
      var rest := CascadeOrder(items[..|items| - 1], o);
      var last := items[|items| - 1];
      assert items == items[..|items| - 1] + [last];
      if last.order == o then rest else rest + [last]
  }

  /** The keys of a table with one more row in front. */
  lemma OrderIdsCons(x: Order, orders: seq<Order>)
    ensures OrderIds([x] + orders) == {x.id} + OrderIds(orders)
  {
    var s := [x] + orders;
    forall y | y in OrderIds(s) ensures y in {x.id} + OrderIds(orders) {
      var k :| 0 <= k < |s| && s[k].id == y;
      if k > 0 { assert orders[k - 1].id == y; }
    }
    forall y | y in OrderIds(orders) ensures y in OrderIds(s) {
      var k :| 0 <= k < |orders| && orders[k].id == y;
      assert s[k + 1].id == y;
    }
    assert s[0].id == x.id;
  }

  /** Deleting an order from the order table. */
  function RemoveOrder(orders: seq<Order>, o: OrderId): (r: seq<Order>)
    ensures forall x :: x in r <==> x in orders && x.id != o
    ensures OrderIds(r) == OrderIds(orders) - {o}
  {
    if orders == [] then []
    else
      var rest := RemoveOrder(orders[1..], o);
      assert orders == [orders[0]] + orders[1..];
      OrderIdsCons(orders[0], orders[1..]);
      if orders[0].id == o then rest
      else
        OrderIdsCons(orders[0], rest);
        [orders[0]] + rest
  }

  /** Deleting an order keeps the order keys ascending and below the next key. */
  lemma {:induction false} RemoveOrderKeepsKeys(orders: seq<Order>, o: OrderId, next: OrderId)
    requires OrderKeysAscending(orders) && OrderKeysBelow(orders, next)
    ensures OrderKeysAscending(RemoveOrder(orders, o)) && OrderKeysBelow(RemoveOrder(orders, o), next)
  {
    var r := RemoveOrder(orders, o);
    forall k | 0 <= k < |r| ensures r[k].id < next {
      assert r[k] in orders;
    }
    if orders != [] {
      var tail := orders[1..];
      assert OrderKeysAscending(tail) && OrderKeysBelow(tail, next);
      RemoveOrderKeepsKeys(tail, o, next);
      var rest := RemoveOrder(tail, o);
      if orders[0].id != o {
        forall k | 0 <= k < |rest| ensures orders[0].id < rest[k].id {
          assert rest[k] in tail;
        }
        assert r == [orders[0]] + rest;
      }
    }
  }

  /** A subsequence of an ascending table is ascending. */
  lemma {:induction false} CascadeOrderKeepsOrder(items: seq<OrderItem>, o: OrderId)
    requires IdsAscending(items)
    ensures IdsAscending(CascadeOrder(items, o))
  {
    if items != [] {
      var front := items[..|items| - 1];
      assert IdsAscending(front);
      CascadeOrderKeepsOrder(front, o);
      var rest := CascadeOrder(front, o);
      var last := items[|items| - 1];
      if last.order != o {
        forall k | 0 <= k < |rest| ensures rest[k].id < last.id {
          assert rest[k] in front;
        }
      }
    }
  }

  /** Deleting an order (rows and cascade) keeps the item table valid against the remaining orders. */
  lemma DeleteOrderKeepsTableValid(orders: seq<Order>, items: seq<OrderItem>, next: ItemId, o: OrderId)
    requires TableValid(items, next, OrderIds(orders))
    ensures TableValid(CascadeOrder(items, o), next, OrderIds(RemoveOrder(orders, o)))
  {
    CascadeOrderKeepsOrder(items, o);
    var r := CascadeOrder(items, o);
    forall k | 0 <= k < |r| ensures r[k].id < next && r[k].order in OrderIds(orders) - {o} {
      assert r[k] in items;
    }
  }

  /** `on_delete=SET_NULL` on `OrderItem.product`: deleting product `p` keeps every item and clears only its references to `p`. */
  function ClearProduct(items: seq<OrderItem>, p: ProductId): (r: seq<OrderItem>)
    ensures |r| == |items|
    ensures forall i :: 0 <= i < |r| ==>
      r[i].id == items[i].id && r[i].order == items[i].order && r[i].quantity == items[i].quantity
    ensures forall i :: 0 <= i < |r| ==>
      r[i].product == (if items[i].product == Some(p) then None else items[i].product)
  {
    if items == [] then []
    else
      var it := items[0];
      [if it.product == Some(p) then it.(product := None) else it] + ClearProduct(items[1..], p)
  }

  /** Deleting a product keeps the item table valid and does not move `.first()` of any order. */
  lemma DeleteProductKeepsTable(items: seq<OrderItem>, next: ItemId, orderIds: set<OrderId>, p: ProductId)
    requires TableValid(items, next, orderIds)
    ensures TableValid(ClearProduct(items, p), next, orderIds)
    ensures forall i :: 0 <= i < |items| ==> ClearProduct(items, p)[i].product != Some(p)
    ensures forall o :: FirstIndex(ClearProduct(items, p), o) == FirstIndex(items, o)
  {
    forall o ensures FirstIndex(ClearProduct(items, p), o) == FirstIndex(items, o) {
      FirstIndexIgnoresPayload(ClearProduct(items, p), items, o);
    }
  }

  /** `on_delete=SET_NULL` on `Order.user`: deleting user `u` keeps every order and detaches it from `u`. */
  function DetachUser(orders: seq<Order>, u: UserId): (r: seq<Order>)
    ensures |r| == |orders|
    ensures forall i :: 0 <= i < |r| ==>
      r[i] == (if orders[i].user == Some(u) then orders[i].(user := None) else orders[i])
  {
    if orders == [] then []
    else
      var x := orders[0];
      [if x.user == Some(u) then x.(user := None) else x] + DetachUser(orders[1..], u)
  }

  /** Deleting a user changes no order key, so no item loses its order. */
  lemma DeleteUserKeepsOrders(orders: seq<Order>, u: UserId)
    ensures OrderIds(DetachUser(orders, u)) == OrderIds(orders)
  {
    var r := DetachUser(orders, u);
    assert forall k :: 0 <= k < |r| ==> r[k].id == orders[k].id;
  }
}
