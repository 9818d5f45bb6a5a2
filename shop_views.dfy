/**
 * `OrderViewSet.update` (app/shop/views.py): for every incoming record it looks
 * up the first item of the order again, adds the record's quantity to it in
 * place, or, when the order has no item, creates a product-less item.
 */
module ShopViews {
  import opened Wrappers
  import opened ShopModels

  /** One entry of the request's `order_items` list; only `quantity` is read. */
  datatype ItemRecord = ItemRecord(quantity: real, product: Option<ProductId>)

  /** The item table together with the next auto-increment key. */
  datatype ItemTable = ItemTable(items: seq<OrderItem>, next: ItemId)

  /** The quantities of the records, in request order. */
  function Quantities(records: seq<ItemRecord>): (qs: seq<real>)
    ensures |qs| == |records|
    ensures forall k :: 0 <= k < |records| ==> qs[k] == records[k].quantity
  {
    seq(|records|, k requires 0 <= k < |records| => records[k].quantity)
  }

  /** `if order_items_data:` — an absent or empty list contributes nothing. */
  function Payload(orderItems: Option<seq<ItemRecord>>): (qs: seq<real>)
    ensures orderItems.None? ==> qs == []
    ensures orderItems.Some? ==> qs == Quantities(orderItems.value)
  {
    if orderItems.Some? && |orderItems.value| > 0 then Quantities(orderItems.value) else []
  }

  /** Sum of quantities, taken from the right to match the request order. */
  function Sum(qs: seq<real>): real
  {
    if qs == [] then 0.0 else Sum(qs[..|qs| - 1]) + qs[|qs| - 1]
  }

  /**
   * One pass of the loop body for a quantity `q` sent for order `o`: the
   * order's newest item grows by `q`, or, when the order has none, a new
   * product-less item with the next key holds `q`. Either way the order has
   * an item afterwards, which the next pass finds.
   */
  function MergeOne(t: ItemTable, o: OrderId, q: real): (r: ItemTable)
    ensures FirstIndex(r.items, o).Some?
    ensures r.next == t.next + (if FirstIndex(t.items, o).None? then 1 else 0)
    ensures |r.items| == |t.items| + (r.next - t.next)
    ensures FirstIndex(t.items, o).Some? ==>
      var i := FirstIndex(t.items, o).value;
      r.items[i].quantity == t.items[i].quantity + q
      && r.items[i].(quantity := t.items[i].quantity) == t.items[i]
    ensures FirstIndex(t.items, o).Some? ==>
      var i := FirstIndex(t.items, o).value;
      r.items == t.items[i := t.items[i].(quantity := t.items[i].quantity + q)]
    ensures FirstIndex(t.items, o).None? ==>
      r.items == t.items + [OrderItem(t.next, o, None, q)] && FirstIndex(r.items, o) == Some(|t.items|)
  {
    match FirstIndex(t.items, o)
    case Some(i) =>
      var items' := t.items[i := t.items[i].(quantity := t.items[i].quantity + q)];
      FirstIndexIgnoresPayload(items', t.items, o);
      ItemTable(items', t.next)
    case None => ItemTable(t.items + [NewOrderItem(t.next, o, None, Some(q))], t.next + 1)
  }

  /**
   * The whole loop: the records are processed in order, each one against the
   * table the previous ones left. A key is consumed exactly when a row is
   * created, and that happens once at most: only when the order started
   * without items and the batch is not empty.
   */
  function MergeAll(t: ItemTable, o: OrderId, qs: seq<real>): (r: ItemTable)
    ensures qs == [] ==> r == t
    ensures qs != [] ==> FirstIndex(r.items, o).Some?
    ensures r.next == t.next + (if FirstIndex(t.items, o).None? && qs != [] then 1 else 0)
    ensures |r.items| == |t.items| + (r.next - t.next)
  {
    if qs == [] then t else MergeOne(MergeAll(t, o, qs[..|qs| - 1]), o, qs[|qs| - 1])
  }

  /** Processing one more record extends the loop by one pass. */
  lemma MergeStep(t: ItemTable, o: OrderId, qs: seq<real>, k: nat)
    requires k < |qs|
    ensures MergeAll(t, o, qs[..k + 1]) == MergeOne(MergeAll(t, o, qs[..k]), o, qs[k])
  {
    assert qs[..k + 1][..k] == qs[..k];
  }

  /**
   * When the order already has items, every quantity lands on its newest item
   * (the head of the `-id` query): that item's quantity grows by the sum of the
   * batch, and no other row changes and no row is created.
   */
  lemma {:induction false} MergeIntoExisting(t: ItemTable, o: OrderId, qs: seq<real>)
    requires FirstIndex(t.items, o).Some?
    ensures var i := FirstIndex(t.items, o).value;
      MergeAll(t, o, qs) == ItemTable(t.items[i := t.items[i].(quantity := t.items[i].quantity + Sum(qs))], t.next)
  {
    var i := FirstIndex(t.items, o).value;
    if qs == [] {
      assert t.items[i := t.items[i].(quantity := t.items[i].quantity + 0.0)] == t.items;
    } else {
      var front := qs[..|qs| - 1];
      MergeIntoExisting(t, o, front);
      var mid := MergeAll(t, o, front);
      FirstIndexIgnoresPayload(mid.items, t.items, o);
    }
  }

  /**
   * When the order has no item, the first record creates one (no product,
   * the record's quantity, the next key) and the later records of the same
   * batch merge into it: exactly one row is added, holding the batch's sum.
   */
  lemma {:induction false} MergeIntoNew(t: ItemTable, o: OrderId, qs: seq<real>)
    requires FirstIndex(t.items, o).None?
    requires qs != []
    ensures MergeAll(t, o, qs) == ItemTable(t.items + [OrderItem(t.next, o, None, Sum(qs))], t.next + 1)
  {
    var front := qs[..|qs| - 1];
    if front == [] {
      assert MergeAll(t, o, front) == t;
    } else {
      MergeIntoNew(t, o, front);
      var mid := MergeAll(t, o, front);
      assert FirstIndex(mid.items, o) == Some(|t.items|);
    }
  }

  /** At most one row is created per call, and only for an order that had none. */
  lemma CreatesAtMostOne(t: ItemTable, o: OrderId, qs: seq<real>)
    ensures |MergeAll(t, o, qs).items| == |t.items| + (if FirstIndex(t.items, o).None? && qs != [] then 1 else 0)
    ensures forall k :: 0 <= k < |t.items| && k != (if FirstIndex(t.items, o).Some? then FirstIndex(t.items, o).value else |t.items|) ==>
      MergeAll(t, o, qs).items[k] == t.items[k]
  {
    if FirstIndex(t.items, o).Some? {
      MergeIntoExisting(t, o, qs);
    } else if qs != [] {
      MergeIntoNew(t, o, qs);
    }
  }

  /** The loop keeps the item table valid when it runs for an existing order. */
  lemma MergeAllKeepsTableValid(t: ItemTable, o: OrderId, qs: seq<real>, orderIds: set<OrderId>)
    requires TableValid(t.items, t.next, orderIds) && o in orderIds
    ensures TableValid(MergeAll(t, o, qs).items, MergeAll(t, o, qs).next, orderIds)
  {
    if FirstIndex(t.items, o).Some? {
      MergeIntoExisting(t, o, qs);
    } else if qs != [] {
      MergeIntoNew(t, o, qs);
    }
  }

  /** An order with no items and the batch [2] ends with one new item of quantity 2. */
  lemma ExampleNewItem()
    ensures MergeAll(ItemTable([], 1), 7, [2.0]) == ItemTable([OrderItem(1, 7, None, 2.0)], 2)
  {
    MergeIntoNew(ItemTable([], 1), 7, [2.0]);
  }

  /** An order whose only item has quantity 3 and the batch [2, 1] ends with that item at 6. */
  lemma ExampleMergeTwice(product: Option<ProductId>)
    ensures var t := ItemTable([OrderItem(4, 7, product, 3.0)], 5);
      MergeAll(t, 7, [2.0, 1.0]) == ItemTable([OrderItem(4, 7, product, 6.0)], 5)
  {
    var t := ItemTable([OrderItem(4, 7, product, 3.0)], 5);
    MergeIntoExisting(t, 7, [2.0, 1.0]);
    assert Sum([2.0, 1.0]) == Sum([2.0]) + 1.0;
  }

  /** The result of `update`. */
  datatype UpdateOutcome = Updated | NotFound

  /** The shop's order and item tables as the database holds them. */
  class ShopDatabase {
    var orders: seq<Order>
    var items: seq<OrderItem>
    var nextItemId: ItemId
    var nextOrderId: OrderId

    ghost predicate Valid()
      reads this
    {
      TableValid(items, nextItemId, OrderIds(orders))
      && OrderKeysAscending(orders) && OrderKeysBelow(orders, nextOrderId)
    }

    /** An empty database. */
    constructor ()
      ensures Valid() && orders == [] && items == [] && nextItemId == 1 && nextOrderId == 1
    {
      orders := [];
      items := [];
      nextItemId := 1;
      nextOrderId := 1;
    }

    /** `Order.objects.create(user=u)`: a new order with the column defaults and the next key. */
    method CreateOrder(user: Option<UserId>) returns (id: OrderId)
      requires Valid()
      modifies this`orders, this`nextOrderId
      ensures Valid()
      ensures id == old(nextOrderId) && nextOrderId == id + 1
      ensures id !in old(OrderIds(orders))
      ensures orders == old(orders) + [NewOrder(id, user)]
    {
      id := nextOrderId;
      assert OrderIds(orders) <= OrderIds(orders + [NewOrder(id, user)]) by {
        forall x | x in OrderIds(orders) ensures x in OrderIds(orders + [NewOrder(id, user)]) {
          var k :| 0 <= k < |orders| && orders[k].id == x;
          assert (orders + [NewOrder(id, user)])[k].id == x;
        }
      }
      assert id !in OrderIds(orders);
      orders := orders + [NewOrder(id, user)];
      nextOrderId := nextOrderId + 1;
    }

    /** Deleting order `o`: its row goes, and CASCADE removes its items. */
    method DeleteOrder(o: OrderId)
      requires Valid()
      modifies this`orders, this`items
      ensures Valid()
      ensures orders == RemoveOrder(old(orders), o) && items == CascadeOrder(old(items), o)
    {
      DeleteOrderKeepsTableValid(orders, items, nextItemId, o);
      RemoveOrderKeepsKeys(orders, o, nextOrderId);
      orders := RemoveOrder(orders, o);
      items := CascadeOrder(items, o);
    }

    /** Deleting product `p`: SET_NULL clears the items' references to it. */
    method DeleteProduct(p: ProductId)
      requires Valid()
      modifies this`items
      ensures Valid()
      ensures items == ClearProduct(old(items), p)
    {
      DeleteProductKeepsTable(items, nextItemId, OrderIds(orders), p);
      items := ClearProduct(items, p);
    }

    /** `OrderItem.objects.create(order=o, quantity=q)`: a new row with the next key and no product. */
    method CreateItem(o: OrderId, q: real)
      requires Valid() && o in OrderIds(orders)
      modifies this`items, this`nextItemId
      ensures Valid()
      ensures items == old(items) + [OrderItem(old(nextItemId), o, None, q)]
      ensures nextItemId == old(nextItemId) + 1
    {
      items := items + [NewOrderItem(nextItemId, o, None, Some(q))];
      nextItemId := nextItemId + 1;
    }

    /** `item.quantity += q; item.save()` on the row at position `i`. */
    method AddQuantity(i: nat, q: real)
      requires Valid() && i < |items|
      modifies this`items
      ensures Valid()
      ensures items == old(items)[i := old(items)[i].(quantity := old(items)[i].quantity + q)]
    {
      items := items[i := items[i].(quantity := items[i].quantity + q)];
    }

    /** The `for` loop of `update` over the list of records, for an existing order. */
    method MergeRecords(o: OrderId, records: seq<ItemRecord>)
      requires Valid() && o in OrderIds(orders)
      modifies this`items, this`nextItemId
      ensures Valid()
      ensures ItemTable(items, nextItemId) == MergeAll(ItemTable(old(items), old(nextItemId)), o, Quantities(records))
    {
      ghost var qs := Quantities(records);
      ghost var start := ItemTable(items, nextItemId);
      var k := 0;
      while k < |records|
        invariant 0 <= k <= |records|
        invariant Valid()
        invariant ItemTable(items, nextItemId) == MergeAll(start, o, qs[..k])
      {
        MergeStep(start, o, qs, k);
        var existing := FirstIndex(items, o);
        if existing.Some? {
          AddQuantity(existing.value, records[k].quantity);
        } else {
          CreateItem(o, records[k].quantity);
        }
        k := k + 1;
      }
      assert qs[..k] == qs;
    }

    /**
     * `OrderViewSet.update` up to its delegation to the generic update:
     * a missing order is reported and nothing changes; otherwise the item
     * table ends as `MergeAll` of the request's quantities.
     */
    method Update(o: OrderId, orderItems: Option<seq<ItemRecord>>) returns (outcome: UpdateOutcome)
      requires Valid()
      modifies this`items, this`nextItemId
      ensures Valid()
      ensures outcome == NotFound <==> o !in OrderIds(orders)
      ensures outcome == NotFound ==> items == old(items) && nextItemId == old(nextItemId)
      ensures outcome == Updated ==>
        ItemTable(items, nextItemId) == MergeAll(ItemTable(old(items), old(nextItemId)), o, Payload(orderItems))
      ensures Payload(orderItems) == [] ==> items == old(items) && nextItemId == old(nextItemId)
      ensures outcome == Updated && FirstIndex(old(items), o).Some? ==>
        var i := FirstIndex(old(items), o).value;
        items == old(items)[i := old(items)[i].(quantity := old(items)[i].quantity + Sum(Payload(orderItems)))]
        && nextItemId == old(nextItemId)
      ensures outcome == Updated && FirstIndex(old(items), o).None? && Payload(orderItems) != [] ==>
        items == old(items) + [OrderItem(old(nextItemId), o, None, Sum(Payload(orderItems)))]
        && nextItemId == old(nextItemId) + 1
    {
      if o !in OrderIds(orders) {
        return NotFound;
      }
      ghost var start := ItemTable(items, nextItemId);
      if orderItems.Some? && |orderItems.value| > 0 {
        MergeRecords(o, orderItems.value);
      }
      if FirstIndex(start.items, o).Some? {
        MergeIntoExisting(start, o, Payload(orderItems));
      } else if Payload(orderItems) != [] {
        MergeIntoNew(start, o, Payload(orderItems));
      }
      return Updated;
    }
  }
}
