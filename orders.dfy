/** Orders: the total of a placement, the order-item snapshot it writes, and
    which orders each role may list and retrieve. */
module Orders {
  import opened Domain
  import opened Permissions

  /** The sum of the stored line prices, as placement computes the order
      total. An empty selection sums to nothing, and with no negative price
      the sum is at least every single line's price. */
  function SumPrices(lines: seq<CartLine>): (r: int)
    ensures lines == [] ==> r == 0
    ensures (forall k :: 0 <= k < |lines| ==> lines[k].price >= 0) ==>
      forall k :: 0 <= k < |lines| ==> r >= lines[k].price
  {
    if lines == [] then 0 else lines[0].price + SumPrices(lines[1..])
  }

  /** The sum of the order items' total prices. */
  function SumTotals(items: seq<OrderItem>): int {
    if items == [] then 0 else items[0].totalPrice + SumTotals(items[1..])
  }

  /** The items that belong to order `order`, in table order. */
  function ItemsOf(items: seq<OrderItem>, order: int): (r: seq<OrderItem>)
    ensures forall it :: it in r <==> it in items && it.order == order
  {
    if items == [] then []
    else if items[0].order == order then [items[0]] + ItemsOf(items[1..], order)
    else ItemsOf(items[1..], order)
  }

  lemma {:induction false} SumPricesAppend(a: seq<CartLine>, b: seq<CartLine>)
    ensures SumPrices(a + b) == SumPrices(a) + SumPrices(b)
  {
    if a == [] {
      assert a + b == b;
    } else {
      assert (a + b)[1..] == a[1..] + b;
      SumPricesAppend(a[1..], b);
    }
  }

  lemma {:induction false} SumTotalsAppend(a: seq<OrderItem>, b: seq<OrderItem>)
    ensures SumTotals(a + b) == SumTotals(a) + SumTotals(b)
  {
    if a == [] {
      assert a + b == b;
    } else {
      assert (a + b)[1..] == a[1..] + b;
      SumTotalsAppend(a[1..], b);
    }
  }

  lemma {:induction false} ItemsOfAppend(a: seq<OrderItem>, b: seq<OrderItem>, order: int)
    ensures ItemsOf(a + b, order) == ItemsOf(a, order) + ItemsOf(b, order)
  {
    if a == [] {
      assert a + b == b;
    } else {
      assert (a + b)[1..] == a[1..] + b;
      ItemsOfAppend(a[1..], b, order);
    }
  }

  /** When every item belongs to `order`, they are all of its items. */
  lemma {:induction false} ItemsOfAll(items: seq<OrderItem>, order: int)
    requires forall k :: 0 <= k < |items| ==> items[k].order == order
    ensures ItemsOf(items, order) == items
  {
    if items != [] {
      ItemsOfAll(items[1..], order);
    }
  }

  /** When no item belongs to `order`, it has no items. */
  lemma {:induction false} ItemsOfNone(items: seq<OrderItem>, order: int)
    requires forall k :: 0 <= k < |items| ==> items[k].order != order
    ensures ItemsOf(items, order) == []
  {
    if items != [] {
      ItemsOfNone(items[1..], order);
    }
  }

  /** Appending the items of a new order keeps every order's items adding up
      to its total, and the new order's items are exactly the appended ones. */
  lemma NewOrderKeepsTotals(orders: map<int, Order>, items: seq<OrderItem>,
                            id: int, order: Order, added: seq<OrderItem>)
    requires id !in orders
    requires forall k :: 0 <= k < |items| ==> items[k].order in orders
    requires forall k :: k in orders ==> SumTotals(ItemsOf(items, k)) == orders[k].total
    requires forall k :: 0 <= k < |added| ==> added[k].order == id
    requires SumTotals(added) == order.total
    ensures ItemsOf(items + added, id) == added
    ensures forall k :: k in orders[id := order] ==>
      SumTotals(ItemsOf(items + added, k)) == orders[id := order][k].total
  {
    var after := orders[id := order];
    ItemsOfNone(items, id);
    ItemsOfAppend(items, added, id);
    ItemsOfAll(added, id);
    assert [] + added == added;
    forall k | k in after ensures SumTotals(ItemsOf(items + added, k)) == after[k].total {
      if k != id {
        ItemsOfAppend(items, added, k);
        ItemsOfNone(added, k);
        assert ItemsOf(items, k) + [] == ItemsOf(items, k);
      }
    }
  }

  /** The order-item snapshot of a cart: one item per line, in line order,
      copying the menu item, quantity and captured unit price, with the line's
      stored price as the item's total. Its totals add up to the cart's. */
  method BuildOrderItems(order: int, lines: seq<CartLine>) returns (items: seq<OrderItem>)
    ensures |items| == |lines|
    ensures forall k :: 0 <= k < |items| ==>
      && items[k].order == order
      && items[k].menuitem == lines[k].menuitem
      && items[k].quantity == lines[k].quantity
      && items[k].unitPrice == lines[k].unitPrice
      && items[k].totalPrice == lines[k].price
    ensures SumTotals(items) == SumPrices(lines)
  {
    items := [];
    var i := 0;
    while i < |lines|
      invariant 0 <= i <= |lines|
      invariant |items| == i
      invariant forall k :: 0 <= k < i ==>
        && items[k].order == order
        && items[k].menuitem == lines[k].menuitem
        && items[k].quantity == lines[k].quantity
        && items[k].unitPrice == lines[k].unitPrice
        && items[k].totalPrice == lines[k].price
      invariant SumTotals(items) == SumPrices(lines[..i])
    {
      var line := lines[i];
      var item := OrderItem(order, line.menuitem, line.quantity, line.unitPrice, line.price);
      SumTotalsAppend(items, [item]);
      SumPricesAppend(lines[..i], [line]);
      assert lines[..i + 1] == lines[..i] + [line];
      items := items + [item];
      i := i + 1;
    }
    assert lines[..i] == lines;
  }

  /** The orders a caller may list: all of them for a manager, those assigned
      to the caller for delivery crew, and otherwise the caller's own. */
  function ListOrders(orders: map<int, Order>, caller: Principal): (r: map<int, Order>)
    ensures forall id :: id in r ==> id in orders && r[id] == orders[id]
    ensures IsManager(caller) ==> r == orders
    ensures !IsManager(caller) && IsDeliveryCrew(caller) ==>
      forall id :: id in orders ==> (id in r <==> orders[id].deliveryCrew == Some(caller.id))
    ensures !IsManager(caller) && !IsDeliveryCrew(caller) ==>
      forall id :: id in orders ==> (id in r <==> orders[id].user == caller.id)
  {
    if IsManager(caller) then orders
    else if IsDeliveryCrew(caller) then map id | id in orders && orders[id].deliveryCrew == Some(caller.id) :: orders[id]
    else map id | id in orders && orders[id].user == caller.id :: orders[id]
  }

  /** Retrieving one order: a caller in neither staff group sees only its own
      orders, and any other order is reported missing rather than forbidden. */
  function GetOrder(orders: map<int, Order>, caller: Principal, id: int): (r: Result<Order>)
    ensures r.Ok? ==> id in orders && r.value == orders[id]
    ensures r.Err? ==> r.error == NotFound
    ensures id !in orders ==> r.Err?
    ensures IsManager(caller) || IsDeliveryCrew(caller) ==> (r.Ok? <==> id in orders)
    ensures !IsManager(caller) && !IsDeliveryCrew(caller) && id in orders ==>
      (r.Ok? <==> orders[id].user == caller.id)
  {
    if !IsManager(caller) && !IsDeliveryCrew(caller) then
      if id in orders && orders[id].user == caller.id then Ok(orders[id]) else Err(NotFound)
    else if id in orders then Ok(orders[id])
    else Err(NotFound)
  }

  /** Every listed order can be retrieved; for everyone but delivery crew the
      converse holds too, while crew may retrieve orders not assigned to them. */
  lemma ListedOrdersAreRetrievable(orders: map<int, Order>, caller: Principal, id: int)
    ensures id in ListOrders(orders, caller) ==> GetOrder(orders, caller, id) == Ok(orders[id])
    ensures IsManager(caller) || !IsDeliveryCrew(caller) ==>
      (GetOrder(orders, caller, id).Ok? ==> id in ListOrders(orders, caller))
  {
  }
}
