/** The request handlers that change the tables: cart writes, order placement,
    the two order state changes and the item of the day. */
module Restaurant {
  import opened Domain
  import opened Permissions
  import opened Pricing
  import opened Ledger
  import opened Orders
  import opened Menu

  /** A request field is missing when it is absent or falsy: an item id of 0
      and an empty username count as missing. */
  predicate MissingId(itemId: Option<int>)
    ensures itemId == None || itemId == Some(0) ==> MissingId(itemId)
    ensures itemId.Some? && itemId.value != 0 ==> !MissingId(itemId)
  {
    itemId.None? || itemId.value == 0
  }

  predicate MissingName(username: Option<string>)
    ensures username == None || username == Some("") ==> MissingName(username)
    ensures username.Some? && |username.value| > 0 ==> !MissingName(username)
  {
    username.None? || username.value == ""
  }

  /** No order leaves the delivered state. */
  ghost predicate DeliveredStays(before: map<int, Order>, after: map<int, Order>) {
    forall id :: id in before && before[id].status ==> id in after && after[id].status
  }

  class Store {
    var menu: map<int, MenuItem>
    var cart: seq<CartLine>
    var orders: map<int, Order>
    var orderItems: seq<OrderItem>
    /** The user directory: username to user id. */
    const users: map<string, UserId>
    /** The next primary keys the database would hand out. */
    var nextCartId: nat
    var nextOrderId: nat

    ghost predicate Valid()
      reads this
    {
      && UniqueIds(cart)
      && (forall i :: 0 <= i < |cart| ==> cart[i].id < nextCartId)
      && (forall i :: 0 <= i < |cart| ==> cart[i].menuitem in menu && Priced(cart[i]))
      && (forall id :: id in orders ==> id < nextOrderId)
      && (forall k :: 0 <= k < |orderItems| ==> orderItems[k].order in orders)
      && (forall id :: id in orders ==> SumTotals(ItemsOf(orderItems, id)) == orders[id].total)
    }

    /** A store over a given catalogue and user directory, with no carts and no orders. */
    constructor (catalogue: map<int, MenuItem>, directory: map<string, UserId>)
      ensures Valid()
      ensures menu == catalogue && users == directory
      ensures cart == [] && orders == map[] && orderItems == []
    {
      menu := catalogue;
      users := directory;
      cart := [];
      orders := map[];
      orderItems := [];
      nextCartId := 1;
      nextOrderId := 1;
    }

    /** Add to cart: a customer adds a line for a menu item; the line captures
        the item's current price and stores the line total. */
    method AddCartLine(caller: Principal, menuitem: int, quantity: int) returns (r: Result<CartLine>)
      requires Valid()
      modifies this`cart, this`nextCartId
      ensures Valid()
      ensures !IsCustomer(caller) ==> r == Err(Forbidden)
      ensures IsCustomer(caller) && (quantity < 0 || menuitem !in menu) ==> r == Err(Validation)
      ensures r.Ok? <==> IsCustomer(caller) && quantity >= 0 && menuitem in menu
      ensures r.Err? ==> cart == old(cart)
      ensures r.Ok? ==>
        && cart == old(cart) + [r.value]
        && r.value.user == caller.id
        && r.value.menuitem == menuitem
        && r.value.quantity == quantity
        && r.value.unitPrice == menu[menuitem].price
        && r.value.price == r.value.unitPrice * quantity
        && forall l :: l in old(cart) ==> l.id != r.value.id
    {
      if !IsCustomer(caller) {
        return Err(Forbidden);
      }
      var q := ValidateQuantity(quantity);
      if q.Err? || menuitem !in menu {
        return Err(Validation);
      }
      var unitPrice := menu[menuitem].price;
      var price := unitPrice * q.value;
      var line := CartLine(nextCartId, caller.id, menuitem, q.value, unitPrice, price);
      cart := cart + [line];
      nextCartId := nextCartId + 1;
      r := Ok(line);
    }

    /** Update a cart line: keep the old quantity when none is given, re-read
        the unit price from the menu item and recompute the line total. */
    method UpdateCartLine(lineId: int, quantity: Option<int>) returns (r: Result<CartLine>)
      requires Valid()
      requires IndexOf(cart, lineId).Some?
      modifies this`cart
      ensures Valid()
      ensures r.Err? <==> quantity.Some? && quantity.value < 0
      ensures r.Err? ==> r.error == Validation && cart == old(cart)
      ensures r.Ok? ==>
        var k := IndexOf(old(cart), lineId).value;
        var before := old(cart)[k];
        && cart == old(cart)[k := r.value]
        && r.value.id == lineId && r.value.user == before.user && r.value.menuitem == before.menuitem
        && r.value.quantity == (if quantity.Some? then quantity.value else before.quantity)
        && r.value.unitPrice == menu[before.menuitem].price
        && r.value.price == r.value.unitPrice * r.value.quantity
    {
      if quantity.Some? && ValidateQuantity(quantity.value).Err? {
        return Err(Validation);
      }
      var k := IndexOf(cart, lineId).value;
      var line := cart[k];
      line := line.(quantity := if quantity.Some? then quantity.value else line.quantity);
      line := line.(unitPrice := menu[line.menuitem].price);
      line := line.(price := line.unitPrice * line.quantity);
      cart := cart[k := line];
      r := Ok(line);
      assert forall i :: 0 <= i < |cart| ==> cart[i].id == old(cart)[i].id;
    }

    /** Remove one cart line by id, scoped to the caller: a line that is
        missing or owned by someone else is not found. */
    method RemoveCartLine(caller: Principal, lineId: int) returns (r: Outcome)
      requires Valid()
      modifies this`cart
      ensures Valid()
      ensures !IsCustomer(caller) ==> r == Failure(Forbidden)
      ensures r.Success? <==>
        IsCustomer(caller) && exists l :: l in old(cart) && l.id == lineId && l.user == caller.id
      ensures IsCustomer(caller) && r.Failure? ==> r.error == NotFound
      ensures r.Failure? ==> cart == old(cart)
      ensures r.Success? ==>
        && IndexOf(old(cart), lineId).Some?
        && cart == old(cart)[..IndexOf(old(cart), lineId).value] + old(cart)[IndexOf(old(cart), lineId).value + 1..]
      ensures r.Success? ==> forall l :: l in cart <==> l in old(cart) && l.id != lineId
      ensures forall v :: v != caller.id ==> CartOf(cart, v) == CartOf(old(cart), v)
    {
      if !IsCustomer(caller) {
        return Failure(Forbidden);
      }
      var found := IndexOf(cart, lineId);
      if found.None? {
        return Failure(NotFound);
      }
      if cart[found.value].user != caller.id {
        forall l | l in cart && l.id == lineId ensures l == cart[found.value] {
          var j :| 0 <= j < |cart| && cart[j] == l;
          assert j == found.value;
        }
        return Failure(NotFound);
      }
      RemoveAt(found.value);
      r := Success;
    }

    /** Delete the cart row at position `i`. */
    method RemoveAt(i: nat)
      requires Valid() && i < |cart|
      modifies this`cart
      ensures Valid()
      ensures cart == old(cart)[..i] + old(cart)[i + 1..]
      ensures forall l :: l in cart <==> l in old(cart) && l.id != old(cart)[i].id
      ensures forall v :: v != old(cart)[i].user ==> CartOf(cart, v) == CartOf(old(cart), v)
    {
      RemoveAtKeepsOthers(cart, i);
      cart := cart[..i] + cart[i + 1..];
    }

    /** Clear the cart: delete every line of the caller and only those. */
    method ClearCart(caller: Principal) returns (r: Outcome)
      requires Valid()
      modifies this`cart
      ensures Valid()
      ensures !IsCustomer(caller) ==> r == Failure(Forbidden) && cart == old(cart)
      ensures IsCustomer(caller) ==> r == Success && cart == Without(old(cart), caller.id)
      ensures IsCustomer(caller) ==> CartOf(cart, caller.id) == []
      ensures IsCustomer(caller) ==>
        multiset(cart) + multiset(CartOf(old(cart), caller.id)) == multiset(old(cart))
      ensures forall v :: v != caller.id ==> CartOf(cart, v) == CartOf(old(cart), v)
    {
      if !IsCustomer(caller) {
        return Failure(Forbidden);
      }
      RemoveLinesOf(caller.id);
      r := Success;
    }

    /** Bulk-delete every cart row owned by `user`. */
    method RemoveLinesOf(user: UserId)
      requires Valid()
      modifies this`cart
      ensures Valid()
      ensures cart == Without(old(cart), user)
      ensures CartOf(cart, user) == []
      ensures multiset(cart) + multiset(CartOf(old(cart), user)) == multiset(old(cart))
      ensures forall v :: v != user ==> CartOf(cart, v) == CartOf(old(cart), v)
    {
      DeleteUserLines(cart, user);
      cart := Without(cart, user);
    }

    /** Create the order row for `user` with the lines' total, then
        bulk-create one order item per line. */
    method CreateOrder(user: UserId, lines: seq<CartLine>, today: Date) returns (id: int)
      requires Valid()
      modifies this`orders, this`orderItems, this`nextOrderId
      ensures Valid()
      ensures id == old(nextOrderId) && id !in old(orders)
      ensures orders == old(orders)[id := Order(user, None, false, SumPrices(lines), today)]
      ensures orderItems == old(orderItems) + ItemsOf(orderItems, id)
      ensures |ItemsOf(orderItems, id)| == |lines|
      ensures forall k :: 0 <= k < |lines| ==>
        ItemsOf(orderItems, id)[k] ==
        OrderItem(id, lines[k].menuitem, lines[k].quantity, lines[k].unitPrice, lines[k].price)
    {
      var total := SumPrices(lines);
      id := nextOrderId;
      orders := orders[id := Order(user, None, false, total, today)];
      nextOrderId := nextOrderId + 1;
      var items := BuildOrderItems(id, lines);
      NewOrderKeepsTotals(old(orders), orderItems, id, orders[id], items);
      orderItems := orderItems + items;
    }

    /** Place an order from the caller's cart: one order whose total is the sum
        of the stored line prices, one order item per line, then the caller's
        cart is deleted. An empty cart creates nothing. */
    method PlaceOrder(caller: Principal, today: Date) returns (r: Outcome)
      requires Valid()
      modifies this`orders, this`orderItems, this`cart, this`nextOrderId
      ensures Valid()
      ensures !IsCustomer(caller) ==> r == Failure(Forbidden)
      ensures IsCustomer(caller) && CartOf(old(cart), caller.id) == [] ==> r == Failure(CartEmpty)
      ensures r.Success? <==> IsCustomer(caller) && CartOf(old(cart), caller.id) != []
      ensures r.Failure? ==> orders == old(orders) && orderItems == old(orderItems) && cart == old(cart)
      ensures r.Success? ==>
        var id := old(nextOrderId);
        var lines := CartOf(old(cart), caller.id);
        && id !in old(orders)
        && orders == old(orders)[id := Order(caller.id, None, false, SumPrices(lines), today)]
        && orderItems == old(orderItems) + ItemsOf(orderItems, id)
        && |ItemsOf(orderItems, id)| == |lines|
        && (forall k :: 0 <= k < |lines| ==>
              ItemsOf(orderItems, id)[k] ==
              OrderItem(id, lines[k].menuitem, lines[k].quantity, lines[k].unitPrice, lines[k].price))
        && SumTotals(ItemsOf(orderItems, id)) == orders[id].total
        && cart == Without(old(cart), caller.id)
        && CartOf(cart, caller.id) == []
      ensures forall v :: v != caller.id ==> CartOf(cart, v) == CartOf(old(cart), v)
    {
      if !IsCustomer(caller) {
        return Failure(Forbidden);
      }
      var lines := CartOf(cart, caller.id);
      if lines == [] {
        return Failure(CartEmpty);
      }
      var id := CreateOrder(caller.id, lines, today);
      RemoveLinesOf(caller.id);
      r := Success;
    }

    /** Mark an order delivered: delivery crew only, and only the crew member
        the order is assigned to; nothing but the status changes. */
    method MarkDelivered(caller: Principal, id: int) returns (r: Outcome)
      requires Valid()
      modifies this`orders
      ensures Valid()
      ensures !IsDeliveryCrew(caller) ==> r == Failure(Forbidden)
      ensures IsDeliveryCrew(caller) && id !in old(orders) ==> r == Failure(NotFound)
      ensures IsDeliveryCrew(caller) && id in old(orders) && old(orders)[id].deliveryCrew != Some(caller.id) ==>
        r == Failure(Forbidden)
      ensures r.Success? <==>
        IsDeliveryCrew(caller) && id in old(orders) && old(orders)[id].deliveryCrew == Some(caller.id)
      ensures r.Failure? ==> orders == old(orders)
      ensures r.Success? ==> orders == old(orders)[id := old(orders)[id].(status := true)]
      ensures r.Success? && old(orders)[id].status ==> orders == old(orders)
      ensures DeliveredStays(old(orders), orders)
    {
      if !IsDeliveryCrew(caller) {
        return Failure(Forbidden);
      }
      if id !in orders {
        return Failure(NotFound);
      }
      var order := orders[id];
      if IsDeliveryCrew(caller) && order.deliveryCrew != Some(caller.id) {
        return Failure(Forbidden);
      }
      orders := orders[id := order.(status := true)];
      r := Success;
    }

    /** Assign a delivery crew member to an order: managers only; the username
        is checked for presence, then looked up, and only then is the order
        looked up. Nothing but the assignment changes. */
    method AssignCrew(caller: Principal, id: int, username: Option<string>) returns (r: Outcome)
      requires Valid()
      modifies this`orders
      ensures Valid()
      ensures !IsManager(caller) ==> r == Failure(Forbidden)
      ensures IsManager(caller) && MissingName(username) ==> r == Failure(Validation)
      ensures IsManager(caller) && !MissingName(username) && username.value !in users ==> r == Failure(NotFound)
      ensures IsManager(caller) && !MissingName(username) && username.value in users && id !in old(orders) ==>
        r == Failure(NotFound)
      ensures r.Success? <==>
        IsManager(caller) && !MissingName(username) && username.value in users && id in old(orders)
      ensures r.Failure? ==> orders == old(orders)
      ensures r.Success? ==>
        orders == old(orders)[id := old(orders)[id].(deliveryCrew := Some(users[username.value]))]
      ensures DeliveredStays(old(orders), orders)
    {
      if !IsManager(caller) {
        return Failure(Forbidden);
      }
      if MissingName(username) {
        return Failure(Validation);
      }
      if username.value !in users {
        return Failure(NotFound);
      }
      var user := users[username.value];
      if id !in orders {
        return Failure(NotFound);
      }
      orders := orders[id := orders[id].(deliveryCrew := Some(user))];
      r := Success;
    }

    /** Set the item of the day: clear every featured flag, then feature the
        given item. A missing id changes nothing; an unknown id is not found,
        but the flags have already been cleared. */
    method SetItemOfDay(caller: Principal, itemId: Option<int>) returns (r: Outcome)
      requires Valid()
      modifies this`menu
      ensures Valid()
      ensures !IsAdminOrManager(caller) ==> r == Failure(Forbidden)
      ensures IsAdminOrManager(caller) && MissingId(itemId) ==> r == Failure(Validation)
      ensures r.Failure? && r.error != NotFound ==> menu == old(menu)
      ensures r.Success? <==> IsAdminOrManager(caller) && !MissingId(itemId) && itemId.value in old(menu)
      ensures r == Failure(NotFound) <==>
        IsAdminOrManager(caller) && !MissingId(itemId) && itemId.value !in old(menu)
      ensures r.Success? ==> FeaturedIds(menu) == {itemId.value}
      ensures r == Failure(NotFound) ==> FeaturedIds(menu) == {}
      ensures menu.Keys == old(menu).Keys
      ensures forall id :: id in menu ==> menu[id].(featured := old(menu)[id].featured) == old(menu)[id]
    {
      if !IsAdminOrManager(caller) {
        return Failure(Forbidden);
      }
      if MissingId(itemId) {
        return Failure(Validation);
      }
      menu := ClearFeatured(menu);
      var id := itemId.value;
      if id !in menu {
        return Failure(NotFound);
      }
      menu := menu[id := menu[id].(featured := true)];
      r := Success;
    }

    /** Get the item of the day: the one featured item; none featured is not
        found, and several featured make the single-row lookup fail. */
    method ItemOfDay() returns (r: Result<int>)
      ensures r.Ok? ==> FeaturedIds(menu) == {r.value}
      ensures r == Err(NotFound) <==> FeaturedIds(menu) == {}
      ensures r == Err(Unexpected) <==>
        exists a, b :: a in FeaturedIds(menu) && b in FeaturedIds(menu) && a != b
      ensures r.Err? ==> r.error == NotFound || r.error == Unexpected
    {
      if !exists id :: id in menu && menu[id].featured {
        return Err(NotFound);
      }
      var x :| x in menu && menu[x].featured;
      if exists y :: y in menu && menu[y].featured && y != x {
        r := Err(Unexpected);
      } else {
        r := Ok(x);
      }
    }
  }
}
