# Restaurant ordering backend: order lifecycle and cart pricing

A Dafny model of the core of a Django REST restaurant-ordering API. It covers:

- how customers' cart lines are validated and priced;
- how a cart becomes an order with frozen order items;
- which orders each role may list and retrieve;
- the two order state changes: marking delivered and assigning delivery crew;
- the featured "item of the day" flag.

The tables are the fields of one `Store` class (`store.dfy`):

- `menu: map<int, MenuItem>`
- `cart: seq<CartLine>` (every user's lines, in insertion order)
- `orders: map<int, Order>`
- `orderItems: seq<OrderItem>`
- the user directory `users: map<string, UserId>`
- the next primary keys the database would hand out

Each request handler is a method that changes only the fields it names. It returns an `Outcome` or a `Result`. Errors are one of `Validation`, `NotFound`, `Forbidden`, `CartEmpty` and `Unexpected` rather than HTTP responses.

`Store.Valid()` is the table invariant every method keeps:

- cart primary keys are distinct and below the next key;
- every cart line references an existing menu item;
- every cart line's stored `price` equals `unit_price * quantity`;
- every order item belongs to an existing order;
- for every order, its items' `total_price` values add up to the order's `total`.

Money is integer cents. The source stores two-place decimals, so cents represent every stored value exactly. The 2.00 price floor is `MinPrice = 200`. Roles come from the names of the caller's groups. A member of the group named `Manager` is a manager, and a member of the group named `DeliveryCrew` is delivery crew. A customer belongs to no group at all. Staff status is a separate flag and matters only for setting the item of the day.

Files and modules:

- `domain.dfy` (`Domain`): the datatypes.
- `permissions.dfy` (`Permissions`): the role predicates.
- `pricing.dfy` (`Pricing`): the serializer field checks and the line total.
- `ledger.dfy` (`Ledger`): selections over the cart table.
- `orders.dfy` (`Orders`): totals, the order-item snapshot, listing and retrieval.
- `menu.dfy` (`Menu`): the featured flags.
- `store.dfy` (`Restaurant`): the `Store` class.

Behaviour the model keeps as the code has it, though a reader might expect otherwise:

- Adding to the cart always creates a new line. It does not upsert one line per (user, menu item).
- An unknown menu item on add-to-cart is a validation error. The menu-item field is a primary-key-related serializer field, so this is not a not-found error.
- Setting the item of the day with an unknown id clears every featured flag before it reports not-found. The failed request leaves no item featured.
- Assigning crew does not check that the assigned user is in the DeliveryCrew group.
- Marking delivered sets `status` to true whatever its previous value, so repeating it changes nothing.
- The item-of-day and crew-username presence checks use Python truthiness. An item id of 0 and an empty username count as missing.
- Retrieving the item of the day is a single-row lookup. With several items featured it fails with an unexpected error, not with one of them.

## Model

| member | source | states |
|---|---|---|
| Permissions.IsManager | Restaurants/Restaurants_api/views.py:27-29 | a manager is a member of the group named "Manager", so belongs to at least one group |
| Permissions.IsDeliveryCrew | Restaurants/Restaurants_api/views.py:31-33 | delivery crew are the members of the group named "DeliveryCrew", so belong to at least one group |
| Permissions.GroupNamesDecideRoles | Restaurants/Restaurants_api/views.py:27-37 | joining or leaving a group changes manager or crew status exactly when the group has that role's name, and joining any group ends customer status |
| Permissions.IsCustomer | Restaurants/Restaurants_api/views.py:35-37 | a caller with no group is a customer, and a customer is neither manager nor delivery crew |
| Permissions.IsAdminOrManager | Restaurants/Restaurants_api/views.py:39-41 | staff users and managers both pass the item-of-day write permission |
| Pricing.ValidatePrice | Restaurants/Restaurants_api/serializers.py:18-22 | a menu price is accepted, unchanged, exactly when it is at least 2.00; otherwise a validation error |
| Pricing.ValidateQuantity | Restaurants/Restaurants_api/serializers.py:35-39 | a cart quantity is accepted, unchanged, exactly when it is at least 0 (so 0 is accepted); otherwise a validation error |
| Pricing.LineTotal | Restaurants/Restaurants_api/serializers.py:45-46 | the reported line total is 0 for an empty line, never negative for a non-negative price, and at least the unit price once the quantity is 1 or more |
| Ledger.CartOf | Restaurants/Restaurants_api/views.py:777-778 | the caller's cart is exactly the table's lines owned by the caller |
| Ledger.ListCart | Restaurants/Restaurants_api/views.py:777-778 | non-customers are forbidden; a customer gets one entry per own line, in order, with id, menu item and quantity copied and price reported as unit price times quantity |
| Ledger.ListedTotalsAreStored | Restaurants/Restaurants_api/serializers.py:45-46 | when stored line totals are consistent, the reported total of each listed line equals its stored price |
| Ledger.Without | Restaurants/Restaurants_api/views.py:774 | bulk deletion by owner keeps exactly the lines of other users |
| Ledger.WithoutEmptiesCart | Restaurants/Restaurants_api/views.py:1023 | after deleting a user's lines that user's cart is empty |
| Ledger.WithoutKeepsOthers | Restaurants/Restaurants_api/views.py:774 | deleting one user's lines leaves every other user's cart identical, order included |
| Ledger.CartPartition | Restaurants/Restaurants_api/views.py:774 | the table is the multiset union of the user's lines and the remaining lines, so deletion removes those lines and nothing else |
| Ledger.DeleteUserLines | Restaurants/Restaurants_api/views.py:1011-1023 | bulk deletion keeps primary keys distinct, empties the user's cart, keeps others' carts and removes exactly the user's lines |
| Ledger.IndexOf | Restaurants/Restaurants_api/views.py:821 | the primary-key lookup finds a line with that id, or reports none exists |
| Ledger.RemoveAtKeepsCart | Restaurants/Restaurants_api/views.py:821-822 | deleting one row leaves the cart of every user other than its owner identical, order included |
| Ledger.RemoveAtKeepsOthers | Restaurants/Restaurants_api/views.py:821-822 | deleting one row keeps keys distinct, leaves exactly the lines with a different key, and leaves every other user's cart identical, order included |
| Orders.SumPrices | Restaurants/Restaurants_api/views.py:1015 | the order total of an empty selection is 0, and with no negative line price it is at least every line's price |
| Orders.BuildOrderItems | Restaurants/Restaurants_api/views.py:1018-1022 | one order item per cart line, in order, copying menu item, quantity and unit price, with total price equal to the line's price; the item totals add up to the cart's line prices |
| Orders.NewOrderKeepsTotals | Restaurants/Restaurants_api/views.py:1015-1022 | appending a new order's items leaves every order's item totals equal to its total, and the new order's items are exactly the appended ones |
| Orders.ListOrders | Restaurants/Restaurants_api/views.py:913-919 | managers (checked first) list all orders, delivery crew those assigned to them, everyone else their own |
| Orders.GetOrder | Restaurants/Restaurants_api/views.py:1040-1045 | managers and crew retrieve any existing order; others retrieve only their own, and any other order is not-found |
| Orders.ListedOrdersAreRetrievable | Restaurants/Restaurants_api/views.py:1042-1045 | every listed order can be retrieved; for everyone except delivery crew, every retrievable order is listed |
| Menu.ClearFeatured | Restaurants/Restaurants_api/views.py:378 | after the bulk update no item is featured, the same items exist and only the flag changed |
| Restaurant.MissingId | Restaurants/Restaurants_api/views.py:376 | an absent item id and the id 0 count as missing; every other id is present |
| Restaurant.MissingName | Restaurants/Restaurants_api/views.py:1384 | an absent username and the empty username count as missing; every non-empty username is present |
| Restaurant.Store.ItemOfDay | Restaurants/Restaurants_api/views.py:415-423 | returns the featured item when exactly one is featured, not-found when none is, and an unexpected error when two or more are |
| Restaurant.Store.AddCartLine | Restaurants/Restaurants_api/serializers.py:48-55 | succeeds exactly for a customer with a non-negative quantity and a known menu item; non-customers are forbidden; a negative quantity or unknown menu item is a validation error; on success one line with a fresh id is appended for the caller, capturing the item's current price and storing price = unit price times quantity |
| Restaurant.Store.UpdateCartLine | Restaurants/Restaurants_api/serializers.py:58-63 | a negative quantity is a validation error; otherwise the line keeps its id, owner and item, keeps its quantity when none is given, re-reads the unit price from the menu and recomputes price; no other line changes |
| Restaurant.Store.RemoveCartLine | Restaurants/Restaurants_api/views.py:820-823 | succeeds exactly when a line with that id exists and belongs to the caller, and then the cart is the old cart with that one row removed; otherwise not-found (or forbidden for non-customers) with the cart unchanged; every other user's cart is unchanged, order included |
| Restaurant.Store.RemoveAt | Restaurants/Restaurants_api/views.py:822 | deleting the row at one position keeps the table invariant, removes that row only and leaves every other owner's cart identical |
| Restaurant.Store.ClearCart | Restaurants/Restaurants_api/views.py:773-775 | a customer's clear removes all of the caller's lines and only those; others' carts are unchanged |
| Restaurant.Store.RemoveLinesOf | Restaurants/Restaurants_api/views.py:774 | the filtered bulk delete keeps the table invariant, leaves the user no lines, removes exactly the user's lines and keeps every other cart identical |
| Restaurant.Store.CreateOrder | Restaurants/Restaurants_api/views.py:1015-1022 | creates one open, unassigned order for the user with total equal to the sum of the line prices, then one item per line copying the line; the new items are the order's only items |
| Restaurant.Store.PlaceOrder | Restaurants/Restaurants_api/views.py:1009-1024 | non-customers are forbidden; an empty cart gives the cart-empty error and creates nothing; otherwise one order whose total is the sum of the caller's line prices, one item per line with matching totals, the caller's cart emptied and every other cart unchanged |
| Restaurant.Store.MarkDelivered | Restaurants/Restaurants_api/views.py:1251-1259 | only delivery crew may call it; an unknown order is not-found; a crew member not assigned to the order is forbidden and nothing changes; otherwise only the order's status becomes true, repeating it changes nothing, and no delivered order becomes undelivered |
| Restaurant.Store.AssignCrew | Restaurants/Restaurants_api/views.py:1382-1395 | only managers may call it; a missing username is a validation error, an unknown username is not-found before the order is looked up, an unknown order is not-found; otherwise only the order's delivery crew changes |
| Restaurant.Store.SetItemOfDay | Restaurants/Restaurants_api/views.py:374-386 | only staff or managers may call it; a missing id changes nothing; an unknown id leaves no item featured and is not-found; otherwise exactly the given item is featured; only featured flags ever change |

## Left out

- Authentication, tokens and the 401 responses are not modelled: every caller is an authenticated principal with a known group set. Routing is not modelled either.
- The group-membership endpoints (adding and removing managers and crew) are not modelled. Group membership is an input carried by the caller.
- Category and menu-item create, update and delete, pagination, filtering and ordering are not modelled. The catalogue is given to the constructor. `ValidatePrice` is modelled on its own, so the constructor's catalogue is not required to respect the 2.00 floor. Without a price-changing operation, "a later menu price change does not alter cart lines or order items" holds only through the frames: no modelled operation writes a line's captured price except update.
- HTTP status codes and response bodies are not modelled. `Store.ItemOfDay` returns the featured item's id rather than the serialized item.
- Restaurant.Store.SetItemOfDay: a non-integer item id, which the source turns into an unexpected-error response, is not modelled because ids are integers here.
- The sanitising library call in the two serializer validators is taken as the identity on the already-validated number.
- Storage failures (the unexpected-error branches that catch database errors) are not modelled.
- Transactions and concurrency are not modelled. Each handler is one sequential step, so two interleaved placements of one cart cannot be expressed.
- The current date is a parameter of `PlaceOrder`.
- The database model definitions are not part of this model. Field widths, decimal digit limits, cascade rules and any uniqueness constraint on (user, menu item) in the cart are therefore absent. The one exception: a cart line's menu item always exists, which the store invariant states.
- Restaurant.Store.UpdateCartLine: no endpoint routes to the serializer's update. The method requires that the line being updated exists, as the serializer is always given an existing instance.
- The generic full update (`put`) that the order detail route inherits is not modelled. It needs only authentication and its object lookup has no owner filter for writes, so through it any signed-in user can overwrite an order's status, delivery crew, total and date. The guarantees of `MarkDelivered`, `AssignCrew` and `Store.Valid()` therefore hold for the modelled handlers only, not for the system as a whole.
- Orders.ListOrders: returns the visible orders as a map keyed by id, so the order of the listing is not modelled.
