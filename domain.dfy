/** The tables and values of the restaurant ordering backend.
    Money is held in integer cents: the source stores prices as two-place
    decimals, so cents represent every stored value exactly. */
module Domain {

  type UserId = int

  datatype Option<T> = None | Some(value: T)

  /** The authenticated caller of a request, with the names of the groups it
      belongs to; membership in a group of a given name decides the role. */
  datatype Principal = Principal(id: UserId, groups: set<string>, isStaff: bool)

  /** The kinds of failure an operation reports instead of raising. */
  datatype ErrorKind = Validation | NotFound | Forbidden | CartEmpty | Unexpected

  datatype Result<T> = Ok(value: T) | Err(error: ErrorKind)

  /** The result of an operation whose success carries no payload. */
  datatype Outcome = Success | Failure(error: ErrorKind)

  datatype Date = Date(year: int, month: int, day: int)

  /** A catalogue entry; `price` is in cents. */
  datatype MenuItem = MenuItem(title: string, price: int, featured: bool, category: int)

  /** One user's pending quantity of one menu item. `unitPrice` is the menu
      price captured when the line was written and `price` the stored line total. */
  datatype CartLine = CartLine(id: int, user: UserId, menuitem: int, quantity: nat, unitPrice: int, price: int)

  /** A cart line as the cart serializer renders it: `price` is the reported
      line total, computed rather than read from the stored column. */
  datatype CartEntry = CartEntry(id: int, menuitem: int, quantity: nat, price: int)

  /** A placed order. `status` is false while open and true once delivered. */
  datatype Order = Order(user: UserId, deliveryCrew: Option<UserId>, status: bool, total: int, date: Date)

  /** A frozen copy of one cart line, belonging to the order `order`. */
  datatype OrderItem = OrderItem(order: int, menuitem: int, quantity: nat, unitPrice: int, totalPrice: int)
}
