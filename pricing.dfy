/** The field checks and the line total of the menu-item and cart serializers. */
module Pricing {
  import opened Domain

  /** The lowest accepted menu price, 2.00, in cents. */
  const MinPrice: int := 200

  /** The menu-item price check: a price below 2.00 is rejected. */
  function ValidatePrice(value: int): (r: Result<int>)
    ensures r.Ok? <==> value >= MinPrice
    ensures r.Ok? ==> r.value == value
    ensures r.Err? ==> r.error == Validation
  {
    if value < MinPrice then Err(Validation) else Ok(value)
  }

  /** The cart quantity check: a negative quantity is rejected, zero is accepted. */
  function ValidateQuantity(value: int): (r: Result<nat>)
    ensures r.Ok? <==> value >= 0
    ensures r.Ok? ==> r.value == value
    ensures r.Err? ==> r.error == Validation
  {
    if value < 0 then Err(Validation) else Ok(value)
  }

  /** The total the cart serializer reports for a line: nothing for an empty
      line, never negative for a non-negative price, and at least the unit
      price once the line holds one item or more. */
  function LineTotal(line: CartLine): (r: int)
    ensures line.quantity == 0 ==> r == 0
    ensures line.unitPrice >= 0 ==> r >= 0
    ensures line.unitPrice >= 0 && line.quantity >= 1 ==> r >= line.unitPrice
  {
    line.unitPrice * line.quantity
  }

  /** A line whose stored price is the total it reports. */
  predicate Priced(line: CartLine) {
    line.price == LineTotal(line)
  }
}
