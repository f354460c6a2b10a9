/** The values the cart store and the screens around it pass around. */
module Entities {

  datatype Option<+T> = None | Some(value: T)

  /** A catalogue product (image left out). Prices are integer cents. */
  datatype Product = Product(id: string, name: string, price: int)

  /**
   * One cart line: the product's own fields spread into a record, plus a
   * quantity. `price` is what `Number(item.price)` makes of the stored price:
   * `None` stands for NaN, a stored price that is not numeric.
   */
  datatype Line = Line(id: string, name: string, price: Option<int>, quantity: int)

  /** `{ ...product, quantity: 1 }`: the line a first add creates. */
  function NewLine(p: Product): (l: Line)
    ensures l.id == p.id && l.name == p.name && l.price == Some(p.price)
    ensures l.quantity == 1
  {
    Line(p.id, p.name, Some(p.price), 1)
  }

  /** One entry of the buyer list, and the shape of the buyer form. */
  datatype Buyer = Buyer(name: string, address: string, phone: string, email: string)

  /** The profile form of the home screen. */
  datatype Profile = Profile(name: string, phone: string, address: string, father: string, mother: string)
}
