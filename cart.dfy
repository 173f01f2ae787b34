/**
 * The cart held by the products context: a list of line objects. A line is
 * the object literal that the add-to-cart handler builds from a product;
 * later adds of the same product mutate that object in place.
 */
module Cart {
  import opened Catalog

  /** The value of one cart line: the product's fields, then quantity, line price and unit price. */
  datatype CartLine = CartLine(
    id: string, name: string, category: string, cost: int, img: string,
    quantity: int, price: int, unitPrice: int)

  /** The line `{...product, quantity: count, price: product.price * count, unitPrice: product.price}`. */
  function NewLine(product: Product, count: int): (l: CartLine)
    ensures l.id == product.id && l.name == product.name && l.category == product.category
    ensures l.cost == product.cost && l.img == product.img
    ensures l.quantity == count && l.unitPrice == product.price
    ensures l.price == l.unitPrice * l.quantity
  {
    CartLine(product.id, product.name, product.category, product.cost, product.img,
             count, product.price * count, product.price)
  }

  /** A cart line object. Only `quantity` and `price` are ever written after creation. */
  class Line {
    const id: string
    const name: string
    const category: string
    const cost: int
    const img: string
    const unitPrice: int
    var quantity: int
    var price: int

    constructor (product: Product, count: int)
      ensures Value() == NewLine(product, count)
    {
      id, name, category, cost, img := product.id, product.name, product.category, product.cost, product.img;
      quantity, price, unitPrice := count, product.price * count, product.price;
    }

    function Value(): CartLine
      reads this
    {
      CartLine(id, name, category, cost, img, quantity, price, unitPrice)
    }
  }

  /** The values the line objects `ls` currently hold, in order. */
  function Values(ls: seq<Line>): (r: seq<CartLine>)
    reads ls
    ensures |r| == |ls|
    ensures forall i :: 0 <= i < |ls| ==> r[i] == ls[i].Value()
  {
    seq(|ls|, i reads ls requires 0 <= i < |ls| => ls[i].Value())
  }

  /** No two positions hold the same line object. */
  predicate Distinct(ls: seq<Line>) {
    forall i, j :: 0 <= i < j < |ls| ==> ls[i] != ls[j]
  }

  /** The cart state `cartProducts` of the products context. */
  class Cart {
    var lines: seq<Line>

    ghost predicate Valid()
      reads this
    {
      Distinct(lines)
    }

    /** What the cart currently shows: the value of each line object. */
    function Snapshot(): seq<CartLine>
      reads this, lines
    {
      Values(lines)
    }

    constructor ()
      ensures Valid() && Snapshot() == []
    {
      lines := [];
    }
  }
}
