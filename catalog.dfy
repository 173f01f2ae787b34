/** The catalog entry shared by every view of the store. */
module Catalog {

  /**
   * A product as the repository lists it: the document id followed by the
   * document's fields. Prices and costs are whole numbers of cents.
   */
  datatype Product = Product(id: string, name: string, category: string, price: int, cost: int, img: string)
}
