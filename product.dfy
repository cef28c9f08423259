/**
 * A catalogue product: a name, a price and an availability flag.
 * The core never changes a product's fields after construction, so a product
 * is modelled as an immutable value, and a copy of it is independent of the
 * original by construction.
 */
module Products {

  datatype Product = Product(name: string, price: int, available: bool)
  {
    /** The private copy a cart stores when it first sees a product. */
    function Clone(): (c: Product)
      ensures c.name == name && c.price == price && c.available == available
    {
      Product(name, price, available)
    }
  }

  /** A product built without an explicit availability flag is available. */
  function NewProduct(name: string, price: int, available: bool := true): (p: Product)
    ensures p.name == name && p.price == price && p.available == available
  {
    Product(name, price, available)
  }

  /** A clone equals its original; giving the clone a new price changes the
      clone only, so the two then differ exactly when the price differs. */
  lemma CloneIsIndependent(p: Product, newPrice: int)
    ensures p.Clone() == p
    ensures var c := p.Clone().(price := newPrice);
      c.price == newPrice && c.name == p.name && c.available == p.available
      && (c == p <==> newPrice == p.price)
  {
  }
}
