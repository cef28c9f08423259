/**
 * The shopping cart. It keeps its lines in a map keyed by product name,
 * updates that map in place, and holds an optional discount strategy that is
 * fixed when the cart is built.
 */
module Carts {

  import opened Wrappers
  import opened Products
  import opened Discounts
  import opened CartLines

  /** The total after the optional discount: no strategy leaves it unchanged. */
  function WithDiscount(discount: Option<PercentageDiscount>, sum: real): (r: real)
    ensures discount.None? ==> r == sum
    ensures discount.Some? ==> r == sum * (1.0 - discount.value.fraction)
  {
    match discount
    case None => sum
    case Some(strategy) => strategy.ApplyDiscount(sum)
  }

  class Cart {
    var items: Lines
    // Set once by the constructor; held as a value, not a shared reference.
    const discount: Option<PercentageDiscount>

    /** Every line is filed under its own product's name. */
    ghost predicate Valid()
      reads this
    {
      WellKeyed(items)
    }

    constructor (discount: Option<PercentageDiscount> := None)
      ensures Valid()
      ensures items == map[] && this.discount == discount
    {
      items := map[];
      this.discount := discount;
    }

    /** Adds `quantity` of `product`, keeping the product snapshot (and so
        the price) of the first add of that name. */
    method AddItem(product: Product, quantity: int := 1)
      requires Valid()
      modifies this
      ensures Valid()
      ensures items == Added(old(items), product, quantity)
      ensures Subtotal(items) == Subtotal(old(items)) + StoredPrice(old(items), product) * quantity
    {
      SubtotalAdded(items, product, quantity);
      if product.name !in items {
        items := items[product.name := Line(product.Clone(), 0)];
      }
      var line := items[product.name];
      items := items[product.name := line.(quantity := line.quantity + quantity)];
    }

    /** Overwrites the quantity of a present line; ignores an unknown name. */
    method UpdateQuantity(name: string, quantity: int)
      requires Valid()
      modifies this
      ensures Valid()
      ensures items == Updated(old(items), name, quantity)
      ensures name in old(items) ==>
        Subtotal(items) == Subtotal(old(items))
          + old(items)[name].product.price * (quantity - old(items)[name].quantity)
      ensures name !in old(items) ==> items == old(items)
    {
      SubtotalUpdated(items, name, quantity);
      if name in items {
        items := items[name := items[name].(quantity := quantity)];
      }
    }

    /** Deletes a present line; ignores an unknown name. */
    method RemoveItem(name: string)
      requires Valid()
      modifies this
      ensures Valid()
      ensures items == Removed(old(items), name)
      ensures name in old(items) ==> Subtotal(items) == Subtotal(old(items)) - Amount(old(items)[name])
      ensures name !in old(items) ==> items == old(items)
    {
      SubtotalRemoved(items, name);
      if name in items {
        items := items - {name};
      }
    }

    /** Sums price * quantity over the lines, then applies the discount if
        there is one. Changes nothing. */
    method CalculateTotal() returns (total: real)
      ensures total == WithDiscount(discount, Subtotal(items) as real)
    {
      var sum := 0;
      var rest := items;
      while rest != map[]
        invariant sum + Subtotal(rest) == Subtotal(items)
        decreases |rest|
      {
        var name :| name in rest;
        SubtotalRemove(rest, name);
        sum := sum + Amount(rest[name]);
        rest := rest - {name};
      }
      total := WithDiscount(discount, sum as real);
    }
  }
}
