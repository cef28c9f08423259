/**
 * The cart's contents as a value: a map from product name to a line holding
 * the product snapshot taken when the name was first added and the quantity.
 * The functions here say what each cart operation does to that map; the
 * Cart class in module Carts performs them in place.
 */
module CartLines {

  import opened Products

  /** One cart entry: the stored product and its (unvalidated) quantity. */
  datatype Line = Line(product: Product, quantity: int)

  type Lines = map<string, Line>

  /** Every line is filed under the name of the product it stores. */
  ghost predicate WellKeyed(m: Lines)
  {
    forall name :: name in m ==> m[name].product.name == name
  }

  /** What one line contributes to the total. */
  function Amount(line: Line): int
  {
    line.product.price * line.quantity
  }

  /** The price a line for `p.name` has once `p` has been added: the price
      seen first, which a later add never replaces. */
  function StoredPrice(m: Lines, p: Product): int
  {
    if p.name in m then m[p.name].product.price else p.price
  }

  /** Adding `quantity` of `p`: a fresh line with quantity 0 and a copy of
      `p` on first sight of the name, then the quantity is added. */
  function Added(m: Lines, p: Product, quantity: int): (r: Lines)
    ensures r.Keys == m.Keys + {p.name}
    ensures p.name !in m ==> r[p.name] == Line(p, quantity)
    ensures p.name in m ==> r[p.name].product == m[p.name].product
    ensures p.name in m ==> r[p.name].quantity == m[p.name].quantity + quantity
    ensures r[p.name].product.price == StoredPrice(m, p)
    ensures forall name :: name in m && name != p.name ==> r[name] == m[name]
    ensures WellKeyed(m) ==> WellKeyed(r)
  {
    var m0 := if p.name in m then m else m[p.name := Line(p.Clone(), 0)];
    m0[p.name := m0[p.name].(quantity := m0[p.name].quantity + quantity)]
  }

  /** Overwriting the quantity of a present line; an unknown name is ignored. */
  function Updated(m: Lines, name: string, quantity: int): (r: Lines)
    ensures r.Keys == m.Keys
    ensures name in m ==> r[name] == Line(m[name].product, quantity)
    ensures name !in m ==> r == m
    ensures forall other :: other in m && other != name ==> r[other] == m[other]
    ensures WellKeyed(m) ==> WellKeyed(r)
  {
    if name in m then m[name := m[name].(quantity := quantity)] else m
  }

  /** Deleting a present line; an unknown name is ignored. */
  function Removed(m: Lines, name: string): (r: Lines)
    ensures r.Keys == m.Keys - {name}
    ensures forall other :: other in r ==> r[other] == m[other]
    ensures name !in m ==> r == m
    ensures WellKeyed(m) ==> WellKeyed(r)
  {
    if name in m then m - {name} else m
  }

  /** The undiscounted total: the sum of price * quantity over all lines. */
  ghost function Subtotal(m: Lines): int
    decreases |m|
  {
    if m == map[] then 0
    else
      var name :| name in m;
      Amount(m[name]) + Subtotal(m - {name})
  }

  /** The subtotal does not depend on which line the sum starts with:
      any line can be split off. */
  lemma {:induction false} SubtotalRemove(m: Lines, name: string)
    requires name in m
    ensures Subtotal(m) == Amount(m[name]) + Subtotal(m - {name})
    decreases |m|
  {
    var first :| first in m && Subtotal(m) == Amount(m[first]) + Subtotal(m - {first});
    if first != name {
      var rest := m - {first};
      assert name in rest;
      SubtotalRemove(rest, name);
      var without := m - {name};
      assert first in without;
      SubtotalRemove(without, first);
      assert rest - {name} == without - {first};
    }
  }

  /** The empty cart totals 0, and a single line totals its own amount. */
  lemma SubtotalSingle(name: string, line: Line)
    ensures Subtotal(map[]) == 0
    ensures Subtotal(map[name := line]) == Amount(line)
  {
    var m := map[name := line];
    SubtotalRemove(m, name);
    assert m - {name} == map[];
  }

  /** Adding q of p moves the subtotal by the first-seen price times q. */
  lemma {:induction false} SubtotalAdded(m: Lines, p: Product, quantity: int)
    ensures Subtotal(Added(m, p, quantity)) == Subtotal(m) + StoredPrice(m, p) * quantity
  {
    var r := Added(m, p, quantity);
    var price := StoredPrice(m, p);
    var before := if p.name in m then m[p.name].quantity else 0;
    assert r[p.name] == Line(r[p.name].product, before + quantity);
    assert r[p.name].product.price == price;
    SubtotalRemove(r, p.name);
    assert r - {p.name} == m - {p.name};
    assert Amount(r[p.name]) == price * before + price * quantity by {
      assert price * (before + quantity) == price * before + price * quantity;
    }
    if p.name in m {
      SubtotalRemove(m, p.name);
    } else {
      assert m - {p.name} == m;
    }
  }

  /** Overwriting a quantity replaces that line's amount; an unknown name
      leaves the subtotal as it was. */
  lemma {:induction false} SubtotalUpdated(m: Lines, name: string, quantity: int)
    ensures name in m ==>
      Subtotal(Updated(m, name, quantity))
        == Subtotal(m) + m[name].product.price * (quantity - m[name].quantity)
    ensures name !in m ==> Subtotal(Updated(m, name, quantity)) == Subtotal(m)
  {
    if name in m {
      var r := Updated(m, name, quantity);
      SubtotalRemove(r, name);
      SubtotalRemove(m, name);
      assert r - {name} == m - {name};
    }
  }

  /** A removed line no longer contributes to the subtotal. */
  lemma {:induction false} SubtotalRemoved(m: Lines, name: string)
    ensures name in m ==> Subtotal(Removed(m, name)) == Subtotal(m) - Amount(m[name])
    ensures name !in m ==> Subtotal(Removed(m, name)) == Subtotal(m)
  {
    if name in m {
      SubtotalRemove(m, name);
    }
  }

  /** Removing twice is the same as removing once. */
  lemma RemoveIsIdempotent(m: Lines, name: string)
    ensures Removed(Removed(m, name), name) == Removed(m, name)
    ensures name !in Removed(m, name)
  {
  }

  /** Adding a name twice keeps one line, with the summed quantity and the
      first add's product (and so its price). */
  lemma AddTwice(m: Lines, p1: Product, q1: int, p2: Product, q2: int)
    requires p1.name == p2.name
    requires p1.name !in m
    ensures var r := Added(Added(m, p1, q1), p2, q2);
      r.Keys == m.Keys + {p1.name} && r[p1.name] == Line(p1, q1 + q2)
  {
  }
}
