# Shopping-cart bookkeeping, modelled in Dafny

This project models the core of a small in-memory shopping cart. It covers the
catalogue `Product` value and its `clone`, and the `PercentageDiscount`
strategy. It also covers the `Cart`, which keeps one line per product name.
A line holds the product snapshot taken on the first add of that name and a
quantity. The cart has an optional discount fixed at construction. It offers
`add_item`, `update_quantity`, `remove_item` and `calculate_total`.

Layout:

- `wrappers.dfy` (`Wrappers`): the `Option` type that stands for "a discount strategy or none".
- `product.dfy` (`Products`): `Product` as an immutable value, its `Clone`, the constructor with `available` defaulting to true.
- `discount.dfy` (`Discounts`): `PercentageDiscount`, which keeps `percentage / 100` and maps `t` to `t - t * fraction`.
- `cart_lines.dfy` (`CartLines`): the cart's contents as a `map<string, Line>`. It defines what each operation does to that map (`Added`, `Updated`, `Removed`) and the undiscounted `Subtotal`, and proves how each operation moves the subtotal.
- `cart.dfy` (`Carts`): the `Cart` class. Its methods update the `items` field in place and are proved against the functions of `CartLines`. `CalculateTotal` sums the lines in a loop.
- `scenarios.dfy` (`CartScenarios`): add / update / remove sequences on the shop's laptop (1000) and headphones (50). From the `Cart` contracts alone, the totals are proved to be 1100, 990 with 10% off, 5000 after an overwrite, and 0 after a removal.

Prices and quantities are unbounded integers. The code validates neither, so negative and zero quantities and prices are accepted. A percentage outside 0..100 is accepted as it is, as in the code. `Discounts.UnclampedPercentages` states what such a percentage does to a positive total. When a name is added again, the first-seen product is kept, including its price. The model keeps that behaviour and proves it (`CartLines.AddTwice`, `CartScenarios.FirstPriceIsKept`).

## Model

| member | source | states |
|---|---|---|
| Products.NewProduct | simple_e_commerce_cart_system.py:14-17 | a product carries the given name, price and availability; availability defaults to true |
| Products.Product.Clone | simple_e_commerce_cart_system.py:19-20 | the copy has the same name, price and availability as the original |
| Products.CloneIsIndependent | simple_e_commerce_cart_system.py:19-20 | a clone equals its original; repricing the clone changes the clone only, which then differs from the original exactly when the price differs |
| Discounts.NewPercentageDiscount | simple_e_commerce_cart_system.py:35-36 | the stored fraction is the percentage divided by 100 |
| Discounts.PercentageDiscount.ApplyDiscount | simple_e_commerce_cart_system.py:38-39 | the discounted total is total * (1 - fraction); a zero fraction is the identity |
| Discounts.ApplyPercentage | simple_e_commerce_cart_system.py:35-39 | p percent off scales a total by (100 - p) / 100 |
| Discounts.ZeroPercentIsIdentity | simple_e_commerce_cart_system.py:35-39 | 0 percent leaves every total unchanged |
| Discounts.TenPercentOfHundred | simple_e_commerce_cart_system.py:35-39 | 10 percent off 100 is 90 |
| Discounts.UnclampedPercentages | simple_e_commerce_cart_system.py:35-39 | on a positive total, over 100 percent gives a negative result, a negative percentage gives more than the total, and 0..100 gives a result between 0 and the total |
| CartLines.Added | simple_e_commerce_cart_system.py:46-50 | adding creates the name's line if absent with the product and the quantity, else adds to its quantity and keeps its product; the line's price afterwards is the first-seen price for that name (the added product's price for a new name); no other line changes; lines stay filed under their product's name |
| CartLines.Updated | simple_e_commerce_cart_system.py:52-54 | a present line gets exactly the new quantity and keeps its product; an absent name leaves the map unchanged; no other line changes; filing is preserved |
| CartLines.Removed | simple_e_commerce_cart_system.py:56-58 | the name is gone, every other line is unchanged, an absent name is a no-op, and filing is preserved |
| CartLines.SubtotalRemove | simple_e_commerce_cart_system.py:61 | the sum over the lines does not depend on order: any line can be split off the sum |
| CartLines.SubtotalSingle | simple_e_commerce_cart_system.py:61 | the empty cart sums to 0 and a single line sums to its price * quantity |
| CartLines.SubtotalAdded | simple_e_commerce_cart_system.py:46-50 | adding q of a product raises the sum by the first-seen price times q |
| CartLines.SubtotalUpdated | simple_e_commerce_cart_system.py:52-54 | an overwrite moves the sum by price * (new quantity - old quantity); an unknown name leaves it unchanged |
| CartLines.SubtotalRemoved | simple_e_commerce_cart_system.py:56-58 | a removed line's price * quantity leaves the sum; an unknown name leaves it unchanged |
| CartLines.RemoveIsIdempotent | simple_e_commerce_cart_system.py:56-58 | removing twice equals removing once, and the name is then absent |
| CartLines.AddTwice | simple_e_commerce_cart_system.py:46-50 | two adds of one new name give one line with the summed quantity and the first add's product |
| Carts.WithDiscount | simple_e_commerce_cart_system.py:62-63 | no strategy leaves the sum unchanged; a strategy scales it by (1 - fraction) |
| Carts.Cart.constructor | simple_e_commerce_cart_system.py:42-44 | a new cart is empty, well filed, and holds the given strategy (none by default) |
| Carts.Cart.AddItem | simple_e_commerce_cart_system.py:46-50 | the new items are `Added` of the old items; filing is kept; the sum grows by the first-seen price times the quantity |
| Carts.Cart.UpdateQuantity | simple_e_commerce_cart_system.py:52-54 | the new items are `Updated` of the old items; an unknown name changes nothing; filing is kept; the sum moves by the price times the quantity change |
| Carts.Cart.RemoveItem | simple_e_commerce_cart_system.py:56-58 | the new items are `Removed` of the old items; an unknown name changes nothing; filing is kept; the sum drops by the line's amount |
| Carts.Cart.CalculateTotal | simple_e_commerce_cart_system.py:60-64 | returns the sum of price * quantity over all lines, discounted when a strategy is present, and changes nothing |

## Left out

- The interactive command loop (`main`, lines 72-119): terminal input, command parsing and the catch-all error report are I/O at the boundary.
- `display_cart` (lines 66-69): it only formats and prints. It is the only place where the dictionary's insertion order is visible, and the model's map has no order.
- The abstract `DiscountStrategy` base (lines 30-32) and the empty `Laptop` and `Headphones` subclasses (lines 23-27): they carry no behaviour. The optional strategy is an `Option`, which also stands in for the truth test on line 62. A strategy object is always true there.
- Floating-point behaviour of `percentage / 100.0` and of the discount subtraction: the model uses exact real arithmetic, so rounding is not captured. Without a discount the source returns an integer; the model returns the same value as a real.
- The discount strategy is shared by reference in the source: the cart reads the caller's strategy object, and its `percentage` attribute, each time it computes a total. The model holds the strategy as a fixed value, so a later change to the caller's strategy object would not reach the cart. Neither the core nor its caller makes such a change.
- `copy.deepcopy`: the product is an immutable value, so copying it is taking the value. No aliasing between a caller's product and the cart's snapshot can arise.
