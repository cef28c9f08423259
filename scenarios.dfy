/**
 * What a caller can prove from the Cart contracts alone: add / update /
 * remove sequences on the shop's two catalogue products (a laptop at 1000
 * and headphones at 50), with the totals they lead to.
 */
module CartScenarios {

  import opened Wrappers
  import opened Products
  import opened Discounts
  import opened CartLines
  import opened Carts

  method LaptopAndHeadphones()
  {
    var laptop := NewProduct("Laptop", 1000);
    var headphones := NewProduct("Headphones", 50);
    var cart := new Cart();
    cart.AddItem(laptop);
    cart.AddItem(headphones, 2);
    var total := cart.CalculateTotal();
    assert total == 1100.0;

    var discounted := new Cart(Some(NewPercentageDiscount(10.0)));
    discounted.AddItem(laptop, 1);
    discounted.AddItem(headphones, 2);
    total := discounted.CalculateTotal();
    assert total == 990.0;
  }

  method UpdateOverwrites()
  {
    var laptop := NewProduct("Laptop", 1000);
    var cart := new Cart();
    cart.AddItem(laptop, 2);
    cart.UpdateQuantity("Laptop", 5);
    var total := cart.CalculateTotal();
    assert total == 5000.0;
    cart.UpdateQuantity("Tablet", 7);
    var again := cart.CalculateTotal();
    assert again == total;
  }

  method RemoveEmpties()
  {
    var laptop := NewProduct("Laptop", 1000);
    var cart := new Cart();
    cart.AddItem(laptop, 1);
    cart.RemoveItem("Laptop");
    var total := cart.CalculateTotal();
    assert total == 0.0;
    cart.RemoveItem("Laptop");
    assert cart.items == map[];
  }

  /** A later price change on the caller's product does not reach the cart:
      re-adding under the same name keeps the first-seen price. */
  method FirstPriceIsKept()
  {
    var laptop := NewProduct("Laptop", 1000);
    var cart := new Cart();
    cart.AddItem(laptop, 1);
    laptop := laptop.(price := 2000);
    cart.AddItem(laptop, 1);
    var total := cart.CalculateTotal();
    assert total == 2000.0;
    assert cart.items["Laptop"].product.price == 1000;
  }
}
