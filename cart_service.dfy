/** CartService: cart mutations through the cart table, and the cart total,
    which prices every line as catalog price times quantity and silently
    skips lines whose catalog entry is missing. */
module CartService {
  import opened Model
  import opened CartItemDao
  import opened ProductDao

  /** What one line adds to the total. A line whose type is exactly "PRODUCT"
      is priced from the fuel table; every other line from the services table. */
  function LineAmount(item: CartItem, fuel: map<int, FuelProduct>, services: map<int, ServiceProduct>): real
  {
    if item.itemType == ProductType then
      (if item.itemId in fuel then fuel[item.itemId].price * item.quantity else 0.0)
    else
      (if item.itemId in services then services[item.itemId].price * item.quantity else 0.0)
  }

  /** The sum of the line amounts, accumulated in table order. */
  function CartTotal(items: seq<CartItem>, fuel: map<int, FuelProduct>, services: map<int, ServiceProduct>): real
    decreases |items|
  {
    if items == [] then 0.0
    else CartTotal(items[..|items| - 1], fuel, services) + LineAmount(items[|items| - 1], fuel, services)
  }

  /** The total of two carts laid end to end is the sum of their totals. */
  lemma {:induction false} CartTotalAppend(a: seq<CartItem>, b: seq<CartItem>,
                                           fuel: map<int, FuelProduct>, services: map<int, ServiceProduct>)
    ensures CartTotal(a + b, fuel, services) == CartTotal(a, fuel, services) + CartTotal(b, fuel, services)
    decreases |b|
  {
    if b == [] {
      assert a + b == a;
    } else {
      var init, last := b[..|b| - 1], b[|b| - 1];
      CartTotalAppend(a, init, fuel, services);
      assert (a + b)[..|a + b| - 1] == a + init;
      assert (a + b)[|a + b| - 1] == last;
      assert CartTotal(a + b, fuel, services) == CartTotal(a + init, fuel, services) + LineAmount(last, fuel, services);
    }
  }

  /** A cart whose every line amount is non-negative has a non-negative total. */
  lemma {:induction false} NonNegativeLinesTotal(items: seq<CartItem>, fuel: map<int, FuelProduct>, services: map<int, ServiceProduct>)
    requires forall i :: 0 <= i < |items| ==> LineAmount(items[i], fuel, services) >= 0.0
    ensures CartTotal(items, fuel, services) >= 0.0
    decreases |items|
  {
    if items != [] {
      var init := items[..|items| - 1];
      assert forall i :: 0 <= i < |init| ==> init[i] == items[i];
      NonNegativeLinesTotal(init, fuel, services);
    }
  }

  /** With non-negative prices and quantities the total is never negative. */
  lemma CartTotalNonNegative(items: seq<CartItem>, fuel: map<int, FuelProduct>, services: map<int, ServiceProduct>)
    requires NonNegativePrices(fuel, services) && NonNegativeQuantities(items)
    ensures CartTotal(items, fuel, services) >= 0.0
  {
    forall i | 0 <= i < |items| ensures LineAmount(items[i], fuel, services) >= 0.0 {
      var it := items[i];
      if it.itemType == ProductType && it.itemId in fuel {
        MulNonNegative(fuel[it.itemId].price, it.quantity);
      } else if it.itemType != ProductType && it.itemId in services {
        MulNonNegative(services[it.itemId].price, it.quantity);
      }
    }
    NonNegativeLinesTotal(items, fuel, services);
  }

  lemma MulNonNegative(a: real, b: real)
    requires a >= 0.0 && b >= 0.0
    ensures a * b >= 0.0
  {
  }

  /** A line whose catalog entry is missing adds nothing and raises no error:
      removing it anywhere leaves the total as it was. */
  lemma MissingEntryAddsNothing(a: seq<CartItem>, x: CartItem, b: seq<CartItem>,
                                fuel: map<int, FuelProduct>, services: map<int, ServiceProduct>)
    requires if x.itemType == ProductType then x.itemId !in fuel else x.itemId !in services
    ensures CartTotal(a + [x] + b, fuel, services) == CartTotal(a + b, fuel, services)
  {
    CartTotalAppend(a + [x], b, fuel, services);
    CartTotalAppend(a, [x], fuel, services);
    CartTotalAppend(a, b, fuel, services);
    assert [x][..0] == [];
  }

  /** The total reads prices only: changing stock (and nothing else) leaves it unchanged. */
  lemma {:induction false} CartTotalDependsOnPricesOnly(items: seq<CartItem>, fuel: map<int, FuelProduct>,
                                                        fuel': map<int, FuelProduct>, services: map<int, ServiceProduct>)
    requires SamePrices(fuel, fuel')
    ensures CartTotal(items, fuel', services) == CartTotal(items, fuel, services)
    decreases |items|
  {
    if items != [] {
      var last := items[|items| - 1];
      CartTotalDependsOnPricesOnly(items[..|items| - 1], fuel, fuel', services);
      if last.itemType == ProductType && last.itemId in fuel {
        assert fuel'[last.itemId].price == fuel[last.itemId].price;
      }
      assert LineAmount(last, fuel', services) == LineAmount(last, fuel, services);
    }
  }

  /** One more line of the table adds that line's amount. */
  lemma CartTotalStep(items: seq<CartItem>, i: int, fuel: map<int, FuelProduct>, services: map<int, ServiceProduct>)
    requires 0 <= i < |items|
    ensures CartTotal(items[..i + 1], fuel, services) == CartTotal(items[..i], fuel, services) + LineAmount(items[i], fuel, services)
  {
    assert items[..i + 1][..i] == items[..i];
  }

  /** `getCartItems`. */
  method GetCartItems(cart: CartTable, customerId: int) returns (items: seq<CartItem>)
    ensures items == LinesOf(cart.lines, customerId)
  {
    items := cart.GetByCustomerId(customerId);
  }

  /** `addToCart`: the line is appended with a fresh id and shows up in the customer's cart. */
  method AddToCart(cart: CartTable, item: CartItem)
    requires cart.Valid()
    modifies cart
    ensures cart.Valid()
    ensures cart.lines == old(cart.lines) + [item.(id := old(cart.nextId))]
    ensures cart.nextId == old(cart.nextId) + 1
    ensures LinesOf(cart.lines, item.customerId) == LinesOf(old(cart.lines), item.customerId) + [item.(id := old(cart.nextId))]
  {
    cart.Insert(item);
    SelectAppend(old(cart.lines), [item.(id := old(cart.nextId))], CustomerIs(item.customerId));
    assert [item.(id := old(cart.nextId))][..0] == [];
  }

  /** `removeCartItem(id)`: no line with that id remains; every other line stays. */
  method RemoveCartItem(cart: CartTable, id: int)
    requires cart.Valid()
    modifies cart
    ensures cart.Valid()
    ensures cart.lines == Reject(old(cart.lines), IdIs(id)) && cart.nextId == old(cart.nextId)
    ensures forall x :: x in cart.lines <==> x in old(cart.lines) && x.id != id
  {
    cart.Delete(id);
  }

  /** `removeFromCart`: every line of that customer with that type and item id goes. */
  method RemoveFromCart(cart: CartTable, customerId: int, itemType: string, itemId: int)
    requires cart.Valid()
    modifies cart
    ensures cart.Valid()
    ensures cart.lines == Reject(old(cart.lines), ItemIs(customerId, itemType, itemId)) && cart.nextId == old(cart.nextId)
  {
    cart.DeleteByItem(customerId, itemType, itemId);
  }

  /** `clearCart`: the customer's cart is empty and other customers' carts are untouched. */
  method ClearCart(cart: CartTable, customerId: int)
    requires cart.Valid()
    modifies cart
    ensures cart.Valid()
    ensures cart.lines == Reject(old(cart.lines), CustomerIs(customerId)) && cart.nextId == old(cart.nextId)
    ensures LinesOf(cart.lines, customerId) == []
    ensures forall c :: c != customerId ==> LinesOf(cart.lines, c) == LinesOf(old(cart.lines), c)
  {
    cart.DeleteAllByCustomerId(customerId);
    RejectCustomerEmptiesOnlyThatCart(old(cart.lines), customerId);
  }

  /** `calculateCartTotal`: accumulates the line amounts of the customer's cart. */
  method CalculateCartTotal(cart: CartTable, products: ProductTable, customerId: int) returns (total: real)
    ensures total == CartTotal(LinesOf(cart.lines, customerId), products.fuel, products.services)
  {
    total := 0.0;
    var items := GetCartItems(cart, customerId);
    for i := 0 to |items|
      invariant total == CartTotal(items[..i], products.fuel, products.services)
    {
      var item := items[i];
      if item.itemType == ProductType {
        var p := products.GetFuelById(item.itemId);
        if p.Some? {
          total := total + p.value.price * item.quantity;
        }
      } else {
        var s := products.GetServiceById(item.itemId);
        if s.Some? {
          total := total + s.value.price * item.quantity;
        }
      }
      CartTotalStep(items, i, products.fuel, products.services);
    }
    assert items[..|items|] == items;
  }
}
