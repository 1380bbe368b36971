/** SmartFuelPresenter: routes cart and payment requests to the services and
    keeps, per customer, how much has already been paid in parts (`paidMap`),
    so that the screen can show the amount still owed rather than the full total. */
module Presenter {
  import opened Model
  import opened CartItemDao
  import opened CustomerDao
  import opened ProductDao
  import opened CartService
  import opened CustomerService
  import opened PaymentService

  /** `getRemaining`'s arithmetic: total minus paid, never below zero. */
  function RemainingOf(total: real, paid: real): (r: real)
    ensures r >= 0.0 && r >= total - paid
    ensures paid <= total ==> r == total - paid
    ensures paid >= total ==> r == 0.0
  {
    Max0(total - paid)
  }

  /** A partial payment that the presenter accepts lowers the remaining amount by
      exactly that payment and leaves the paid amount within the total. */
  lemma PartialPaymentLowersRemaining(total: real, paid: real, amount: real)
    requires 0.0 < amount <= RemainingOf(total, paid)
    ensures paid + amount <= total
    ensures RemainingOf(total, paid + amount) == RemainingOf(total, paid) - amount
  {
  }

  /** What was paid in parts plus the remaining amount that a full checkout
      collects is exactly the cart total. */
  lemma PaidPlusRemainingIsTotal(total: real, paid: real)
    requires 0.0 <= paid <= total
    ensures paid + RemainingOf(total, paid) == total
  {
  }

  /** Every recorded partial amount lies between zero and its customer's cart total. */
  predicate PaidBounded(paid: map<int, real>, lines: seq<CartItem>, fuel: map<int, FuelProduct>,
                        services: map<int, ServiceProduct>)
  {
    forall c :: c in paid ==> 0.0 <= paid[c] <= CartTotal(LinesOf(lines, c), fuel, services)
  }

  /** Resetting one customer's paid amount keeps every paid amount within its total,
      whatever happened to that customer's cart, as long as the other carts are
      unchanged and no quantity is negative. */
  lemma ResetKeepsPaidBounded(paid: map<int, real>, lines0: seq<CartItem>, lines1: seq<CartItem>,
                              fuel: map<int, FuelProduct>, services: map<int, ServiceProduct>, customerId: int)
    requires NonNegativePrices(fuel, services) && NonNegativeQuantities(lines1)
    requires PaidBounded(paid, lines0, fuel, services)
    requires forall c :: c != customerId ==> LinesOf(lines1, c) == LinesOf(lines0, c)
    ensures PaidBounded(paid[customerId := 0.0], lines1, fuel, services)
  {
    FiltersKeepQuantitiesNonNegative(lines1, CustomerIs(customerId));
    CartTotalNonNegative(LinesOf(lines1, customerId), fuel, services);
  }

  class SmartFuelPresenter {
    const products: ProductTable
    const customers: CustomerTable
    const cart: CartTable
    /** Customer id to the amount already paid in parts. */
    var paidMap: map<int, real>

    ghost predicate Valid()
      reads this, customers, cart
    {
      customers.Valid() && cart.Valid()
    }

    constructor (products: ProductTable, customers: CustomerTable, cart: CartTable)
      requires customers.Valid() && cart.Valid()
      ensures Valid() && paidMap == map[]
      ensures this.products == products && this.customers == customers && this.cart == cart
    {
      this.products := products;
      this.customers := customers;
      this.cart := cart;
      paidMap := map[];
    }

    /** `getPaid`: the recorded amount, or 0.0 for a customer never recorded. */
    function GetPaid(customerId: int): (r: real)
      reads this
      ensures customerId !in paidMap ==> r == 0.0
      ensures customerId in paidMap ==> r == paidMap[customerId]
    {
      if customerId in paidMap then paidMap[customerId] else 0.0
    }

    /** The cart total of a customer as `getCartTotal` computes it. */
    ghost function Total(customerId: int): real
      reads cart, products
    {
      CartTotal(LinesOf(cart.lines, customerId), products.fuel, products.services)
    }

    /** The amount still owed. */
    ghost function Remaining(customerId: int): real
      reads this, cart, products
    {
      RemainingOf(Total(customerId), GetPaid(customerId))
    }

    /** Every recorded partial amount lies between zero and its customer's cart
        total; prices and quantities are non-negative. */
    ghost predicate PaidWithinTotals()
      reads this, cart, products
    {
      NonNegativePrices(products.fuel, products.services) &&
      NonNegativeQuantities(cart.lines) &&
      PaidBounded(paidMap, cart.lines, products.fuel, products.services)
    }

    /** `resetPaid`. */
    method ResetPaid(customerId: int)
      modifies this
      ensures paidMap == old(paidMap)[customerId := 0.0]
    {
      paidMap := paidMap[customerId := 0.0];
    }

    /** `getCartItems`. */
    method GetCartItems(customerId: int) returns (items: seq<CartItem>)
      ensures items == LinesOf(cart.lines, customerId)
    {
      items := CartService.GetCartItems(cart, customerId);
    }

    /** `getCartTotal`. */
    method GetCartTotal(customerId: int) returns (total: real)
      ensures total == Total(customerId)
    {
      total := CalculateCartTotal(cart, products, customerId);
    }

    /** `getRemaining`: the cart total less what was paid in parts, floored at zero. */
    method GetRemaining(customerId: int) returns (remaining: real)
      ensures remaining == Remaining(customerId)
      ensures remaining >= 0.0 && remaining >= Total(customerId) - GetPaid(customerId)
    {
      var total := GetCartTotal(customerId);
      var paid := GetPaid(customerId);
      remaining := total - paid;
      if remaining < 0.0 {
        remaining := 0.0;
      }
    }

    /** Every customer's cart total is non-negative when prices and quantities are. */
    lemma TotalsNonNegative()
      requires NonNegativePrices(products.fuel, products.services) && NonNegativeQuantities(cart.lines)
      ensures forall c :: Total(c) >= 0.0
    {
      forall c ensures Total(c) >= 0.0 {
        FiltersKeepQuantitiesNonNegative(cart.lines, CustomerIs(c));
        CartTotalNonNegative(LinesOf(cart.lines, c), products.fuel, products.services);
      }
    }

    /** `addToCart`: inserts a line with a fresh id and resets the customer's paid amount. */
    method AddToCart(customerId: int, itemType: string, itemId: int, quantity: real)
      requires Valid()
      modifies this, cart
      ensures Valid()
      ensures cart.lines == old(cart.lines) + [CartItem(old(cart.nextId), customerId, itemType, itemId, quantity)]
      ensures cart.nextId == old(cart.nextId) + 1
      ensures paidMap == old(paidMap)[customerId := 0.0]
      ensures old(PaidWithinTotals()) && quantity >= 0.0 ==> PaidWithinTotals()
    {
      ghost var before := cart.lines;
      CartService.AddToCart(cart, CartItem(0, customerId, itemType, itemId, quantity));
      ResetPaid(customerId);
      if old(PaidWithinTotals()) && quantity >= 0.0 {
        var line := CartItem(old(cart.nextId), customerId, itemType, itemId, quantity);
        assert NonNegativeQuantities(cart.lines) by {
          assert cart.lines == before + [line];
        }
        forall c | c != customerId ensures LinesOf(cart.lines, c) == LinesOf(before, c) {
          AppendKeepsOtherCarts(before, line, c);
        }
        ResetKeepsPaidBounded(old(paidMap), before, cart.lines, products.fuel, products.services, customerId);
      }
    }

    /** `removeCartItemById`: deletes the line with that id, whoever owns it, and
        resets the paid amount of the customer passed in. */
    method RemoveCartItemById(cartItemId: int, customerId: int)
      requires Valid()
      modifies this, cart
      ensures Valid()
      ensures cart.lines == Reject(old(cart.lines), IdIs(cartItemId)) && cart.nextId == old(cart.nextId)
      ensures paidMap == old(paidMap)[customerId := 0.0]
      ensures old(PaidWithinTotals()) &&
              (forall i :: 0 <= i < |old(cart.lines)| && old(cart.lines)[i].id == cartItemId ==>
                 old(cart.lines)[i].customerId == customerId)
              ==> PaidWithinTotals()
    {
      ghost var before := cart.lines;
      RemoveCartItem(cart, cartItemId);
      ResetPaid(customerId);
      if old(PaidWithinTotals()) &&
         (forall i :: 0 <= i < |before| && before[i].id == cartItemId ==> before[i].customerId == customerId) {
        FiltersKeepQuantitiesNonNegative(before, IdIs(cartItemId));
        forall c | c != customerId ensures LinesOf(cart.lines, c) == LinesOf(before, c) {
          RejectKeepsOtherCarts(before, IdIs(cartItemId), c);
        }
        ResetKeepsPaidBounded(old(paidMap), before, cart.lines, products.fuel, products.services, customerId);
      }
    }

    /** `removeFromCart`: deletes the customer's lines of that type and item, and resets the paid amount. */
    method RemoveFromCart(customerId: int, itemType: string, itemId: int)
      requires Valid()
      modifies this, cart
      ensures Valid()
      ensures cart.lines == Reject(old(cart.lines), ItemIs(customerId, itemType, itemId)) && cart.nextId == old(cart.nextId)
      ensures paidMap == old(paidMap)[customerId := 0.0]
      ensures old(PaidWithinTotals()) ==> PaidWithinTotals()
    {
      ghost var before := cart.lines;
      CartService.RemoveFromCart(cart, customerId, itemType, itemId);
      ResetPaid(customerId);
      if old(PaidWithinTotals()) {
        FiltersKeepQuantitiesNonNegative(before, ItemIs(customerId, itemType, itemId));
        forall c | c != customerId ensures LinesOf(cart.lines, c) == LinesOf(before, c) {
          RejectKeepsOtherCarts(before, ItemIs(customerId, itemType, itemId), c);
        }
        ResetKeepsPaidBounded(old(paidMap), before, cart.lines, products.fuel, products.services, customerId);
      }
    }

    /** `clearCart`: empties the customer's cart and resets the paid amount. */
    method ClearCart(customerId: int)
      requires Valid()
      modifies this, cart
      ensures Valid()
      ensures cart.lines == Reject(old(cart.lines), CustomerIs(customerId)) && cart.nextId == old(cart.nextId)
      ensures LinesOf(cart.lines, customerId) == [] && Total(customerId) == 0.0
      ensures paidMap == old(paidMap)[customerId := 0.0]
      ensures old(PaidWithinTotals()) ==> PaidWithinTotals()
    {
      ghost var before := cart.lines;
      CartService.ClearCart(cart, customerId);
      ResetPaid(customerId);
      if old(PaidWithinTotals()) {
        FiltersKeepQuantitiesNonNegative(before, CustomerIs(customerId));
      }
    }

    /** After a full checkout: the customer's cart is empty and only stock has
        changed in the catalog, so every total is as before except the customer's. */
    lemma AfterFullCheckout(customerId: int, fuel0: map<int, FuelProduct>, lines0: seq<CartItem>,
                            paid0: map<int, real>)
      requires SamePrices(fuel0, products.fuel)
      requires cart.lines == Reject(lines0, CustomerIs(customerId))
      requires paidMap == paid0[customerId := 0.0]
      requires NonNegativePrices(fuel0, products.services) && NonNegativeQuantities(lines0)
      requires forall c :: c in paid0 ==> 0.0 <= paid0[c] <= CartTotal(LinesOf(lines0, c), fuel0, products.services)
      ensures PaidWithinTotals()
    {
      FiltersKeepQuantitiesNonNegative(lines0, CustomerIs(customerId));
      TotalsNonNegative();
      RejectCustomerEmptiesOnlyThatCart(lines0, customerId);
      forall c | c in paidMap ensures 0.0 <= paidMap[c] <= Total(c) {
        if c != customerId {
          CartTotalDependsOnPricesOnly(LinesOf(lines0, c), fuel0, products.fuel, products.services);
        }
      }
    }

    /** `checkoutFullWithMethod`: with something still owed, pays exactly the
        remaining amount by one method; on success stock is deducted for the
        whole cart, the cart is cleared and the paid amount reset. */
    method CheckoutFullWithMethod(customerId: int, m: PaymentMethod) returns (ok: bool)
      requires Valid()
      modifies this, customers, products, cart
      ensures Valid()
      ensures ok <==> old(Remaining(customerId)) > 0.0 && customerId in old(customers.rows) &&
                      CanPayWith(old(customers.rows)[customerId], m, old(Remaining(customerId)))
      ensures ok ==> customers.rows == old(customers.rows)[customerId :=
                       Debit(old(customers.rows)[customerId], m, old(Remaining(customerId)))]
      ensures ok ==> products.fuel == StockAfter(old(products.fuel), LinesOf(old(cart.lines), customerId))
      ensures ok ==> cart.lines == Reject(old(cart.lines), CustomerIs(customerId))
      ensures ok ==> paidMap == old(paidMap)[customerId := 0.0]
      ensures !ok ==> customers.rows == old(customers.rows) && products.fuel == old(products.fuel) &&
                      cart.lines == old(cart.lines) && paidMap == old(paidMap)
      ensures products.services == old(products.services) && cart.nextId == old(cart.nextId)
      ensures old(PaidWithinTotals()) ==> PaidWithinTotals()
    {
      ghost var fuel0, lines0, paid0 := products.fuel, cart.lines, paidMap;
      var remaining := GetRemaining(customerId);
      if remaining <= 0.0 {
        return false;
      }
      ok := PayExactAmountWithMethod(customers, products, cart, customerId, m, remaining);
      if !ok {
        return false;
      }
      ResetPaid(customerId);
      if old(PaidWithinTotals()) {
        AfterFullCheckout(customerId, fuel0, lines0, paid0);
      }
    }

    /** `checkoutFullCombined`: with something still owed, pays exactly the
        remaining amount from cash, card and bonus in turn. The drawn balances
        are written back even when the payment fails. */
    method CheckoutFullCombined(customerId: int) returns (ok: bool)
      requires Valid()
      modifies this, customers, products, cart
      ensures Valid()
      ensures ok <==> old(Remaining(customerId)) > 0.0 && customerId in old(customers.rows) &&
                      CombinedSucceeds(old(customers.rows)[customerId], old(Remaining(customerId)))
      ensures old(Remaining(customerId)) > 0.0 && customerId in old(customers.rows) ==>
                customers.rows == old(customers.rows)[customerId :=
                  AfterDraw(old(customers.rows)[customerId],
                            CombinedDraw(old(customers.rows)[customerId], old(Remaining(customerId))))]
      ensures !(old(Remaining(customerId)) > 0.0 && customerId in old(customers.rows)) ==>
                customers.rows == old(customers.rows)
      ensures ok ==> products.fuel == StockAfter(old(products.fuel), LinesOf(old(cart.lines), customerId))
      ensures ok ==> cart.lines == Reject(old(cart.lines), CustomerIs(customerId))
      ensures ok ==> paidMap == old(paidMap)[customerId := 0.0]
      ensures !ok ==> products.fuel == old(products.fuel) && cart.lines == old(cart.lines) && paidMap == old(paidMap)
      ensures products.services == old(products.services) && cart.nextId == old(cart.nextId)
      ensures old(PaidWithinTotals()) ==> PaidWithinTotals()
    {
      ghost var fuel0, lines0, paid0 := products.fuel, cart.lines, paidMap;
      var remaining := GetRemaining(customerId);
      if remaining <= 0.0 {
        return false;
      }
      ok := PayExactAmountCombined(customers, products, cart, customerId, remaining);
      if !ok {
        return false;
      }
      ResetPaid(customerId);
      if old(PaidWithinTotals()) {
        AfterFullCheckout(customerId, fuel0, lines0, paid0);
      }
    }

    /** `checkoutPartial`: a positive amount no larger than what is still owed is
        taken from one balance and added to the paid amount; cart and stock stay. */
    method CheckoutPartial(customerId: int, m: PaymentMethod, amount: real) returns (ok: bool)
      requires Valid()
      modifies this, customers
      ensures Valid()
      ensures ok <==> 0.0 < amount <= old(Remaining(customerId)) && customerId in old(customers.rows) &&
                      CanPayWith(old(customers.rows)[customerId], m, amount)
      ensures ok ==> customers.rows == old(customers.rows)[customerId := Debit(old(customers.rows)[customerId], m, amount)]
      ensures ok ==> paidMap == old(paidMap)[customerId := old(GetPaid(customerId)) + amount]
      ensures ok ==> Remaining(customerId) == old(Remaining(customerId)) - amount
      ensures !ok ==> customers.rows == old(customers.rows) && paidMap == old(paidMap)
      ensures old(PaidWithinTotals()) ==> PaidWithinTotals()
    {
      if amount <= 0.0 {
        return false;
      }
      var remaining := GetRemaining(customerId);
      if amount > remaining {
        return false;
      }
      ok := PayPartial(customers, customerId, m, amount);
      if !ok {
        return false;
      }
      var newPaid := GetPaid(customerId) + amount;
      paidMap := paidMap[customerId := newPaid];
      PartialPaymentLowersRemaining(Total(customerId), old(GetPaid(customerId)), amount);
    }
  }
}
