/** PaymentService: a partial payment by one method, a full payment of an exact
    sum by one method, a full combined payment that draws cash, then card, then
    bonus, and the stock deduction and cart clearing that follow a full payment. */
module PaymentService {
  import opened Model
  import opened CartItemDao
  import opened CustomerDao
  import opened ProductDao
  import opened ProductService
  import opened CustomerService

  /** Everything a customer holds, across the three balances. */
  function Funds(c: Customer): real
  {
    c.wallet + c.card + c.bonus
  }

  /** A debit of `amount` from any one balance lowers the funds by exactly `amount`. */
  lemma DebitLowersFundsByAmount(c: Customer, m: PaymentMethod, amount: real)
    ensures Funds(Debit(c, m, amount)) == Funds(c) - amount
  {
    var d := Debit(c, m, amount);
    assert Balance(d, Cash) == d.wallet && Balance(d, Card) == d.card && Balance(d, Bonus) == d.bonus;
  }

  // ---------------------------------------------------------------------------
  // Stock deduction

  /** The fuel table after every line of `items` typed exactly "PRODUCT" has
      decreased the stock of its fuel by its quantity, in table order. */
  function StockAfter(fuel: map<int, FuelProduct>, items: seq<CartItem>): (r: map<int, FuelProduct>)
    ensures SamePrices(fuel, r)
    decreases |items|
  {
    if items == [] then fuel
    else
      var last := items[|items| - 1];
      var before := StockAfter(fuel, items[..|items| - 1]);
      if last.itemType == ProductType then DecreasedStock(before, last.itemId, last.quantity) else before
  }

  /** The litres of fuel `id` that the "PRODUCT" lines of `items` ask for. */
  function LitresOf(items: seq<CartItem>, id: int): real
    decreases |items|
  {
    if items == [] then 0.0
    else
      var last := items[|items| - 1];
      LitresOf(items[..|items| - 1], id) + (if last.itemType == ProductType && last.itemId == id then last.quantity else 0.0)
  }

  /** With non-negative quantities, the stock of each fuel ends at its old stock
      minus all the litres sold of it, floored once at zero. */
  lemma {:induction false} StockAfterSubtractsLitres(fuel: map<int, FuelProduct>, items: seq<CartItem>, id: int)
    requires id in fuel && fuel[id].stockQty >= 0.0
    requires NonNegativeQuantities(items)
    ensures id in StockAfter(fuel, items)
    ensures StockAfter(fuel, items)[id].stockQty == Max0(fuel[id].stockQty - LitresOf(items, id))
    decreases |items|
  {
    if items != [] {
      var init := items[..|items| - 1];
      var last := items[|items| - 1];
      StockAfterSubtractsLitres(fuel, init, id);
      assert last.quantity >= 0.0;
      var s := fuel[id].stockQty - LitresOf(init, id);
      if last.itemType == ProductType && last.itemId == id {
        assert Max0(Max0(s) - last.quantity) == Max0(s - last.quantity);
      }
    }
  }

  /** A fuel no "PRODUCT" line mentions keeps its row, stock included. */
  lemma {:induction false} StockAfterKeepsUnsoldFuel(fuel: map<int, FuelProduct>, items: seq<CartItem>, id: int)
    requires id in fuel
    requires forall i :: 0 <= i < |items| ==> !(items[i].itemType == ProductType && items[i].itemId == id)
    ensures StockAfter(fuel, items)[id] == fuel[id]
    decreases |items|
  {
    if items != [] {
      assert forall i :: 0 <= i < |items| - 1 ==> items[..|items| - 1][i] == items[i];
      StockAfterKeepsUnsoldFuel(fuel, items[..|items| - 1], id);
    }
  }

  /** No stock is ever driven below zero. */
  lemma {:induction false} StockAfterNeverNegative(fuel: map<int, FuelProduct>, items: seq<CartItem>, id: int)
    requires id in fuel && fuel[id].stockQty >= 0.0
    ensures StockAfter(fuel, items)[id].stockQty >= 0.0
    decreases |items|
  {
    if items != [] {
      StockAfterNeverNegative(fuel, items[..|items| - 1], id);
    }
  }

  /** `deductStockAndClearCart`: decreases the stock of every fuel line of the
      customer's cart, leaves services alone, then deletes the customer's lines. */
  method DeductStockAndClearCart(products: ProductTable, cart: CartTable, customerId: int)
    requires cart.Valid()
    modifies products, cart
    ensures cart.Valid()
    ensures products.fuel == StockAfter(old(products.fuel), LinesOf(old(cart.lines), customerId))
    ensures products.services == old(products.services)
    ensures cart.lines == Reject(old(cart.lines), CustomerIs(customerId)) && cart.nextId == old(cart.nextId)
    ensures LinesOf(cart.lines, customerId) == []
    ensures forall c :: c != customerId ==> LinesOf(cart.lines, c) == LinesOf(old(cart.lines), c)
  {
    var items := cart.GetByCustomerId(customerId);
    ghost var fuel0 := products.fuel;
    for i := 0 to |items|
      invariant products.fuel == StockAfter(fuel0, items[..i])
      invariant products.services == old(products.services)
      invariant cart.lines == old(cart.lines) && cart.nextId == old(cart.nextId)
    {
      var ci := items[i];
      assert items[..i + 1][..i] == items[..i];
      if ci.itemType == ProductType {
        DecreaseFuelStock(products, ci.itemId, ci.quantity);
      } else {
        var s := products.GetServiceById(ci.itemId);
        if s.Some? {
          // services carry no stock: nothing is written
        }
      }
    }
    assert items[..|items|] == items;
    cart.DeleteAllByCustomerId(customerId);
    RejectCustomerEmptiesOnlyThatCart(old(cart.lines), customerId);
  }

  // ---------------------------------------------------------------------------
  // One payment method

  /** The balance check and debit shared by `payPartial` and
      `payExactAmountWithMethod`; the customer is written back only on success. */
  method DebitIfCovered(customers: CustomerTable, customerId: int, m: PaymentMethod, amount: real) returns (ok: bool)
    requires customers.Valid()
    modifies customers
    ensures customers.Valid()
    ensures ok <==> customerId in old(customers.rows) && CanPayWith(old(customers.rows)[customerId], m, amount)
    ensures ok ==> customers.rows == old(customers.rows)[customerId := Debit(old(customers.rows)[customerId], m, amount)]
    ensures !ok ==> customers.rows == old(customers.rows)
  {
    var found := customers.GetById(customerId);
    if found.None? {
      return false;
    }
    var cust := found.value;
    match m {
      case Cash =>
        if cust.wallet >= amount {
          cust := cust.(wallet := cust.wallet - amount);
        } else {
          return false;
        }
      case Card =>
        if cust.card >= amount {
          cust := cust.(card := cust.card - amount);
        } else {
          return false;
        }
      case Bonus =>
        if cust.bonus >= amount {
          cust := cust.(bonus := cust.bonus - amount);
        } else {
          return false;
        }
    }
    assert cust == Debit(old(customers.rows)[customerId], m, amount);
    WithBalancesOfStoresRow(customers.rows, cust);
    UpdateCustomer(customers, cust);
    ok := true;
  }

  /** `payPartial`: takes `amount` from one balance when it covers it; nothing
      else (neither stock nor cart) changes. */
  method PayPartial(customers: CustomerTable, customerId: int, m: PaymentMethod, amount: real) returns (ok: bool)
    requires customers.Valid()
    modifies customers
    ensures customers.Valid()
    ensures ok <==> customerId in old(customers.rows) && CanPayWith(old(customers.rows)[customerId], m, amount)
    ensures ok ==> customers.rows == old(customers.rows)[customerId := Debit(old(customers.rows)[customerId], m, amount)]
    ensures !ok ==> customers.rows == old(customers.rows)
  {
    ok := DebitIfCovered(customers, customerId, m, amount);
  }

  /** `payExactAmountWithMethod`: takes `sum` from one balance when it covers it,
      then deducts stock and clears the cart; on failure nothing changes. */
  method PayExactAmountWithMethod(customers: CustomerTable, products: ProductTable, cart: CartTable,
                                  customerId: int, m: PaymentMethod, sum: real) returns (ok: bool)
    requires customers.Valid() && cart.Valid()
    modifies customers, products, cart
    ensures customers.Valid() && cart.Valid()
    ensures ok <==> customerId in old(customers.rows) && CanPayWith(old(customers.rows)[customerId], m, sum)
    ensures ok ==> customers.rows == old(customers.rows)[customerId := Debit(old(customers.rows)[customerId], m, sum)]
    ensures ok ==> products.fuel == StockAfter(old(products.fuel), LinesOf(old(cart.lines), customerId))
    ensures ok ==> cart.lines == Reject(old(cart.lines), CustomerIs(customerId))
    ensures !ok ==> customers.rows == old(customers.rows) && products.fuel == old(products.fuel) && cart.lines == old(cart.lines)
    ensures products.services == old(products.services) && cart.nextId == old(cart.nextId)
  {
    ok := DebitIfCovered(customers, customerId, m, sum);
    if ok {
      DeductStockAndClearCart(products, cart, customerId);
    }
  }

  // ---------------------------------------------------------------------------
  // Combined payment

  /** What a combined payment takes from each balance, and what it could not collect. */
  datatype Draw = Draw(cash: real, card: real, bonus: real, remaining: real)

  /** The draws of `payExactAmountCombined`: as much cash as needed, then the card
      if anything is still owed, then bonus points if anything is still owed. */
  function CombinedDraw(c: Customer, sum: real): (d: Draw)
    ensures d.cash + d.card + d.bonus + d.remaining == sum
    ensures d.card != 0.0 ==> d.cash == c.wallet
    ensures d.bonus != 0.0 ==> d.cash == c.wallet && d.card == c.card
    ensures NonNegativeBalances(c) && sum >= 0.0 ==>
      0.0 <= d.cash <= c.wallet && 0.0 <= d.card <= c.card && 0.0 <= d.bonus <= c.bonus &&
      d.remaining == Max0(sum - Funds(c))
  {
    var cash := Min(c.wallet, sum);
    var afterCash := sum - cash;
    var card := if afterCash > 0.0 then Min(c.card, afterCash) else 0.0;
    var afterCard := afterCash - card;
    var bonus := if afterCard > 0.0 then Min(c.bonus, afterCard) else 0.0;
    Draw(cash, card, bonus, afterCard - bonus)
  }

  /** The customer with the draws taken off. */
  function AfterDraw(c: Customer, d: Draw): Customer
  {
    c.(wallet := c.wallet - d.cash, card := c.card - d.card, bonus := c.bonus - d.bonus)
  }

  /** The combined payment succeeds when what it could not collect is within the tolerance. */
  predicate CombinedSucceeds(c: Customer, sum: real)
  {
    CombinedDraw(c, sum).remaining <= CombinedTolerance
  }

  /** With non-negative balances, the combined payment succeeds exactly when the
      three balances together cover the sum up to the tolerance. */
  lemma CombinedSucceedsIffFundsCover(c: Customer, sum: real)
    requires NonNegativeBalances(c) && sum >= 0.0
    ensures CombinedSucceeds(c, sum) <==> Funds(c) >= sum - CombinedTolerance
  {
  }

  /** The funds fall by exactly what was collected, and no balance goes negative. */
  lemma CombinedDrawTakesWhatItCollects(c: Customer, sum: real)
    requires NonNegativeBalances(c) && sum >= 0.0
    ensures Funds(AfterDraw(c, CombinedDraw(c, sum))) == Funds(c) - (sum - CombinedDraw(c, sum).remaining)
    ensures NonNegativeBalances(AfterDraw(c, CombinedDraw(c, sum)))
  {
  }

  /** When the funds cover the sum, exactly the sum is collected. */
  lemma CombinedDrawCollectsSumWhenCovered(c: Customer, sum: real)
    requires NonNegativeBalances(c) && sum >= 0.0 && Funds(c) >= sum
    ensures CombinedDraw(c, sum).remaining == 0.0
    ensures Funds(AfterDraw(c, CombinedDraw(c, sum))) == Funds(c) - sum
  {
    CombinedDrawTakesWhatItCollects(c, sum);
  }

  /** The failure path writes the drained balances back: a failed combined
      payment leaves the customer with nothing in any balance. */
  lemma CombinedFailureDrainsAllBalances(c: Customer, sum: real)
    requires !CombinedSucceeds(c, sum)
    ensures var after := AfterDraw(c, CombinedDraw(c, sum));
      after.wallet == 0.0 && after.card == 0.0 && after.bonus == 0.0
  {
    var d := CombinedDraw(c, sum);
    assert d.remaining > 0.0;
    assert d.cash == c.wallet && d.card == c.card && d.bonus == c.bonus;
  }

  /** `payExactAmountCombined`: draws cash, card and bonus in that order and
      writes the customer back whether or not the sum was collected; only a
      successful payment deducts stock and clears the cart. */
  method PayExactAmountCombined(customers: CustomerTable, products: ProductTable, cart: CartTable,
                                customerId: int, sum: real) returns (ok: bool)
    requires customers.Valid() && cart.Valid()
    modifies customers, products, cart
    ensures customers.Valid() && cart.Valid()
    ensures ok <==> customerId in old(customers.rows) && CombinedSucceeds(old(customers.rows)[customerId], sum)
    ensures customerId in old(customers.rows) ==>
      customers.rows == old(customers.rows)[customerId :=
        AfterDraw(old(customers.rows)[customerId], CombinedDraw(old(customers.rows)[customerId], sum))]
    ensures customerId !in old(customers.rows) ==> customers.rows == old(customers.rows)
    ensures ok ==> products.fuel == StockAfter(old(products.fuel), LinesOf(old(cart.lines), customerId))
    ensures ok ==> cart.lines == Reject(old(cart.lines), CustomerIs(customerId))
    ensures !ok ==> products.fuel == old(products.fuel) && cart.lines == old(cart.lines)
    ensures products.services == old(products.services) && cart.nextId == old(cart.nextId)
  {
    var found := customers.GetById(customerId);
    if found.None? {
      return false;
    }
    var cust := found.value;
    ghost var c0 := cust;
    var remaining := sum;

    var payCash := Min(cust.wallet, remaining);
    cust := cust.(wallet := cust.wallet - payCash);
    remaining := remaining - payCash;

    if remaining > 0.0 {
      var payCard := Min(cust.card, remaining);
      cust := cust.(card := cust.card - payCard);
      remaining := remaining - payCard;
    }

    if remaining > 0.0 {
      var payBonus := Min(cust.bonus, remaining);
      cust := cust.(bonus := cust.bonus - payBonus);
      remaining := remaining - payBonus;
    }

    assert cust == AfterDraw(c0, CombinedDraw(c0, sum)) && remaining == CombinedDraw(c0, sum).remaining;
    WithBalancesOfStoresRow(customers.rows, cust);
    if remaining > CombinedTolerance {
      UpdateCustomer(customers, cust);
      return false;
    }

    UpdateCustomer(customers, cust);
    DeductStockAndClearCart(products, cart, customerId);
    ok := true;
  }
}
