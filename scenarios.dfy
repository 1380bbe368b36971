/** The seed data of the station database and the checkout scenarios of the
    project's unit tests, replayed on the model from a freshly seeded database. */
module Scenarios {
  import opened Model
  import opened CartItemDao
  import opened CustomerDao
  import opened ProductDao
  import opened CartService
  import opened ProductService
  import opened PaymentService

  /** АИ-95, Дизель and Электро, with their prices per litre and stock. */
  function SeedFuel(): map<int, FuelProduct>
  {
    map[1 := FuelProduct(1, "АИ-95", 56.0, 10000.0),
        2 := FuelProduct(2, "Дизель", 50.0, 8000.0),
        3 := FuelProduct(3, "Электро", 8.0, 5000.0)]
  }

  /** Car wash, tyre inflation and coffee. */
  function SeedServices(): map<int, ServiceProduct>
  {
    map[1 := ServiceProduct(1, "Автомойка", 300.0),
        2 := ServiceProduct(2, "Подкачка шин", 150.0),
        3 := ServiceProduct(3, "Кофе", 70.0)]
  }

  /** Customer 1 with 1000 in cash, 2000 on the card and 150 bonus points. */
  function SeedCustomers(): map<int, Customer>
  {
    map[1 := Customer(1, "Иван Иванов", 1000.0, 2000.0, 150.0)]
  }

  /** The freshly seeded tables with an empty cart. */
  method Seeded() returns (customers: CustomerTable, products: ProductTable, cart: CartTable)
    ensures fresh(customers) && fresh(products) && fresh(cart)
    ensures customers.Valid() && customers.rows == SeedCustomers()
    ensures products.fuel == SeedFuel() && products.services == SeedServices()
    ensures cart.Valid() && cart.lines == [] && cart.nextId == 1
  {
    customers := new CustomerTable(SeedCustomers());
    products := new ProductTable(SeedFuel(), SeedServices());
    cart := new CartTable();
  }

  /** The seeded tables with one line in customer 1's cart, and the total the
      cart service computes for it. */
  method SeededWithLine(item: CartItem) returns (customers: CustomerTable, products: ProductTable, cart: CartTable,
                                                 total: real)
    requires item.customerId == 1
    ensures fresh(customers) && fresh(products) && fresh(cart)
    ensures customers.Valid() && customers.rows == SeedCustomers()
    ensures products.fuel == SeedFuel() && products.services == SeedServices()
    ensures cart.Valid() && cart.lines == [item.(id := 1)]
    ensures total == LineAmount(item, SeedFuel(), SeedServices())
  {
    customers, products, cart := Seeded();
    CartService.AddToCart(cart, item);
    OneLineCart(item.(id := 1), SeedFuel(), SeedServices());
    total := CalculateCartTotal(cart, products, 1);
  }

  /** A two-line cart: the total is the first line's amount plus the second's. */
  lemma TwoLineTotal(a: CartItem, b: CartItem, fuel: map<int, FuelProduct>, services: map<int, ServiceProduct>)
    ensures CartTotal([a, b], fuel, services) == LineAmount(a, fuel, services) + LineAmount(b, fuel, services)
  {
    assert [a, b][..1] == [a];
    assert [a][..0] == [];
    assert CartTotal([a], fuel, services) == CartTotal([], fuel, services) + LineAmount(a, fuel, services);
  }

  /** Clearing the owner's cart of one line leaves an empty table. */
  lemma OneLineCleared(x: CartItem)
    ensures Reject([x], CustomerIs(x.customerId)) == []
  {
    assert [x][..0] == [];
  }

  /** A cart of one line: its owner sees it and its total is its amount. */
  lemma OneLineCart(x: CartItem, fuel: map<int, FuelProduct>, services: map<int, ServiceProduct>)
    ensures LinesOf([x], x.customerId) == [x]
    ensures CartTotal([x], fuel, services) == LineAmount(x, fuel, services)
  {
    assert [x][..0] == [];
    assert Select([x], CustomerIs(x.customerId)) == Select([], CustomerIs(x.customerId)) + [x];
  }

  /** With the seeded balances, a combined payment of 500 is taken from cash alone. */
  lemma SeedBalancesPay500FromCash(c: Customer)
    requires c.wallet == 1000.0 && c.card == 2000.0 && c.bonus == 150.0
    ensures CombinedSucceeds(c, 500.0) && AfterDraw(c, CombinedDraw(c, 500.0)) == c.(wallet := 500.0)
  {
    assert CombinedDraw(c, 500.0) == Draw(500.0, 0.0, 0.0, 0.0);
  }

  /** With the seeded balances, 3150 in all, a combined payment of 56000 fails
      and drains every balance. */
  lemma SeedBalancesFail56000Drained(c: Customer)
    requires c.wallet == 1000.0 && c.card == 2000.0 && c.bonus == 150.0
    ensures !CombinedSucceeds(c, 56000.0)
    ensures AfterDraw(c, CombinedDraw(c, 56000.0)) == c.(wallet := 0.0, card := 0.0, bonus := 0.0)
  {
    assert CombinedDraw(c, 56000.0) == Draw(1000.0, 2000.0, 150.0, 52850.0);
  }

  /** A full payment of a one-line fuel cart deducts its litres. */
  lemma OneLineStock(x: CartItem, fuel: map<int, FuelProduct>)
    requires x.itemType == ProductType
    ensures StockAfter(fuel, [x]) == DecreasedStock(fuel, x.itemId, x.quantity)
  {
    assert [x][..0] == [];
  }

  /** Adding a line to customer 1's empty cart and deleting it by its id empties the cart again. */
  method AddThenRemoveScenario() returns (afterAdd: seq<CartItem>, afterRemove: seq<CartItem>)
    ensures |afterAdd| == 1
    ensures afterAdd[0].itemType == ProductType && afterAdd[0].itemId == 1 && afterAdd[0].quantity == 10.0
    ensures afterRemove == []
  {
    var customers, products, cart := Seeded();
    CartService.AddToCart(cart, CartItem(0, 1, ProductType, 1, 10.0));
    afterAdd := GetCartItems(cart, 1);
    RemoveCartItem(cart, afterAdd[0].id);
    afterRemove := GetCartItems(cart, 1);
  }

  /** Five litres of АИ-95 and one car wash cost 5 × 56 + 300 = 580. */
  method CartTotalScenario() returns (total: real)
    ensures total == 580.0
  {
    var customers, products, cart := Seeded();
    CartService.AddToCart(cart, CartItem(0, 1, ProductType, 1, 5.0));
    CartService.AddToCart(cart, CartItem(0, 1, ServiceType, 1, 1.0));
    total := CalculateCartTotal(cart, products, 1);
    TwoLineTotal(CartItem(1, 1, ProductType, 1, 5.0), CartItem(2, 1, ServiceType, 1, 1.0), SeedFuel(), SeedServices());
  }

  /** With 2 litres of diesel and a car wash (400) in the cart, two partial
      payments, 150 in bonus points and 250 by card, both succeed, leave cash
      alone and leave both lines in the cart. */
  method PartialPaymentsScenario() returns (total: real, okBonus: bool, okCard: bool, after: Customer,
                                            items: seq<CartItem>)
    ensures total == 400.0
    ensures okBonus && okCard
    ensures after == Customer(1, "Иван Иванов", 1000.0, 1750.0, 0.0)
    ensures |items| == 2
  {
    var customers, products, cart := Seeded();
    CartService.AddToCart(cart, CartItem(0, 1, ProductType, 2, 2.0));
    CartService.AddToCart(cart, CartItem(0, 1, ServiceType, 1, 1.0));
    total := CalculateCartTotal(cart, products, 1);
    TwoLineTotal(CartItem(1, 1, ProductType, 2, 2.0), CartItem(2, 1, ServiceType, 1, 1.0), SeedFuel(), SeedServices());
    okBonus := PayPartial(customers, 1, Bonus, 150.0);
    okCard := PayPartial(customers, 1, Card, 250.0);
    after := customers.rows[1];
    items := GetCartItems(cart, 1);
  }

  /** Paying 500 in cash leaves 500 in the wallet and the card and bonus points untouched. */
  method PartialCashScenario() returns (ok: bool, after: Customer)
    ensures ok && after.wallet == 500.0 && after.card == 2000.0 && after.bonus == 150.0
  {
    var customers, products, cart := Seeded();
    ok := PayPartial(customers, 1, Cash, 500.0);
    after := customers.rows[1];
  }

  /** Paying 1500 in cash against a wallet of 1000 fails and leaves the wallet at 1000. */
  method InsufficientCashScenario() returns (ok: bool, wallet: real)
    ensures !ok && wallet == 1000.0
  {
    var customers, products, cart := Seeded();
    ok := PayPartial(customers, 1, Cash, 1500.0);
    wallet := customers.rows[1].wallet;
  }

  /** Two litres of АИ-95 (112) paid in cash: the wallet drops to 888, the cart is
      emptied and 2 litres leave the stock. */
  method ExactAmountWithMethodScenario() returns (ok: bool, wallet: real, stock: real, emptied: bool)
    ensures ok && wallet == 888.0 && stock == 9998.0 && emptied
  {
    var customers, products, cart, sum := SeededWithLine(CartItem(0, 1, ProductType, 1, 2.0));
    OneLineCleared(CartItem(1, 1, ProductType, 1, 2.0));
    OneLineStock(CartItem(1, 1, ProductType, 1, 2.0), SeedFuel());
    assert sum == 112.0;
    ok := PayExactAmountWithMethod(customers, products, cart, 1, Cash, sum);
    wallet := customers.rows[1].wallet;
    stock := products.fuel[1].stockQty;
    var items := GetCartItems(cart, 1);
    emptied := items == [];
  }

  /** A thousand litres of diesel (50000) cannot be paid from a card holding 2000:
      the payment fails and the cart keeps its line. */
  method ExactAmountTooLargeScenario() returns (ok: bool, card: real, keptLine: bool)
    ensures !ok && card == 2000.0 && keptLine
  {
    var customers, products, cart, sum := SeededWithLine(CartItem(0, 1, ProductType, 2, 1000.0));
    OneLineCleared(CartItem(1, 1, ProductType, 2, 1000.0));
    assert sum == 50000.0;
    ok := PayExactAmountWithMethod(customers, products, cart, 1, Card, sum);
    card := customers.rows[1].card;
    var items := GetCartItems(cart, 1);
    keptLine := items != [];
  }

  /** A tyre inflation (150) paid with exactly 150 bonus points succeeds, leaves
      no points and empties the cart. */
  method BonusExactlyEnoughScenario() returns (ok: bool, bonusAfter: real, emptied: bool)
    ensures ok && bonusAfter == 0.0 && emptied
  {
    var customers, products, cart, sum := SeededWithLine(CartItem(0, 1, ServiceType, 2, 1.0));
    OneLineCleared(CartItem(1, 1, ServiceType, 2, 1.0));
    assert sum == 150.0;
    ok := PayExactAmountWithMethod(customers, products, cart, 1, Bonus, sum);
    bonusAfter := customers.rows[1].bonus;
    var items := GetCartItems(cart, 1);
    emptied := items == [];
  }

  /** Five litres of АИ-95 (280) cannot be paid with 150 bonus points; the points stay. */
  method BonusNotEnoughScenario() returns (ok: bool, bonusKept: real, keptLine: bool)
    ensures !ok && bonusKept == 150.0 && keptLine
  {
    var customers, products, cart, sum := SeededWithLine(CartItem(0, 1, ProductType, 1, 5.0));
    OneLineCleared(CartItem(1, 1, ProductType, 1, 5.0));
    assert sum == 280.0;
    ok := PayExactAmountWithMethod(customers, products, cart, 1, Bonus, sum);
    bonusKept := customers.rows[1].bonus;
    var items := GetCartItems(cart, 1);
    keptLine := items != [];
  }

  /** A combined payment of 500 from the seeded balances: it succeeds, takes the
      whole amount from the wallet and clears the customer's cart. */
  method PaySeededCombined500(customers: CustomerTable, products: ProductTable, cart: CartTable) returns (ok: bool)
    requires customers.Valid() && cart.Valid() && 1 in customers.rows
    requires customers.rows[1].wallet == 1000.0 && customers.rows[1].card == 2000.0 && customers.rows[1].bonus == 150.0
    modifies customers, products, cart
    ensures ok && cart.Valid() && 1 in customers.rows
    ensures customers.rows[1].wallet == 500.0 && customers.rows[1].card == 2000.0 && customers.rows[1].bonus == 150.0
    ensures cart.lines == Reject(old(cart.lines), CustomerIs(1))
  {
    SeedBalancesPay500FromCash(customers.rows[1]);
    ok := PayExactAmountCombined(customers, products, cart, 1, 500.0);
  }

  /** Ten litres of diesel (500) paid combined come entirely out of the wallet. */
  method CombinedSuccessScenario() returns (ok: bool, after: Customer, emptied: bool)
    ensures ok && emptied
    ensures after.wallet == 500.0 && after.card == 2000.0 && after.bonus == 150.0
  {
    var customers, products, cart, sum := SeededWithLine(CartItem(0, 1, ProductType, 2, 10.0));
    OneLineCleared(CartItem(1, 1, ProductType, 2, 10.0));
    assert sum == 500.0;
    ok := PaySeededCombined500(customers, products, cart);
    after := customers.rows[1];
    var items := GetCartItems(cart, 1);
    emptied := items == [];
  }

  /** A thousand litres of АИ-95 (56000) exceed the 3150 the customer holds: the
      combined payment fails and the cart keeps its line, but cash, card and bonus
      have all been drawn to zero and written back. */
  method CombinedFailureScenario() returns (ok: bool, after: Customer, keptLine: bool)
    ensures !ok && keptLine
    ensures after.wallet == 0.0 && after.card == 0.0 && after.bonus == 0.0
  {
    var customers, products, cart, sum := SeededWithLine(CartItem(0, 1, ProductType, 1, 1000.0));
    OneLineCleared(CartItem(1, 1, ProductType, 1, 1000.0));
    assert sum == 56000.0;
    SeedBalancesFail56000Drained(customers.rows[1]);
    ok := PayExactAmountCombined(customers, products, cart, 1, sum);
    after := customers.rows[1];
    var items := GetCartItems(cart, 1);
    keptLine := items != [];
  }
}
