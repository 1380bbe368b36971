# SmartFuel checkout, modelled in Dafny

SmartFuel is a JavaFX point-of-sale for a fuel station. Customers fill a cart with
litres of fuel ("PRODUCT" lines) and services such as a car wash ("SERVICE" lines).
They then pay from three balances: cash (wallet), card and bonus points. Payment is
partial (one method), full with one method, or full combined (cash, then card, then
bonus). A full payment takes the fuel out of stock and empties the cart.

This project models the checkout core of that program and proves what it does:

- **Tables.** The database has five SQLite tables: products, services, customers,
  cart_items and payments. The model covers the first four with three Dafny classes:
  `CartItemDao.CartTable` (an ordered sequence of lines with an auto-increment id),
  `CustomerDao.CustomerTable`, and `ProductDao.ProductTable`, which holds both the
  products and the services table as maps keyed by id. None of the checkout code
  touches the payments table. Each SQL statement that changes a table becomes a
  method whose `ensures` gives the new table in terms of the old one. The cart's
  SELECT and DELETE statements go through the filters `Select` / `Reject`; the
  lookups by id are functions over the maps.
- **Services.** `ProductService` (a stock decrease floored at 0), `CustomerService`
  (the balance checks), `CartService` (cart editing and the cart total) and
  `PaymentService` (partial, exact single-method and exact combined payments) are
  modules. Their methods take the tables they change.
- **Pricing.** The two pricing strategies and the factory that picks one by a
  case-insensitive item type are in `Pricing`. They are compared with the cart total,
  which the program computes without them.
- **Presenter.** `Presenter.SmartFuelPresenter` keeps `paidMap`, the amount each
  customer has already paid in parts. Its invariant `PaidWithinTotals` says every
  recorded amount lies between 0 and that customer's cart total. Every presenter and
  screen operation preserves it, with two exceptions: the presenter's `AddToCart` with a
  negative quantity (which the screen refuses), and `RemoveCartItemById` of another
  customer's line (see "Left out").
- **Screen.** `CheckoutScreen.MainApp` holds the guards of the screen: cart validation,
  the two "add" buttons, and the partial-payment dialog. That dialog clears the cart
  once the new remaining amount is below 0.000001.
- **Scenarios.** `Scenarios` replays the seeded database and the unit tests as methods
  whose `ensures` carry the tests' expected numbers.

Money and litres are Dafny `real`s, i.e. exact rationals. The tolerances of the code
are kept as constants: 0.0001 for the combined payment and 0.000001 for "settled".

Where the code's own comments and its behaviour disagree, the model follows the
behaviour. Some of its choices are surprising:

- **A failed combined payment does not roll back.** In `payExactAmountCombined`,
  the failure branch is commented "Откат" (rollback) at PaymentService.java:120-121.
  The next line nevertheless writes the drawn-down customer back. The model does the
  same, and `PaymentService.CombinedFailureDrainsAllBalances` proves that such a
  failure leaves cash, card and bonus all at zero.
- **Missing catalogue entries are skipped.** The cart total silently skips a line
  whose product or service is missing, while the strategies reject such a line.
- **The cart type test differs from the factory's.** The cart total tests the type
  with an exact, case-sensitive comparison with "PRODUCT"; the factory ignores case.
- **Settling by partial payments takes no stock.** A cart settled through partial
  payments is cleared without taking its fuel out of stock.
  `CheckoutScreen.MainApp.OnPartialCheckout` states that the fuel table never changes.

## Model

| member | source | states |
|---|---|---|
| Model.Debit | src/main/java/com/example/fuel/service/PaymentService.java:33-55 | debiting a method lowers exactly that balance by the amount and leaves the other two balances, the id and the name alone |
| CartItemDao.SelectMembers | src/main/java/com/example/fuel/DAO/CartItemDAOImpl.java:16-38 | a line is in a SELECT ... WHERE result exactly when it is in the table and matches the condition |
| CartItemDao.RejectMembers | src/main/java/com/example/fuel/DAO/CartItemDAOImpl.java:56-93 | a line survives a DELETE ... WHERE exactly when it was in the table and does not match |
| CartItemDao.SelectRejectPartition | src/main/java/com/example/fuel/DAO/CartItemDAOImpl.java:56-93 | the deleted lines and the kept lines together are the old table, as a multiset |
| CartItemDao.SelectAppend | src/main/java/com/example/fuel/DAO/CartItemDAOImpl.java:16-54 | selecting from a table extended by inserts gives the old selection followed by the selection of the new lines |
| CartItemDao.RejectKeepsOtherCarts | src/main/java/com/example/fuel/DAO/CartItemDAOImpl.java:56-93 | a delete whose matching lines all belong to other customers leaves a customer's cart unchanged |
| CartItemDao.RejectCustomerEmptiesOnlyThatCart | src/main/java/com/example/fuel/DAO/CartItemDAOImpl.java:69-78 | deleting by customer id empties that customer's cart and leaves every other cart as it was |
| CartItemDao.FiltersKeepQuantitiesNonNegative | src/main/java/com/example/fuel/DAO/CartItemDAOImpl.java:16-93 | selecting or deleting lines never introduces a negative quantity |
| CartItemDao.AppendKeepsOtherCarts | src/main/java/com/example/fuel/DAO/CartItemDAOImpl.java:41-54 | inserting a line for one customer leaves other customers' carts unchanged |
| CartItemDao.RejectKeepsIdsIncreasing | src/main/java/com/example/fuel/DAO/CartItemDAOImpl.java:56-93 | deleting lines keeps the auto-increment ids in strictly increasing order |
| CartItemDao.DeleteByIdRemovesAtMostOne | src/main/java/com/example/fuel/DAO/CartItemDAOImpl.java:57-66 | with unique ids, deleting by id removes at most one line |
| CartItemDao.CartTable.constructor | src/main/java/com/example/fuel/db/DatabaseInitializer.java:43-50 | a new cart table is empty and its first id is 1 |
| CartItemDao.CartTable.GetByCustomerId | src/main/java/com/example/fuel/DAO/CartItemDAOImpl.java:16-38 | the loop returns, in table order, exactly the lines of that customer |
| CartItemDao.CartTable.Insert | src/main/java/com/example/fuel/DAO/CartItemDAOImpl.java:41-54 | the line is appended with the next id, which then advances; ids stay increasing |
| CartItemDao.CartTable.DeleteWhere | src/main/java/com/example/fuel/DAO/CartItemDAOImpl.java:56-93 | the table keeps exactly the non-matching lines, in order, and the id counter is untouched |
| CartItemDao.CartTable.Delete | src/main/java/com/example/fuel/DAO/CartItemDAOImpl.java:57-66 | the line with that id is removed, whoever owns it, and nothing else; at most one line goes |
| CartItemDao.CartTable.DeleteAllByCustomerId | src/main/java/com/example/fuel/DAO/CartItemDAOImpl.java:69-78 | all lines of that customer are removed and nothing else |
| CartItemDao.CartTable.DeleteByItem | src/main/java/com/example/fuel/DAO/CartItemDAOImpl.java:81-93 | the customer's lines with that exact type string and item id are removed and nothing else |
| CustomerDao.WithBalancesOf | src/main/java/com/example/fuel/DAO/CustomerDAOImpl.java:48-60 | an update writes the three balances of the row with the customer's id, keeps its name, and touches no other row; an unknown id changes nothing |
| CustomerDao.CustomerTable.GetById | src/main/java/com/example/fuel/DAO/CustomerDAOImpl.java:16-29 | returns the row with that id, or nothing (null) when there is none |
| CustomerDao.CustomerTable.Update | src/main/java/com/example/fuel/DAO/CustomerDAOImpl.java:48-60 | the table becomes the old table with that row's balances replaced |
| ProductDao.ProductTable.GetFuelById | src/main/java/com/example/fuel/DAO/ProductDAOImpl.java:54-73 | definition: the fuel row with that id, or nothing when there is none |
| ProductDao.ProductTable.GetServiceById | src/main/java/com/example/fuel/DAO/ProductDAOImpl.java:124-143 | definition: the service row with that id, or nothing when there is none |
| ProductDao.ProductTable.UpdateFuelStock | src/main/java/com/example/fuel/DAO/ProductDAOImpl.java:79-90 | only the stock of that fuel row changes; an unknown id changes nothing |
| ProductDao.ProductTable.UpdateServiceStock | src/main/java/com/example/fuel/DAO/ProductDAOImpl.java:150-161 | changes nothing: services carry no stock |
| ProductService.DecreasedStock | src/main/java/com/example/fuel/service/ProductService.java:29-36 | the stock drops by the amount, or to 0 if the amount exceeds it; it never goes negative; other rows and all prices stay |
| ProductService.DecreaseFuelStock | src/main/java/com/example/fuel/service/ProductService.java:29-36 | the fuel table becomes `DecreasedStock` of the old one; services untouched |
| ProductService.DecreaseServiceStock | src/main/java/com/example/fuel/service/ProductService.java:49-51 | leaves both tables unchanged |
| ProductService.DecreaseTwiceIsDecreaseBySum | src/main/java/com/example/fuel/service/ProductService.java:29-36 | for non-negative amounts, two floored decreases equal one decrease by their sum |
| CustomerService.CanPayWithCash | src/main/java/com/example/fuel/service/CustomerService.java:26-28 | definition: the wallet balance is at least the amount |
| CustomerService.CanPayWithCard | src/main/java/com/example/fuel/service/CustomerService.java:31-33 | definition: the card balance is at least the amount |
| CustomerService.CanPayWithBonus | src/main/java/com/example/fuel/service/CustomerService.java:36-38 | definition: the bonus points are at least the amount |
| CustomerService.CanPayWithMeansBalanceCovers | src/main/java/com/example/fuel/service/CustomerService.java:26-38 | each check holds exactly when the chosen balance is at least the amount; a balance always covers itself |
| CustomerService.CheckedDebitKeepsBalancesNonNegative | src/main/java/com/example/fuel/service/CustomerService.java:26-38 | a debit allowed by the check keeps all balances non-negative |
| CustomerService.UpdateCustomer | src/main/java/com/example/fuel/service/CustomerService.java:21-23 | writes the customer's balances through the table update |
| CartService.LineAmount | src/main/java/com/example/fuel/service/CartService.java:48-58 | definition: a line typed exactly "PRODUCT" costs fuel price × quantity, any other line service price × quantity, and a line whose catalogue entry is missing costs 0 |
| CartService.CartTotal | src/main/java/com/example/fuel/service/CartService.java:44-61 | definition: the sum of the line amounts in table order, 0 for an empty cart |
| CartService.NonNegativeLinesTotal | src/main/java/com/example/fuel/service/CartService.java:44-61 | a cart whose every line amount is non-negative costs at least 0 |
| CartService.CartTotalAppend | src/main/java/com/example/fuel/service/CartService.java:44-61 | the total of two carts laid end to end is the sum of their totals |
| CartService.CartTotalStep | src/main/java/com/example/fuel/service/CartService.java:44-61 | taking one more line of the cart adds exactly that line's amount to the total |
| CartService.CartTotalNonNegative | src/main/java/com/example/fuel/service/CartService.java:44-61 | with non-negative prices and quantities the total is non-negative |
| CartService.MissingEntryAddsNothing | src/main/java/com/example/fuel/service/CartService.java:48-58 | a line whose product or service is missing contributes nothing to the total |
| CartService.CartTotalDependsOnPricesOnly | src/main/java/com/example/fuel/service/CartService.java:44-61 | changing stock but not prices leaves every total unchanged |
| CartService.GetCartItems | src/main/java/com/example/fuel/service/CartService.java:18-20 | returns the customer's lines in table order |
| CartService.AddToCart | src/main/java/com/example/fuel/service/CartService.java:23-25 | appends the line with the next id; the customer's cart grows by exactly that line |
| CartService.RemoveCartItem | src/main/java/com/example/fuel/service/CartService.java:28-30 | removes the line with that id and nothing else |
| CartService.RemoveFromCart | src/main/java/com/example/fuel/service/CartService.java:33-35 | removes the customer's lines of that type and item id and nothing else |
| CartService.ClearCart | src/main/java/com/example/fuel/service/CartService.java:38-40 | the customer's cart becomes empty; every other cart is unchanged |
| CartService.CalculateCartTotal | src/main/java/com/example/fuel/service/CartService.java:44-61 | the loop's sum equals `CartTotal` of the customer's lines at current prices |
| Pricing.EqualsIgnoreCase | src/main/java/com/example/fuel/strategy/PricingStrategyFactory.java:23-25 | definition: two strings of equal length whose characters agree after ASCII upper-casing |
| Pricing.GetStrategy | src/main/java/com/example/fuel/strategy/PricingStrategyFactory.java:22-30 | fuel pricing exactly for "PRODUCT" in any letter case, service pricing exactly for "SERVICE" in any case, an unknown-type error otherwise |
| Pricing.TypeNamesDiffer | src/main/java/com/example/fuel/strategy/PricingStrategyFactory.java:23-27 | no string matches both "PRODUCT" and "SERVICE" ignoring case, so the order of the two tests never matters |
| Pricing.FuelCalculatePrice | src/main/java/com/example/fuel/strategy/FuelPricingStrategy.java:20-26 | fails exactly when the fuel is missing; 0 litres cost 0 and 1 litre costs the price |
| Pricing.ServiceCalculatePrice | src/main/java/com/example/fuel/strategy/ServicePricingStrategy.java:20-26 | definition: fails exactly when the service is missing, and otherwise returns the service's flat price |
| Pricing.ServicePriceIgnoresQuantity | src/main/java/com/example/fuel/strategy/ServicePricingStrategy.java:20-26 | the service price does not depend on the line's quantity |
| Pricing.FactoryOnCodeStrings | src/main/java/com/example/fuel/strategy/PricingStrategyFactory.java:22-30 | the two type strings the program writes select fuel and service pricing |
| Pricing.FactoryIgnoresCaseOfProduct | src/main/java/com/example/fuel/strategy/PricingStrategyFactory.java:22-30 | "product" selects fuel pricing: the type test ignores case |
| Pricing.FactoryIgnoresCaseOfService | src/main/java/com/example/fuel/strategy/PricingStrategyFactory.java:22-30 | "Service" selects service pricing: the type test ignores case |
| Pricing.FactoryRejectsOtherNames | src/main/java/com/example/fuel/strategy/PricingStrategyFactory.java:22-30 | "FUEL" is neither type and is rejected as an unknown item type |
| Pricing.FuelStrategyAgreesWithCart | src/main/java/com/example/fuel/strategy/FuelPricingStrategy.java:20-26 | for an existing fuel, the strategy and the cart total price a "PRODUCT" line alike |
| Pricing.ServiceStrategyAgreesWithCartIffUnitQuantity | src/main/java/com/example/fuel/service/CartService.java:53-57 | for a service of non-zero price the two pricings agree exactly when the quantity is 1 |
| Pricing.LowerCaseProductLineDisagrees | src/main/java/com/example/fuel/service/CartService.java:47-58 | a line typed "product" is fuel to the factory but a service to the cart total, so the two prices differ |
| Pricing.ServiceLinePrices | src/main/java/com/example/fuel/strategy/ServicePricingStrategy.java:20-26 | a "SERVICE" line with an existing service is priced at the flat price by the strategy and at price × quantity by the cart total |
| Pricing.ScreenLineAgrees | src/main/java/com/example/fuel/service/CartService.java:44-61 | a line the screen can build ("PRODUCT" with an existing fuel, or "SERVICE" with an existing service and quantity 1) is priced by its strategy exactly as the cart total prices it |
| Pricing.StrategyTotalStep | src/main/java/com/example/fuel/service/CartService.java:44-61 | when the prefix and the last line both price without error, the strategy total is their sum |
| Pricing.StrategyTotalAgreesWithCartTotal | src/main/java/com/example/fuel/service/CartService.java:44-61 | on carts the screen can build, pricing through the strategies gives exactly the cart total |
| PaymentService.DebitLowersFundsByAmount | src/main/java/com/example/fuel/service/PaymentService.java:29-58 | any debit lowers cash + card + bonus by exactly the amount |
| PaymentService.StockAfter | src/main/java/com/example/fuel/service/PaymentService.java:133-144 | deducting a cart's fuel changes no price |
| PaymentService.StockAfterSubtractsLitres | src/main/java/com/example/fuel/service/PaymentService.java:133-144 | each fuel's stock ends at its old stock minus all litres sold of it, floored once at 0 |
| PaymentService.StockAfterKeepsUnsoldFuel | src/main/java/com/example/fuel/service/PaymentService.java:133-144 | a fuel no line mentions keeps its row |
| PaymentService.StockAfterNeverNegative | src/main/java/com/example/fuel/service/PaymentService.java:133-144 | no stock is ever driven below 0 |
| PaymentService.DeductStockAndClearCart | src/main/java/com/example/fuel/service/PaymentService.java:133-146 | the loop leaves the fuel table as `StockAfter` of the customer's lines; services are untouched; that cart is emptied and the others are kept |
| PaymentService.DebitIfCovered | src/main/java/com/example/fuel/service/PaymentService.java:33-55 | succeeds exactly when the customer exists and the chosen balance covers the amount; then that debit is written, otherwise nothing |
| PaymentService.PayPartial | src/main/java/com/example/fuel/service/PaymentService.java:29-58 | succeeds exactly when the customer exists and the balance covers the amount; success writes the debit; failure changes nothing |
| PaymentService.PayExactAmountWithMethod | src/main/java/com/example/fuel/service/PaymentService.java:64-89 | as `PayPartial`, and on success the stock is deducted and the cart cleared; failure changes no table |
| PaymentService.CombinedDraw | src/main/java/com/example/fuel/service/PaymentService.java:98-117 | the three draws plus what is left equal the sum; card is drawn only once cash is exhausted, bonus only once both are; with non-negative balances each draw lies within its balance and what is left is max(0, sum − funds) |
| PaymentService.CombinedSucceedsIffFundsCover | src/main/java/com/example/fuel/service/PaymentService.java:119-124 | a combined payment succeeds exactly when the funds are at least the sum minus 0.0001 |
| PaymentService.CombinedDrawTakesWhatItCollects | src/main/java/com/example/fuel/service/PaymentService.java:98-117 | the funds drop by exactly what was collected, and no balance goes negative |
| PaymentService.CombinedDrawCollectsSumWhenCovered | src/main/java/com/example/fuel/service/PaymentService.java:98-117 | when the funds cover the sum, all of it is collected |
| PaymentService.CombinedFailureDrainsAllBalances | src/main/java/com/example/fuel/service/PaymentService.java:119-124 | a failed combined payment leaves cash, card and bonus all at 0 in the state it writes back |
| PaymentService.PayExactAmountCombined | src/main/java/com/example/fuel/service/PaymentService.java:94-130 | success iff `CombinedSucceeds`; the drawn-down customer is written on both outcomes; on success stock is deducted and the cart cleared, on failure neither |
| Presenter.RemainingOf | src/main/java/com/example/fuel/presenter/SmartFuelPresenter.java:88-93 | the remaining amount is total − paid, or 0 once paid reaches the total; never negative |
| Presenter.PartialPaymentLowersRemaining | src/main/java/com/example/fuel/presenter/SmartFuelPresenter.java:135-151 | an accepted partial amount keeps paid within the total and lowers the remaining amount by exactly that amount |
| Presenter.PaidPlusRemainingIsTotal | src/main/java/com/example/fuel/presenter/SmartFuelPresenter.java:88-93 | while paid is within the total, paid plus remaining is the total |
| Presenter.ResetKeepsPaidBounded | src/main/java/com/example/fuel/presenter/SmartFuelPresenter.java:44-65 | a cart change confined to one customer, followed by resetting that customer's paid amount, keeps every paid amount within its cart total |
| Presenter.SmartFuelPresenter.constructor | src/main/java/com/example/fuel/presenter/SmartFuelPresenter.java:21-29 | a new presenter has recorded no payments |
| Presenter.SmartFuelPresenter.GetPaid | src/main/java/com/example/fuel/presenter/SmartFuelPresenter.java:83-85 | definition: the recorded amount, or 0 for a customer with none |
| Presenter.SmartFuelPresenter.ResetPaid | src/main/java/com/example/fuel/presenter/SmartFuelPresenter.java:78-80 | records 0 for the customer and changes no other entry |
| Presenter.SmartFuelPresenter.GetCartItems | src/main/java/com/example/fuel/presenter/SmartFuelPresenter.java:68-70 | the customer's lines |
| Presenter.SmartFuelPresenter.GetCartTotal | src/main/java/com/example/fuel/presenter/SmartFuelPresenter.java:73-75 | the customer's cart total at current prices |
| Presenter.SmartFuelPresenter.GetRemaining | src/main/java/com/example/fuel/presenter/SmartFuelPresenter.java:88-93 | total − paid floored at 0 |
| Presenter.SmartFuelPresenter.TotalsNonNegative | src/main/java/com/example/fuel/presenter/SmartFuelPresenter.java:73-75 | with non-negative prices and quantities every cart total is non-negative |
| Presenter.SmartFuelPresenter.AddToCart | src/main/java/com/example/fuel/presenter/SmartFuelPresenter.java:44-47 | appends the line, resets the customer's paid amount, and keeps paid amounts within totals for a non-negative quantity |
| Presenter.SmartFuelPresenter.RemoveCartItemById | src/main/java/com/example/fuel/presenter/SmartFuelPresenter.java:50-53 | deletes the line with that id, resets the given customer's paid amount, and keeps paid within totals when the line was that customer's |
| Presenter.SmartFuelPresenter.RemoveFromCart | src/main/java/com/example/fuel/presenter/SmartFuelPresenter.java:56-59 | deletes the matching lines, resets paid, keeps paid within totals |
| Presenter.SmartFuelPresenter.ClearCart | src/main/java/com/example/fuel/presenter/SmartFuelPresenter.java:62-65 | empties the cart so its total is 0, resets paid, keeps paid within totals |
| Presenter.SmartFuelPresenter.AfterFullCheckout | src/main/java/com/example/fuel/presenter/SmartFuelPresenter.java:101-127 | after a full payment (cart cleared, stock changed, paid reset) every paid amount is still within its total |
| Presenter.SmartFuelPresenter.CheckoutFullWithMethod | src/main/java/com/example/fuel/presenter/SmartFuelPresenter.java:101-113 | succeeds exactly when something is owed, the customer exists and the balance covers the remaining amount; then exactly that is debited, stock deducted, cart cleared, paid reset; failure changes nothing |
| Presenter.SmartFuelPresenter.CheckoutFullCombined | src/main/java/com/example/fuel/presenter/SmartFuelPresenter.java:118-127 | succeeds exactly when something is owed and the combined draw of the remaining amount succeeds; a failure after the guard still writes the drained balances but keeps cart, stock and paid |
| Presenter.SmartFuelPresenter.CheckoutPartial | src/main/java/com/example/fuel/presenter/SmartFuelPresenter.java:135-151 | succeeds exactly when 0 < amount ≤ remaining and the balance covers it; then the debit is written, paid grows by the amount and the remaining amount drops by it; failure changes nothing |
| CheckoutScreen.FirstUnweighedFuel | src/main/java/com/example/fuel/view/MainApp.java:564-574 | reports nothing exactly when no fuel line has a quantity ≤ 0, otherwise the item id of the first such line |
| CheckoutScreen.CartProblem | src/main/java/com/example/fuel/view/MainApp.java:560-590 | definition: the verdict of `validateCart`: the first unweighed fuel line, else a missing customer, else a total above the summed balances, else no problem |
| CheckoutScreen.CartProblemIff | src/main/java/com/example/fuel/view/MainApp.java:560-590 | a cart passes validation exactly when every fuel line is weighed, the customer exists and the total is within cash + card + bonus; an unweighed line is reported first |
| CheckoutScreen.ValidCartCanBeSettledCombined | src/main/java/com/example/fuel/view/MainApp.java:576-589 | a cart that passes validation can always be settled by a combined payment of its remaining amount |
| CheckoutScreen.AppendNewKeepsNoDuplicates | src/main/java/com/example/fuel/view/MainApp.java:225-229 | adding an item that is not yet in the cart keeps every (type, item) at most once |
| CheckoutScreen.FuelQuantity | src/main/java/com/example/fuel/view/MainApp.java:241-257 | definition: a blank answer means 0 litres, a number is taken as is, text that does not parse is refused |
| CheckoutScreen.MainApp.ValidateCart | src/main/java/com/example/fuel/view/MainApp.java:560-590 | the loop and the balance check return exactly `CartProblem` of the screen customer's cart |
| CheckoutScreen.MainApp.OnAddFuel | src/main/java/com/example/fuel/view/MainApp.java:218-266 | adds a line exactly when a fuel is selected, not yet in the cart, and a quantity ≥ 0 (blank = 0) was given; otherwise changes nothing; keeps lines unique and paid within totals |
| CheckoutScreen.MainApp.OnAddService | src/main/java/com/example/fuel/view/MainApp.java:374-391 | adds a quantity-1 line exactly when a service is selected and not yet in the cart; keeps lines unique and paid within totals |
| CheckoutScreen.MainApp.OnPartialCheckout | src/main/java/com/example/fuel/view/MainApp.java:630-697 | pays only a valid cart, with something owed, and an amount in (0, remaining] that the balance covers; the cart is cleared and paid reset exactly when the new remaining amount is below 0.000001; the fuel stock never changes |
| CheckoutScreen.MainApp.PayPart | src/main/java/com/example/fuel/view/MainApp.java:677-691 | the payment is accepted exactly when 0 < amount ≤ remaining and the customer's balance covers it; a remaining below 0.000001 afterwards clears the cart and resets paid, a larger one is reported with the cart untouched; a decline changes nothing |
| CheckoutScreen.MainApp.SettleIfPaid | src/main/java/com/example/fuel/view/MainApp.java:683-691 | settles exactly when the remaining amount is below 0.000001, and then the cart is empty and paid reset; otherwise reports the remaining amount and changes nothing |
| Scenarios.Seeded | src/main/java/com/example/fuel/db/DatabaseInitializer.java:64-81 | the seeded catalogue, the one customer and an empty cart |
| Scenarios.SeededWithLine | src/test/java/com/example/fuel/test/PaymentServiceTest.java:68-86 | a freshly seeded database with one line added to customer 1's cart, whose total is that line's amount |
| Scenarios.TwoLineTotal | src/test/java/com/example/fuel/test/CartServiceTest.java:59-72 | a two-line cart costs the sum of its two line amounts |
| Scenarios.OneLineCleared | src/test/java/com/example/fuel/test/CartServiceTest.java:75-86 | clearing the owner's one-line cart leaves it empty |
| Scenarios.OneLineCart | src/test/java/com/example/fuel/test/CartServiceTest.java:36-56 | a one-line table is that customer's cart and costs that line's amount |
| Scenarios.OneLineStock | src/test/java/com/example/fuel/test/PaymentServiceTest.java:68-99 | paying a one-line fuel cart decreases that fuel's stock by its litres |
| Scenarios.SeedBalancesPay500FromCash | src/test/java/com/example/fuel/test/PaymentServiceTest.java:102-121 | with balances 1000/2000/150, a combined 500 succeeds and comes entirely out of cash |
| Scenarios.SeedBalancesFail56000Drained | src/test/java/com/example/fuel/test/PaymentServiceTest.java:124-135 | with balances 1000/2000/150, a combined 56000 fails and drains all three balances |
| Scenarios.AddThenRemoveScenario | src/test/java/com/example/fuel/test/CartServiceTest.java:36-56 | after adding 10 litres of fuel 1 the cart holds that one line; removing it by id empties the cart |
| Scenarios.CartTotalScenario | src/test/java/com/example/fuel/test/CartServiceTest.java:59-72 | 5 litres of АИ-95 and a car wash cost 580 |
| Scenarios.PartialCashScenario | src/test/java/com/example/fuel/test/PaymentServiceTest.java:41-54 | a partial 500 in cash leaves 500/2000/150 |
| Scenarios.InsufficientCashScenario | src/test/java/com/example/fuel/test/PaymentServiceTest.java:57-65 | a partial 1500 in cash fails and the wallet stays at 1000 |
| Scenarios.PartialPaymentsScenario | src/test/java/com/example/fuel/test/PaymentServiceTest.java:138-165 | with 2 litres of diesel and a car wash (total 400) in the cart, 150 in bonus points then 250 by card both succeed: bonus 0, card 1750, cash 1000, and the cart still holds 2 lines |
| Scenarios.ExactAmountWithMethodScenario | src/test/java/com/example/fuel/test/PaymentServiceTest.java:68-86 | paying 112 in cash for 2 litres of АИ-95 leaves wallet 888, stock 9998 and an empty cart |
| Scenarios.ExactAmountTooLargeScenario | src/test/java/com/example/fuel/test/PaymentServiceTest.java:88-98 | paying 50000 by card fails, the card stays at 2000, and the cart keeps its line |
| Scenarios.BonusExactlyEnoughScenario | src/test/java/com/example/fuel/test/BonusServiceTest.java:42-63 | paying 150 in bonus points succeeds, leaves 0 points and empties the cart |
| Scenarios.BonusNotEnoughScenario | src/test/java/com/example/fuel/test/BonusServiceTest.java:66-85 | paying 280 in bonus points fails; the 150 points and the cart line stay |
| Scenarios.PaySeededCombined500 | src/test/java/com/example/fuel/test/PaymentServiceTest.java:102-121 | from balances 1000/2000/150 a combined 500 succeeds, leaves 500/2000/150 and clears the customer's cart |
| Scenarios.CombinedSuccessScenario | src/test/java/com/example/fuel/test/PaymentServiceTest.java:102-121 | 10 litres of diesel (500) paid combined succeed from cash alone and empty the cart |
| Scenarios.CombinedFailureScenario | src/test/java/com/example/fuel/test/PaymentServiceTest.java:124-135 | 56000 paid combined fails and the cart keeps its line, but all three balances have been drained to 0 |

## Left out

- **Not modelled.** The JavaFX views, dialogs and alerts are not modelled; the
  screen's dialog answers are parameters. The table loading and refreshing is left out
  too, as are JDBC connections, SQL error handling (errors are printed and swallowed)
  and the schema creation.
- **Payment logic only.** The product factories (`FuelProductFactory`,
  `ServiceProductFactory`), `Payment` and `Main` build objects or start the program;
  they hold no checkout logic.
- **Arithmetic.** `double` arithmetic is modelled as exact `real` arithmetic: no
  rounding, NaN or infinity. The 0.0001 and 0.000001 tolerances are kept as written.
- **Parsing.** `Double.parseDouble` is replaced by the parsed value or a parse
  failure (`NumberInput`).
- **Case folding.** `equalsIgnoreCase` is modelled for ASCII letters only.
- **List reads.** `getAllFuel`, `getAllServices` and `getAll` are plain reads of a
  whole table. `validateCart` looks a fuel's name up only for its message,
  so the model reports the item id instead.
- **Full checkout.** `onFullCheckout` (MainApp.java:594-628) only chains
  `validateCart`, the remaining-amount guard, a method dialog and
  `checkoutFullWithMethod`, which are all modelled.
- **isItemInCart.** `SmartFuelPresenter.isItemInCart` is called by the screen but is
  not part of this model's source. `CheckoutScreen.MainApp.IsItemInCart` takes it to
  mean "the customer has a line with exactly that type string and item id".
- **Test signatures.** The tests construct `CartService` with a product service and
  call `calculateCartTotal(1)`. The source signatures differ; the scenarios use
  `calculateCartTotal(customerId, productService)`.
- Presenter.SmartFuelPresenter.RemoveCartItemById: preserving `PaidWithinTotals` is
  proved only when the deleted line belongs to the customer whose paid amount is reset
  (or no line has that id). The code deletes any customer's line by id, and the owner's
  recorded amount can then exceed their new total.
- **Payments table.** The schema creates a `payments` table
  (DatabaseInitializer.java:54-60), but none of the code modelled here reads it or
  writes to it, so it is not modelled.
- Presenter.SmartFuelPresenter.AddToCart: preserving `PaidWithinTotals` is proved only
  for a quantity of at least 0. The presenter accepts a negative quantity, and that
  could push a customer's total below their recorded amount. The screen refuses
  negative litres before calling it.
- **Concurrency.** Several connections touching the tables at once are not modelled;
  each operation is atomic.
