/** The entities of the fuel-station checkout: customers with three balances,
    fuel and service catalog entries, cart lines, and the payment methods.
    Money and quantities are `real`; the two tolerances of the code are named. */
module Model {

  datatype Option<+T> = None | Some(value: T)

  datatype Result<+T, +E> = Ok(value: T) | Err(error: E)

  /** A combined payment still owing more than this has failed. */
  const CombinedTolerance: real := 0.0001

  /** The checkout screen treats a remaining amount below this as paid off. */
  const SettledThreshold: real := 0.000001

  /** The item-type strings written into cart lines by the checkout screen. */
  const ProductType: string := "PRODUCT"
  const ServiceType: string := "SERVICE"

  /** Наличные, Карта, Бонусы. */
  datatype PaymentMethod = Cash | Card | Bonus

  datatype Customer = Customer(id: int, name: string, wallet: real, card: real, bonus: real)

  /** A line of the cart table; `itemType` is the raw string the table stores. */
  datatype CartItem = CartItem(id: int, customerId: int, itemType: string, itemId: int, quantity: real)

  /** A row of the fuel table: price per litre and litres in stock. */
  datatype FuelProduct = FuelProduct(id: int, name: string, price: real, stockQty: real)

  /** A row of the services table: a price and nothing else. */
  datatype ServiceProduct = ServiceProduct(id: int, name: string, price: real)

  function Balance(c: Customer, m: PaymentMethod): real
  {
    match m
    case Cash => c.wallet
    case Card => c.card
    case Bonus => c.bonus
  }

  predicate NonNegativeBalances(c: Customer)
  {
    c.wallet >= 0.0 && c.card >= 0.0 && c.bonus >= 0.0
  }

  /** The customer after `amount` is taken from the balance of method `m`. */
  function Debit(c: Customer, m: PaymentMethod, amount: real): (r: Customer)
    ensures Balance(r, m) == Balance(c, m) - amount
    ensures forall m' :: m' != m ==> Balance(r, m') == Balance(c, m')
    ensures r.id == c.id && r.name == c.name
  {
    match m
    case Cash => c.(wallet := c.wallet - amount)
    case Card => c.(card := c.card - amount)
    case Bonus => c.(bonus := c.bonus - amount)
  }

  /** `Math.min` on the values this model uses (no NaN). */
  function Min(a: real, b: real): (r: real)
    ensures r <= a && r <= b && (r == a || r == b)
  {
    if a <= b then a else b
  }

  /** The presenter's `remaining < 0 ? 0 : remaining`. */
  function Max0(x: real): (r: real)
    ensures r >= 0.0 && r >= x && (r == 0.0 || r == x)
  {
    if x < 0.0 then 0.0 else x
  }

  predicate NonNegativePrices(fuel: map<int, FuelProduct>, services: map<int, ServiceProduct>)
  {
    (forall k :: k in fuel ==> fuel[k].price >= 0.0) &&
    (forall k :: k in services ==> services[k].price >= 0.0)
  }

  predicate NonNegativeQuantities(lines: seq<CartItem>)
  {
    forall i :: 0 <= i < |lines| ==> lines[i].quantity >= 0.0
  }

  /** Two fuel tables that differ at most in stock: same products, names and prices. */
  predicate SamePrices(fuel: map<int, FuelProduct>, fuel': map<int, FuelProduct>)
  {
    fuel.Keys == fuel'.Keys &&
    forall k :: k in fuel ==> fuel'[k].price == fuel[k].price && fuel'[k].id == fuel[k].id && fuel'[k].name == fuel[k].name
  }
}
