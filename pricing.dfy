/** The pricing strategies (FuelPricingStrategy, ServicePricingStrategy) and
    the factory that picks one by item-type string, compared with the way
    CartService prices a line. The cart total does not use the strategies;
    `StrategyTotal` is the total a caller would get by pricing every line
    through the factory, so that the two pricing paths can be compared. */
module Pricing {
  import opened Model
  import opened CartService

  /** The exceptions the strategies and the factory throw (IllegalArgumentException). */
  datatype PricingError =
    | FuelNotFound(fuelId: int)
    | ServiceNotFound(serviceId: int)
    | UnknownItemType(itemType: string)

  datatype Strategy = FuelPricing | ServicePricing

  /** Upper-casing of ASCII letters; every other character is left alone. */
  function UpperAscii(c: char): char
  {
    if 'a' <= c <= 'z' then c - 'a' + 'A' else c
  }

  /** `equalsIgnoreCase`, restricted to ASCII case folding. */
  predicate EqualsIgnoreCase(a: string, b: string)
    decreases |a|
  {
    if a == [] then b == []
    else b != [] && UpperAscii(a[0]) == UpperAscii(b[0]) && EqualsIgnoreCase(a[1..], b[1..])
  }

  /** No spelling matches both "PRODUCT" and "SERVICE", so the factory's order of tests is immaterial. */
  lemma TypeNamesDiffer(s: string)
    ensures !(EqualsIgnoreCase(s, ProductType) && EqualsIgnoreCase(s, ServiceType))
  {
    if EqualsIgnoreCase(s, ProductType) {
      assert UpperAscii(s[0]) == UpperAscii(ProductType[0]) == 'P';
      assert UpperAscii(ServiceType[0]) == 'S';
    }
  }

  /** `getStrategy`: "PRODUCT" in any case selects fuel pricing, "SERVICE" in any
      case selects service pricing, anything else is rejected. */
  function GetStrategy(itemType: string): (r: Result<Strategy, PricingError>)
    ensures r == Ok(FuelPricing) <==> EqualsIgnoreCase(itemType, ProductType)
    ensures r == Ok(ServicePricing) <==> EqualsIgnoreCase(itemType, ServiceType)
    ensures r.Err? <==> !EqualsIgnoreCase(itemType, ProductType) && !EqualsIgnoreCase(itemType, ServiceType)
    ensures r.Err? ==> r.error == UnknownItemType(itemType)
  {
    TypeNamesDiffer(itemType);
    if EqualsIgnoreCase(itemType, ProductType) then Ok(FuelPricing)
    else if EqualsIgnoreCase(itemType, ServiceType) then Ok(ServicePricing)
    else Err(UnknownItemType(itemType))
  }

  /** FuelPricingStrategy.calculatePrice: price per litre times litres. */
  function FuelCalculatePrice(fuel: map<int, FuelProduct>, item: CartItem): (r: Result<real, PricingError>)
    ensures r.Ok? <==> item.itemId in fuel
    ensures r.Err? ==> r.error == FuelNotFound(item.itemId)
    ensures r.Ok? && item.quantity == 0.0 ==> r.value == 0.0
    ensures r.Ok? && item.quantity == 1.0 ==> r.value == fuel[item.itemId].price
  {
    if item.itemId !in fuel then Err(FuelNotFound(item.itemId))
    else Ok(fuel[item.itemId].price * item.quantity)
  }

  /** ServicePricingStrategy.calculatePrice: the flat price, whatever the quantity. */
  function ServiceCalculatePrice(services: map<int, ServiceProduct>, item: CartItem): (r: Result<real, PricingError>)
    ensures r.Ok? <==> item.itemId in services
    ensures r.Err? ==> r.error == ServiceNotFound(item.itemId)
    ensures r.Ok? ==> r.value == services[item.itemId].price
  {
    if item.itemId !in services then Err(ServiceNotFound(item.itemId))
    else Ok(services[item.itemId].price)
  }

  /** The service strategy ignores the line's quantity. */
  lemma ServicePriceIgnoresQuantity(services: map<int, ServiceProduct>, item: CartItem, q: real)
    ensures ServiceCalculatePrice(services, item.(quantity := q)) == ServiceCalculatePrice(services, item)
  {
  }

  function CalculatePrice(s: Strategy, fuel: map<int, FuelProduct>, services: map<int, ServiceProduct>,
                          item: CartItem): Result<real, PricingError>
  {
    match s
    case FuelPricing => FuelCalculatePrice(fuel, item)
    case ServicePricing => ServiceCalculatePrice(services, item)
  }

  /** A line priced through the factory's strategy for its type. */
  function StrategyPrice(fuel: map<int, FuelProduct>, services: map<int, ServiceProduct>,
                         item: CartItem): Result<real, PricingError>
  {
    match GetStrategy(item.itemType)
    case Err(e) => Err(e)
    case Ok(s) => CalculatePrice(s, fuel, services, item)
  }

  /** The total of the lines priced through the strategies; the first line that
      throws, in table order, makes the whole total fail. */
  function StrategyTotal(items: seq<CartItem>, fuel: map<int, FuelProduct>,
                         services: map<int, ServiceProduct>): (r: Result<real, PricingError>)
    decreases |items|
  {
    if items == [] then Ok(0.0)
    else AddPrice(StrategyTotal(items[..|items| - 1], fuel, services), StrategyPrice(fuel, services, items[|items| - 1]))
  }

  /** Adds a line's price to a running total; the earlier error wins. */
  function AddPrice(total: Result<real, PricingError>, price: Result<real, PricingError>): Result<real, PricingError>
  {
    match total
    case Err(e) => Err(e)
    case Ok(t) =>
      match price
      case Err(e) => Err(e)
      case Ok(p) => Ok(t + p)
  }

  /** The factory on the two strings the code writes. */
  lemma FactoryOnCodeStrings()
    ensures GetStrategy(ProductType) == Ok(FuelPricing)
    ensures GetStrategy(ServiceType) == Ok(ServicePricing)
  {
    assert EqualsIgnoreCase(ProductType, ProductType);
    assert EqualsIgnoreCase(ServiceType, ServiceType);
  }

  /** The factory ignores letter case: "product" selects fuel pricing. */
  lemma FactoryIgnoresCaseOfProduct()
    ensures GetStrategy("product") == Ok(FuelPricing)
  {
    assert EqualsIgnoreCase("product", ProductType);
  }

  /** The factory ignores letter case: "Service" selects service pricing. */
  lemma FactoryIgnoresCaseOfService()
    ensures GetStrategy("Service") == Ok(ServicePricing)
  {
    assert EqualsIgnoreCase("Service", ServiceType);
  }

  /** Any other type name, such as "FUEL", is rejected. */
  lemma FactoryRejectsOtherNames()
    ensures GetStrategy("FUEL") == Err(UnknownItemType("FUEL"))
  {
  }

  /** Where the fuel product exists, the fuel strategy and the cart total price a
      "PRODUCT" line alike. */
  lemma FuelStrategyAgreesWithCart(fuel: map<int, FuelProduct>, services: map<int, ServiceProduct>, item: CartItem)
    requires item.itemType == ProductType && item.itemId in fuel
    ensures StrategyPrice(fuel, services, item) == Ok(LineAmount(item, fuel, services))
  {
    FactoryOnCodeStrings();
    assert GetStrategy(item.itemType) == Ok(FuelPricing);
    assert StrategyPrice(fuel, services, item) == FuelCalculatePrice(fuel, item);
  }

  /** For a service with a non-zero price, the service strategy and the cart total
      price a "SERVICE" line alike exactly when its quantity is 1.0. */
  lemma ServiceStrategyAgreesWithCartIffUnitQuantity(fuel: map<int, FuelProduct>, services: map<int, ServiceProduct>,
                                                     item: CartItem)
    requires item.itemType == ServiceType && item.itemId in services
    requires services[item.itemId].price != 0.0
    ensures StrategyPrice(fuel, services, item) == Ok(LineAmount(item, fuel, services)) <==> item.quantity == 1.0
  {
    var p, q := services[item.itemId].price, item.quantity;
    ServiceLinePrices(fuel, services, item);
    var a := LineAmount(item, fuel, services);
    assert a == p * q;
    if q != 1.0 {
      assert p * (q - 1.0) != 0.0;
      assert a != p;
    }
  }

  /** How each path prices a "SERVICE" line whose service exists. */
  lemma ServiceLinePrices(fuel: map<int, FuelProduct>, services: map<int, ServiceProduct>, item: CartItem)
    requires item.itemType == ServiceType && item.itemId in services
    ensures StrategyPrice(fuel, services, item) == Ok(services[item.itemId].price)
    ensures LineAmount(item, fuel, services) == services[item.itemId].price * item.quantity
  {
    assert ServiceType[0] != ProductType[0];
    FactoryOnCodeStrings();
    assert GetStrategy(item.itemType) == Ok(ServicePricing);
    assert StrategyPrice(fuel, services, item) == ServiceCalculatePrice(services, item);
  }

  /** A line typed "product" in lower case: the factory prices it as fuel, while the
      cart total, which compares case-sensitively, prices it from the services table. */
  lemma LowerCaseProductLineDisagrees()
    ensures
      var fuel := map[1 := FuelProduct(1, "fuel", 56.0, 10000.0)];
      var services := map[1 := ServiceProduct(1, "wash", 300.0)];
      var item := CartItem(1, 1, "product", 1, 5.0);
      StrategyPrice(fuel, services, item) == Ok(280.0) && LineAmount(item, fuel, services) == 1500.0
  {
    FactoryIgnoresCaseOfProduct();
  }

  /** On a cart the checkout screen can build (every line typed exactly "PRODUCT" or
      "SERVICE", every catalog entry present, every service line of quantity 1.0)
      the two pricing paths give the same total. */
  lemma {:induction false} StrategyTotalAgreesWithCartTotal(items: seq<CartItem>, fuel: map<int, FuelProduct>,
                                                            services: map<int, ServiceProduct>)
    requires forall i :: 0 <= i < |items| ==> ScreenLine(items[i], fuel, services)
    ensures StrategyTotal(items, fuel, services) == Ok(CartTotal(items, fuel, services))
    decreases |items|
  {
    if items != [] {
      var init, last := items[..|items| - 1], items[|items| - 1];
      StrategyTotalAgreesWithCartTotal(init, fuel, services);
      ScreenLineAgrees(fuel, services, last);
      StrategyTotalStep(items, fuel, services, CartTotal(init, fuel, services), LineAmount(last, fuel, services));
    }
  }

  /** The last line's price is added to the total of the lines before it. */
  lemma StrategyTotalStep(items: seq<CartItem>, fuel: map<int, FuelProduct>, services: map<int, ServiceProduct>,
                          t: real, p: real)
    requires items != []
    requires StrategyTotal(items[..|items| - 1], fuel, services) == Ok(t)
    requires StrategyPrice(fuel, services, items[|items| - 1]) == Ok(p)
    ensures StrategyTotal(items, fuel, services) == Ok(t + p)
  {
    assert StrategyTotal(items, fuel, services) ==
           AddPrice(StrategyTotal(items[..|items| - 1], fuel, services), StrategyPrice(fuel, services, items[|items| - 1]));
  }

  /** A line the checkout screen can build: a fuel line typed exactly "PRODUCT", or
      a service line typed exactly "SERVICE" with quantity 1.0, its entry present. */
  predicate ScreenLine(x: CartItem, fuel: map<int, FuelProduct>, services: map<int, ServiceProduct>)
  {
    (x.itemType == ProductType && x.itemId in fuel) ||
    (x.itemType == ServiceType && x.itemId in services && x.quantity == 1.0)
  }

  /** One line of such a cart is priced alike by both paths. */
  lemma ScreenLineAgrees(fuel: map<int, FuelProduct>, services: map<int, ServiceProduct>, x: CartItem)
    requires ScreenLine(x, fuel, services)
    ensures StrategyPrice(fuel, services, x) == Ok(LineAmount(x, fuel, services))
  {
    if x.itemType == ProductType {
      FuelStrategyAgreesWithCart(fuel, services, x);
    } else {
      ServiceLinePrices(fuel, services, x);
    }
  }
}
