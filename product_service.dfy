/** ProductService: catalog lookups and the stock decrement that never goes below zero. */
module ProductService {
  import opened Model
  import opened ProductDao

  /** The fuel table after `decreaseFuelStock(id, amount)`. */
  function DecreasedStock(fuel: map<int, FuelProduct>, id: int, amount: real): (r: map<int, FuelProduct>)
    ensures SamePrices(fuel, r)
    ensures forall k :: k in fuel && k != id ==> r[k] == fuel[k]
    ensures id in fuel ==> r[id].stockQty >= 0.0
    ensures id in fuel && amount >= 0.0 && fuel[id].stockQty >= 0.0 ==> r[id].stockQty <= fuel[id].stockQty
    ensures id in fuel && amount <= fuel[id].stockQty ==> r[id].stockQty == fuel[id].stockQty - amount
    ensures id in fuel && amount > fuel[id].stockQty ==> r[id].stockQty == 0.0
  {
    if id in fuel then fuel[id := fuel[id].(stockQty := Max0(fuel[id].stockQty - amount))]
    else fuel
  }

  /** `decreaseFuelStock`: reads the product, floors the new stock at zero, writes it back. */
  method DecreaseFuelStock(products: ProductTable, id: int, amount: real)
    modifies products
    ensures products.fuel == DecreasedStock(old(products.fuel), id, amount)
    ensures products.services == old(products.services)
  {
    var p := products.GetFuelById(id);
    if p.Some? {
      var newStock := p.value.stockQty - amount;
      if newStock < 0.0 {
        newStock := 0.0;
      }
      products.UpdateFuelStock(id, newStock);
    }
  }

  /** `decreaseServiceStock`: delegates to a table update that changes nothing. */
  method DecreaseServiceStock(products: ProductTable, id: int)
    modifies products
    ensures products.fuel == old(products.fuel) && products.services == old(products.services)
  {
    products.UpdateServiceStock(id, 0.0);
  }

  /** Two decrements of one product floor once: with non-negative amounts,
      decreasing by `a` and then by `b` is decreasing by `a + b`. */
  lemma DecreaseTwiceIsDecreaseBySum(fuel: map<int, FuelProduct>, id: int, a: real, b: real)
    requires a >= 0.0 && b >= 0.0
    ensures DecreasedStock(DecreasedStock(fuel, id, a), id, b) == DecreasedStock(fuel, id, a + b)
  {
    if id in fuel {
      var once := DecreasedStock(fuel, id, a);
      assert once[id].stockQty == Max0(fuel[id].stockQty - a);
      assert Max0(once[id].stockQty - b) == Max0(fuel[id].stockQty - (a + b));
    }
  }
}
