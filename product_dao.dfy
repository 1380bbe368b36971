/** The `products` (fuel) and `services` tables behind ProductDAOImpl. */
module ProductDao {
  import opened Model

  class ProductTable {
    var fuel: map<int, FuelProduct>
    var services: map<int, ServiceProduct>

    constructor (fuel: map<int, FuelProduct>, services: map<int, ServiceProduct>)
      ensures this.fuel == fuel && this.services == services
    {
      this.fuel := fuel;
      this.services := services;
    }

    /** `getFuelProductById`: the row, or null. */
    function GetFuelById(id: int): (r: Option<FuelProduct>)
      reads this
      ensures r.Some? <==> id in fuel
      ensures r.Some? ==> r.value == fuel[id]
    {
      if id in fuel then Some(fuel[id]) else None
    }

    /** `getServiceById`: the row, or null. */
    function GetServiceById(id: int): (r: Option<ServiceProduct>)
      reads this
      ensures r.Some? <==> id in services
      ensures r.Some? ==> r.value == services[id]
    {
      if id in services then Some(services[id]) else None
    }

    /** `updateFuelStock`: `UPDATE products SET stock_qty = ? WHERE id = ?`. */
    method UpdateFuelStock(id: int, newStock: real)
      modifies this
      ensures services == old(services)
      ensures fuel == if id in old(fuel) then old(fuel)[id := old(fuel)[id].(stockQty := newStock)] else old(fuel)
    {
      if id in fuel {
        fuel := fuel[id := fuel[id].(stockQty := newStock)];
      }
    }

    /** `updateServiceStock`: `UPDATE services SET price = price`, which changes nothing. */
    method UpdateServiceStock(id: int, newStock: real)
      modifies this
      ensures fuel == old(fuel) && services == old(services)
    {
    }
  }
}
