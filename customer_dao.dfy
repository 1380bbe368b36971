/** The `customers` table (CustomerDAOImpl): rows keyed by id. `update`
    writes the three balances of the row with the customer's id and nothing else. */
module CustomerDao {
  import opened Model

  /** The table after `UPDATE customers SET wallet, card, bonus WHERE id = c.id`. */
  function WithBalancesOf(rows: map<int, Customer>, c: Customer): (r: map<int, Customer>)
    ensures r.Keys == rows.Keys
    ensures forall k :: k in rows && k != c.id ==> r[k] == rows[k]
    ensures c.id in rows ==>
      r[c.id].id == rows[c.id].id && r[c.id].name == rows[c.id].name &&
      forall m :: Balance(r[c.id], m) == Balance(c, m)
  {
    if c.id in rows then rows[c.id := rows[c.id].(wallet := c.wallet, card := c.card, bonus := c.bonus)]
    else rows
  }

  /** Writing back a row that differs from the stored one only in its balances
      stores exactly that row. */
  lemma WithBalancesOfStoresRow(rows: map<int, Customer>, c: Customer)
    requires c.id in rows && rows[c.id].name == c.name && rows[c.id].id == c.id
    ensures WithBalancesOf(rows, c) == rows[c.id := c]
  {
  }

  class CustomerTable {
    var rows: map<int, Customer>

    ghost predicate Valid()
      reads this
    {
      forall k :: k in rows ==> rows[k].id == k
    }

    constructor (rows: map<int, Customer>)
      requires forall k :: k in rows ==> rows[k].id == k
      ensures Valid() && this.rows == rows
    {
      this.rows := rows;
    }

    /** `getById`: the row, or null. */
    function GetById(id: int): (r: Option<Customer>)
      reads this
      requires Valid()
      ensures r.Some? <==> id in rows
      ensures r.Some? ==> r.value.id == id && r.value == rows[id]
    {
      if id in rows then Some(rows[id]) else None
    }

    method Update(c: Customer)
      requires Valid()
      modifies this
      ensures Valid()
      ensures rows == WithBalancesOf(old(rows), c)
    {
      rows := WithBalancesOf(rows, c);
    }
  }
}
