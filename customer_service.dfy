/** CustomerService: the three sufficiency checks and the balance update. */
module CustomerService {
  import opened Model
  import opened CustomerDao

  predicate CanPayWithCash(c: Customer, amount: real)
  {
    c.wallet >= amount
  }

  predicate CanPayWithCard(c: Customer, amount: real)
  {
    c.card >= amount
  }

  predicate CanPayWithBonus(c: Customer, amount: real)
  {
    c.bonus >= amount
  }

  /** The check that matches a payment method. */
  predicate CanPayWith(c: Customer, m: PaymentMethod, amount: real)
  {
    match m
    case Cash => CanPayWithCash(c, amount)
    case Card => CanPayWithCard(c, amount)
    case Bonus => CanPayWithBonus(c, amount)
  }

  /** Each check holds exactly when the balance of its method covers the amount;
      a balance equal to the amount is enough. */
  lemma CanPayWithMeansBalanceCovers(c: Customer, m: PaymentMethod, amount: real)
    ensures CanPayWith(c, m, amount) <==> Balance(c, m) >= amount
    ensures CanPayWith(c, m, Balance(c, m))
  {
  }

  /** A debit that passed its check leaves every balance non-negative. */
  lemma CheckedDebitKeepsBalancesNonNegative(c: Customer, m: PaymentMethod, amount: real)
    requires NonNegativeBalances(c) && CanPayWith(c, m, amount)
    ensures NonNegativeBalances(Debit(c, m, amount))
  {
    assert Balance(Debit(c, m, amount), m) == Balance(c, m) - amount;
  }

  /** `updateCustomer`: writes the three balances through the table. */
  method UpdateCustomer(customers: CustomerTable, c: Customer)
    requires customers.Valid()
    modifies customers
    ensures customers.Valid()
    ensures customers.rows == WithBalancesOf(old(customers.rows), c)
  {
    customers.Update(c);
  }
}
