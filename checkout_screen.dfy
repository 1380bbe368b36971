/** The rules the checkout screen (MainApp) applies before it calls the
    presenter: the cart validation run before every payment, the guards of the
    two "add" buttons, and the amount guards of a partial payment followed by
    clearing the cart once nothing is owed. Dialogs are replaced by their
    answers, passed in as parameters; the screen always acts for customer 1. */
module CheckoutScreen {
  import opened Model
  import opened CartItemDao
  import opened CustomerDao
  import opened ProductDao
  import opened CartService
  import opened CustomerService
  import opened PaymentService
  import opened Presenter

  /** The customer the screen is hard-wired to. */
  const ScreenCustomer: int := 1

  /** Why `validateCart` refuses a cart (the text of its error message). */
  datatype CartError =
    | UnweighedFuel(itemId: int)
    | CustomerNotFound
    | InsufficientFunds(total: real, available: real)

  /** What the user typed into a number dialog: nothing, a number, or text that
      does not parse. A cancelled dialog is `None` around it. */
  datatype NumberInput = Blank | Number(value: real) | NotANumber

  /** How a click on an "add" button ends. */
  datatype AddOutcome =
    | NothingSelected
    | AlreadyInCart
    | Cancelled
    | InvalidNumber
    | NegativeQuantity
    | Added(quantity: real)

  /** How a partial payment ends. */
  datatype PartialOutcome =
    | Invalid(error: CartError)
    | NothingOwed
    | Dismissed
    | InvalidAmount
    | NonPositiveAmount
    | AboveRemaining(remaining: real)
    | Declined
    | Settled
    | PartlyPaid(remaining: real)

  /** A fuel line without litres. */
  predicate Unweighed(line: CartItem)
  {
    line.itemType == ProductType && line.quantity <= 0.0
  }

  /** The item id of the first fuel line without litres, if any. */
  function FirstUnweighedFuel(items: seq<CartItem>): (r: Option<int>)
    ensures r.None? <==> forall j :: 0 <= j < |items| ==> !Unweighed(items[j])
    ensures r.Some? ==> exists j :: 0 <= j < |items| && Unweighed(items[j]) && r.value == items[j].itemId &&
                                    forall k :: 0 <= k < j ==> !Unweighed(items[k])
    decreases |items|
  {
    if items == [] then None
    else if Unweighed(items[0]) then Some(items[0].itemId)
    else
      var rest := FirstUnweighedFuel(items[1..]);
      assert forall j :: 0 < j < |items| ==> items[j] == items[1..][j - 1];
      rest
  }

  /** The verdict of `validateCart` on the customer's lines, their total and the
      customer row: unweighed fuel first, then a missing customer, then funds. */
  function CartProblem(items: seq<CartItem>, total: real, customer: Option<Customer>): Option<CartError>
  {
    match FirstUnweighedFuel(items)
    case Some(id) => Some(UnweighedFuel(id))
    case None =>
      if customer.None? then Some(CustomerNotFound)
      else if total > Funds(customer.value) then Some(InsufficientFunds(total, Funds(customer.value)))
      else None
  }

  /** A cart passes exactly when every fuel line has litres, the customer exists
      and the three balances together cover the total; a cart with unweighed
      fuel is refused for that reason whatever the funds. */
  lemma CartProblemIff(items: seq<CartItem>, total: real, customer: Option<Customer>)
    ensures CartProblem(items, total, customer).None? <==>
      (forall j :: 0 <= j < |items| && items[j].itemType == ProductType ==> items[j].quantity > 0.0) &&
      customer.Some? && total <= Funds(customer.value)
    ensures (exists j :: 0 <= j < |items| && Unweighed(items[j])) ==>
      CartProblem(items, total, customer).Some? && CartProblem(items, total, customer).value.UnweighedFuel?
  {
    if forall j :: 0 <= j < |items| && items[j].itemType == ProductType ==> items[j].quantity > 0.0 {
      assert forall j :: 0 <= j < |items| ==> !Unweighed(items[j]);
    }
  }

  /** A cart that passed validation, for a customer with non-negative balances
      and a recorded payment between zero and the total, can always be settled
      by the combined payment. */
  lemma ValidCartCanBeSettledCombined(items: seq<CartItem>, total: real, c: Customer, paid: real)
    requires CartProblem(items, total, Some(c)).None?
    requires NonNegativeBalances(c) && 0.0 <= paid <= total
    ensures CombinedSucceeds(c, RemainingOf(total, paid))
  {
    CartProblemIff(items, total, Some(c));
    CombinedSucceedsIffFundsCover(c, RemainingOf(total, paid));
  }

  /** The "already in the cart" test: a line of the customer with that exact type and item. */
  predicate InCart(lines: seq<CartItem>, customerId: int, itemType: string, itemId: int)
  {
    exists i :: 0 <= i < |lines| && lines[i].customerId == customerId &&
                lines[i].itemType == itemType && lines[i].itemId == itemId
  }

  /** No two lines of the customer share a type and item. */
  predicate NoDuplicateLines(lines: seq<CartItem>, customerId: int)
  {
    forall i, j :: 0 <= i < j < |lines| && lines[i].customerId == customerId && lines[j].customerId == customerId ==>
      !(lines[i].itemType == lines[j].itemType && lines[i].itemId == lines[j].itemId)
  }

  /** Appending a line that is not yet in the customer's cart keeps the cart free of duplicates. */
  lemma AppendNewKeepsNoDuplicates(lines: seq<CartItem>, x: CartItem)
    requires NoDuplicateLines(lines, x.customerId) && !InCart(lines, x.customerId, x.itemType, x.itemId)
    ensures NoDuplicateLines(lines + [x], x.customerId)
    ensures InCart(lines + [x], x.customerId, x.itemType, x.itemId)
  {
    var all := lines + [x];
    assert all[|lines|] == x;
    forall i, j | 0 <= i < j < |all| && all[i].customerId == x.customerId && all[j].customerId == x.customerId
      ensures !(all[i].itemType == all[j].itemType && all[i].itemId == all[j].itemId)
    {
      if j == |lines| {
        assert all[i] == lines[i];
      }
    }
  }

  /** The litres a fuel dialog yields: a blank answer is zero, a number is itself. */
  function FuelQuantity(input: NumberInput): (r: Option<real>)
    ensures input.Blank? ==> r == Some(0.0)
    ensures input.NotANumber? ==> r.None?
    ensures input.Number? ==> r == Some(input.value)
  {
    match input
    case Blank => Some(0.0)
    case Number(v) => Some(v)
    case NotANumber => None
  }

  class MainApp {
    const presenter: SmartFuelPresenter

    constructor (presenter: SmartFuelPresenter)
      ensures this.presenter == presenter
    {
      this.presenter := presenter;
    }

    ghost predicate Valid()
      reads this, presenter, presenter.customers, presenter.cart
    {
      presenter.Valid()
    }

    /** `isItemInCart` as the screen uses it. */
    predicate IsItemInCart(itemType: string, itemId: int)
      reads this, presenter, presenter.cart
    {
      InCart(presenter.cart.lines, ScreenCustomer, itemType, itemId)
    }

    /** `validateCart`: scans the customer's lines for fuel without litres, then
        checks that the customer exists and that their funds cover the total. */
    method ValidateCart() returns (error: Option<CartError>)
      requires Valid()
      ensures error == CartProblem(LinesOf(presenter.cart.lines, ScreenCustomer), presenter.Total(ScreenCustomer),
                                   presenter.customers.GetById(ScreenCustomer))
    {
      var items := presenter.GetCartItems(ScreenCustomer);
      for i := 0 to |items|
        invariant forall j :: 0 <= j < i ==> !Unweighed(items[j])
      {
        if items[i].itemType == ProductType {
          if items[i].quantity <= 0.0 {
            return Some(UnweighedFuel(items[i].itemId));
          }
        }
      }
      var totalCost := presenter.GetCartTotal(ScreenCustomer);
      var c := presenter.customers.GetById(ScreenCustomer);
      if c.None? {
        return Some(CustomerNotFound);
      }
      var combinedBalance := c.value.wallet + c.value.card + c.value.bonus;
      if totalCost > combinedBalance {
        return Some(InsufficientFunds(totalCost, combinedBalance));
      }
      return None;
    }

    /** `onAddFuel`: with a fuel selected that is not yet in the cart, asks for
        litres (blank means zero, text or a negative number is refused) and adds
        the line through the presenter. */
    method OnAddFuel(selected: Option<FuelProduct>, input: Option<NumberInput>) returns (outcome: AddOutcome)
      requires Valid()
      modifies presenter, presenter.cart
      ensures Valid()
      ensures outcome.Added? <==>
        selected.Some? && !old(IsItemInCart(ProductType, selected.value.id)) && input.Some? &&
        FuelQuantity(input.value).Some? && FuelQuantity(input.value).value >= 0.0
      ensures outcome.Added? ==>
        outcome.quantity >= 0.0 && Some(outcome.quantity) == FuelQuantity(input.value) &&
        presenter.cart.lines == old(presenter.cart.lines) +
          [CartItem(old(presenter.cart.nextId), ScreenCustomer, ProductType, selected.value.id, outcome.quantity)] &&
        presenter.paidMap == old(presenter.paidMap)[ScreenCustomer := 0.0]
      ensures !outcome.Added? ==> presenter.cart.lines == old(presenter.cart.lines) &&
                                  presenter.paidMap == old(presenter.paidMap)
      ensures presenter.cart.nextId == old(presenter.cart.nextId) + (if outcome.Added? then 1 else 0)
      ensures old(NoDuplicateLines(presenter.cart.lines, ScreenCustomer)) ==>
                NoDuplicateLines(presenter.cart.lines, ScreenCustomer)
      ensures old(presenter.PaidWithinTotals()) ==> presenter.PaidWithinTotals()
    {
      if selected.None? {
        return NothingSelected;
      }
      var alreadyInCart := IsItemInCart(ProductType, selected.value.id);
      if alreadyInCart {
        return AlreadyInCart;
      }
      if input.None? {
        return Cancelled;
      }
      var qty: real;
      match input.value {
        case Blank =>
          qty := 0.0;
        case NotANumber =>
          return InvalidNumber;
        case Number(v) =>
          qty := v;
          if qty < 0.0 {
            return NegativeQuantity;
          }
      }
      ghost var before := presenter.cart.lines;
      ghost var line := CartItem(presenter.cart.nextId, ScreenCustomer, ProductType, selected.value.id, qty);
      presenter.AddToCart(ScreenCustomer, ProductType, selected.value.id, qty);
      if NoDuplicateLines(before, ScreenCustomer) {
        AppendNewKeepsNoDuplicates(before, line);
      }
      outcome := Added(qty);
    }

    /** `onAddService`: with a service selected that is not yet in the cart, adds
        it with quantity 1.0. */
    method OnAddService(selected: Option<ServiceProduct>) returns (outcome: AddOutcome)
      requires Valid()
      modifies presenter, presenter.cart
      ensures Valid()
      ensures outcome.Added? <==> selected.Some? && !old(IsItemInCart(ServiceType, selected.value.id))
      ensures outcome.Added? ==>
        outcome.quantity == 1.0 &&
        presenter.cart.lines == old(presenter.cart.lines) +
          [CartItem(old(presenter.cart.nextId), ScreenCustomer, ServiceType, selected.value.id, 1.0)] &&
        presenter.paidMap == old(presenter.paidMap)[ScreenCustomer := 0.0]
      ensures !outcome.Added? ==> presenter.cart.lines == old(presenter.cart.lines) &&
                                  presenter.paidMap == old(presenter.paidMap)
      ensures presenter.cart.nextId == old(presenter.cart.nextId) + (if outcome.Added? then 1 else 0)
      ensures old(NoDuplicateLines(presenter.cart.lines, ScreenCustomer)) ==>
                NoDuplicateLines(presenter.cart.lines, ScreenCustomer)
      ensures old(presenter.PaidWithinTotals()) ==> presenter.PaidWithinTotals()
    {
      if selected.None? {
        return NothingSelected;
      }
      var alreadyInCart := IsItemInCart(ServiceType, selected.value.id);
      if alreadyInCart {
        return AlreadyInCart;
      }
      ghost var before := presenter.cart.lines;
      ghost var line := CartItem(presenter.cart.nextId, ScreenCustomer, ServiceType, selected.value.id, 1.0);
      presenter.AddToCart(ScreenCustomer, ServiceType, selected.value.id, 1.0);
      if NoDuplicateLines(before, ScreenCustomer) {
        AppendNewKeepsNoDuplicates(before, line);
      }
      outcome := Added(1.0);
    }

    /** `onPartialCheckout`: validates the cart, refuses when nothing is owed,
        takes the payment method and the amount from the dialogs, refuses an
        amount that is not positive or exceeds the remaining amount, pays through
        the presenter and, once less than 1e-6 is owed, clears the cart. Stock is
        never deducted on this path. */
    method OnPartialCheckout(m: Option<PaymentMethod>, input: Option<NumberInput>) returns (outcome: PartialOutcome)
      requires Valid()
      modifies presenter, presenter.customers, presenter.cart
      ensures Valid()
      ensures presenter.products.fuel == old(presenter.products.fuel)
      ensures presenter.cart.nextId == old(presenter.cart.nextId)
      ensures outcome.Invalid? <==> old(CartProblem(LinesOf(presenter.cart.lines, ScreenCustomer),
                                                    presenter.Total(ScreenCustomer),
                                                    presenter.customers.GetById(ScreenCustomer))).Some?
      ensures (outcome.Settled? || outcome.PartlyPaid?) <==>
        old(CartProblem(LinesOf(presenter.cart.lines, ScreenCustomer), presenter.Total(ScreenCustomer),
                        presenter.customers.GetById(ScreenCustomer))).None? &&
        m.Some? && input.Some? && input.value.Number? &&
        0.0 < input.value.value <= old(presenter.Remaining(ScreenCustomer)) &&
        CanPayWith(old(presenter.customers.rows)[ScreenCustomer], m.value, input.value.value)
      ensures (outcome.Settled? || outcome.PartlyPaid?) ==>
        presenter.customers.rows == old(presenter.customers.rows)[ScreenCustomer :=
          Debit(old(presenter.customers.rows)[ScreenCustomer], m.value, input.value.value)]
      ensures outcome.Settled? ==>
        old(presenter.Remaining(ScreenCustomer)) - input.value.value < SettledThreshold &&
        presenter.cart.lines == Reject(old(presenter.cart.lines), CustomerIs(ScreenCustomer)) &&
        presenter.paidMap == old(presenter.paidMap)[ScreenCustomer := 0.0]
      ensures outcome.PartlyPaid? ==>
        outcome.remaining == old(presenter.Remaining(ScreenCustomer)) - input.value.value &&
        outcome.remaining >= SettledThreshold &&
        presenter.cart.lines == old(presenter.cart.lines) &&
        presenter.paidMap == old(presenter.paidMap)[ScreenCustomer := old(presenter.GetPaid(ScreenCustomer)) + input.value.value]
      ensures !(outcome.Settled? || outcome.PartlyPaid?) ==>
        presenter.customers.rows == old(presenter.customers.rows) &&
        presenter.cart.lines == old(presenter.cart.lines) && presenter.paidMap == old(presenter.paidMap)
      ensures old(presenter.PaidWithinTotals()) ==> presenter.PaidWithinTotals()
    {
      var error := ValidateCart();
      if error.Some? {
        return Invalid(error.value);
      }
      var remaining := presenter.GetRemaining(ScreenCustomer);
      if remaining <= 0.0 {
        return NothingOwed;
      }
      if m.None? || input.None? {
        return Dismissed;
      }
      if !input.value.Number? {
        return InvalidAmount;
      }
      var amount := input.value.value;
      if amount <= 0.0 {
        return NonPositiveAmount;
      }
      if amount > remaining {
        return AboveRemaining(remaining);
      }
      outcome := PayPart(m.value, amount);
    }

    /** The end of `onPartialCheckout`, once the amount has passed the screen's
        guards: pays through the presenter, then settles. */
    method PayPart(m: PaymentMethod, amount: real) returns (outcome: PartialOutcome)
      requires Valid()
      modifies presenter, presenter.customers, presenter.cart
      ensures Valid()
      ensures presenter.products.fuel == old(presenter.products.fuel)
      ensures presenter.cart.nextId == old(presenter.cart.nextId)
      ensures outcome.Settled? || outcome.PartlyPaid? || outcome.Declined?
      ensures !outcome.Declined? <==>
        0.0 < amount <= old(presenter.Remaining(ScreenCustomer)) && ScreenCustomer in old(presenter.customers.rows) &&
        CanPayWith(old(presenter.customers.rows)[ScreenCustomer], m, amount)
      ensures !outcome.Declined? ==>
        presenter.customers.rows == old(presenter.customers.rows)[ScreenCustomer :=
          Debit(old(presenter.customers.rows)[ScreenCustomer], m, amount)]
      ensures outcome.Settled? ==>
        old(presenter.Remaining(ScreenCustomer)) - amount < SettledThreshold &&
        presenter.cart.lines == Reject(old(presenter.cart.lines), CustomerIs(ScreenCustomer)) &&
        presenter.paidMap == old(presenter.paidMap)[ScreenCustomer := 0.0]
      ensures outcome.PartlyPaid? ==>
        outcome.remaining == old(presenter.Remaining(ScreenCustomer)) - amount &&
        outcome.remaining >= SettledThreshold &&
        presenter.cart.lines == old(presenter.cart.lines) &&
        presenter.paidMap == old(presenter.paidMap)[ScreenCustomer := old(presenter.GetPaid(ScreenCustomer)) + amount]
      ensures outcome.Declined? ==>
        presenter.customers.rows == old(presenter.customers.rows) &&
        presenter.cart.lines == old(presenter.cart.lines) && presenter.paidMap == old(presenter.paidMap)
      ensures old(presenter.PaidWithinTotals()) ==> presenter.PaidWithinTotals()
    {
      ghost var remaining0 := presenter.Remaining(ScreenCustomer);
      var ok := presenter.CheckoutPartial(ScreenCustomer, m, amount);
      if !ok {
        return Declined;
      }
      ghost var rows1, lines1, paid1 := presenter.customers.rows, presenter.cart.lines, presenter.paidMap;
      assert presenter.Remaining(ScreenCustomer) == remaining0 - amount;
      outcome := SettleIfPaid();
      assert presenter.customers.rows == rows1;
    }

    /** The end of a successful partial payment: when less than 1e-6 is still
        owed the cart is cleared (which resets the paid amount); otherwise the
        remaining amount is reported. */
    method SettleIfPaid() returns (outcome: PartialOutcome)
      requires Valid()
      modifies presenter, presenter.cart
      ensures Valid()
      ensures outcome.Settled? || outcome.PartlyPaid?
      ensures presenter.cart.nextId == old(presenter.cart.nextId)
      ensures outcome.Settled? <==> old(presenter.Remaining(ScreenCustomer)) < SettledThreshold
      ensures outcome.Settled? ==>
        presenter.cart.lines == Reject(old(presenter.cart.lines), CustomerIs(ScreenCustomer)) &&
        LinesOf(presenter.cart.lines, ScreenCustomer) == [] &&
        presenter.paidMap == old(presenter.paidMap)[ScreenCustomer := 0.0]
      ensures outcome.PartlyPaid? ==>
        outcome.remaining == old(presenter.Remaining(ScreenCustomer)) &&
        presenter.cart.lines == old(presenter.cart.lines) && presenter.paidMap == old(presenter.paidMap)
      ensures old(presenter.PaidWithinTotals()) ==> presenter.PaidWithinTotals()
    {
      var remaining := presenter.GetRemaining(ScreenCustomer);
      if remaining < SettledThreshold {
        presenter.ClearCart(ScreenCustomer);
        return Settled;
      }
      return PartlyPaid(remaining);
    }
  }
}
