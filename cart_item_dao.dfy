/** The `cart_items` table (CartItemDAOImpl): an ordered sequence of lines,
    ids assigned by an auto-increment counter, and the SELECT / DELETE
    statements of the DAO as filters over that sequence. */
module CartItemDao {
  import opened Model

  /** The WHERE clause of a cart query. */
  datatype Where =
    | IdIs(id: int)
    | CustomerIs(customerId: int)
    | ItemIs(customerId: int, itemType: string, itemId: int)

  predicate Matches(line: CartItem, w: Where)
  {
    match w
    case IdIs(id) => line.id == id
    case CustomerIs(c) => line.customerId == c
    case ItemIs(c, t, i) => line.customerId == c && line.itemType == t && line.itemId == i
  }

  /** The rows a SELECT with `w` returns, in table order. */
  function Select(lines: seq<CartItem>, w: Where): (r: seq<CartItem>)
    decreases |lines|
  {
    if lines == [] then []
    else
      var last := lines[|lines| - 1];
      Select(lines[..|lines| - 1], w) + (if Matches(last, w) then [last] else [])
  }

  /** The rows a DELETE with `w` leaves, in table order. */
  function Reject(lines: seq<CartItem>, w: Where): (r: seq<CartItem>)
    decreases |lines|
  {
    if lines == [] then []
    else
      var last := lines[|lines| - 1];
      Reject(lines[..|lines| - 1], w) + (if Matches(last, w) then [] else [last])
  }

  /** `getByCustomerId`: the lines of one customer. */
  function LinesOf(lines: seq<CartItem>, customerId: int): seq<CartItem>
  {
    Select(lines, CustomerIs(customerId))
  }

  predicate IdsIncreasing(lines: seq<CartItem>)
  {
    forall i, j :: 0 <= i < j < |lines| ==> lines[i].id < lines[j].id
  }

  lemma {:induction false} SelectMembers(lines: seq<CartItem>, w: Where, x: CartItem)
    ensures x in Select(lines, w) <==> x in lines && Matches(x, w)
    decreases |lines|
  {
    if lines != [] {
      var init := lines[..|lines| - 1];
      SelectMembers(init, w, x);
      assert lines == init + [lines[|lines| - 1]];
    }
  }

  lemma {:induction false} RejectMembers(lines: seq<CartItem>, w: Where, x: CartItem)
    ensures x in Reject(lines, w) <==> x in lines && !Matches(x, w)
    decreases |lines|
  {
    if lines != [] {
      var init := lines[..|lines| - 1];
      RejectMembers(init, w, x);
      assert lines == init + [lines[|lines| - 1]];
    }
  }

  /** A SELECT and the DELETE with the same WHERE split the table between them. */
  lemma {:induction false} SelectRejectPartition(lines: seq<CartItem>, w: Where)
    ensures multiset(Select(lines, w)) + multiset(Reject(lines, w)) == multiset(lines)
    decreases |lines|
  {
    if lines != [] {
      var init := lines[..|lines| - 1];
      var last := lines[|lines| - 1];
      SelectRejectPartition(init, w);
      assert lines == init + [last];
      if Matches(last, w) {
        assert Select(lines, w) == Select(init, w) + [last];
        assert Reject(lines, w) == Reject(init, w);
      } else {
        assert Select(lines, w) == Select(init, w);
        assert Reject(lines, w) == Reject(init, w) + [last];
      }
    }
  }

  lemma {:induction false} SelectAppend(a: seq<CartItem>, b: seq<CartItem>, w: Where)
    ensures Select(a + b, w) == Select(a, w) + Select(b, w)
    decreases |b|
  {
    if b == [] {
      assert a + b == a;
    } else {
      var init, last := b[..|b| - 1], b[|b| - 1];
      var tail := if Matches(last, w) then [last] else [];
      SelectAppend(a, init, w);
      assert (a + b)[..|a + b| - 1] == a + init;
      assert (a + b)[|a + b| - 1] == last;
      assert Select(a + b, w) == Select(a + init, w) + tail;
      assert Select(b, w) == Select(init, w) + tail;
    }
  }

  /** Deleting rows none of which belong to customer `c` leaves `c`'s cart as it was. */
  lemma {:induction false} RejectKeepsOtherCarts(lines: seq<CartItem>, w: Where, c: int)
    requires forall i :: 0 <= i < |lines| && Matches(lines[i], w) ==> lines[i].customerId != c
    ensures LinesOf(Reject(lines, w), c) == LinesOf(lines, c)
    decreases |lines|
  {
    if lines != [] {
      var init := lines[..|lines| - 1];
      var last := lines[|lines| - 1];
      RejectKeepsOtherCarts(init, w, c);
      SelectAppend(Reject(init, w), if Matches(last, w) then [] else [last], CustomerIs(c));
    }
  }

  /** `deleteAllByCustomerId` empties that customer's cart and no other. */
  lemma RejectCustomerEmptiesOnlyThatCart(lines: seq<CartItem>, customerId: int)
    ensures LinesOf(Reject(lines, CustomerIs(customerId)), customerId) == []
    ensures forall c :: c != customerId ==> LinesOf(Reject(lines, CustomerIs(customerId)), c) == LinesOf(lines, c)
  {
    var rest := Reject(lines, CustomerIs(customerId));
    if LinesOf(rest, customerId) != [] {
      var x := LinesOf(rest, customerId)[0];
      SelectMembers(rest, CustomerIs(customerId), x);
      RejectMembers(lines, CustomerIs(customerId), x);
      assert false;
    }
    forall c | c != customerId ensures LinesOf(rest, c) == LinesOf(lines, c) {
      RejectKeepsOtherCarts(lines, CustomerIs(customerId), c);
    }
  }

  /** A SELECT and a DELETE keep only lines of the table, so they keep its quantities non-negative. */
  lemma FiltersKeepQuantitiesNonNegative(lines: seq<CartItem>, w: Where)
    requires NonNegativeQuantities(lines)
    ensures NonNegativeQuantities(Select(lines, w)) && NonNegativeQuantities(Reject(lines, w))
  {
    var sel, rej := Select(lines, w), Reject(lines, w);
    forall i | 0 <= i < |sel| ensures sel[i].quantity >= 0.0 {
      SelectMembers(lines, w, sel[i]);
    }
    forall i | 0 <= i < |rej| ensures rej[i].quantity >= 0.0 {
      RejectMembers(lines, w, rej[i]);
    }
  }

  /** Appending a line of one customer leaves every other customer's cart as it was. */
  lemma AppendKeepsOtherCarts(lines: seq<CartItem>, x: CartItem, c: int)
    requires x.customerId != c
    ensures LinesOf(lines + [x], c) == LinesOf(lines, c)
  {
    assert (lines + [x])[..|lines|] == lines;
  }

  /** A DELETE keeps the table's ids strictly increasing. */
  lemma {:induction false} RejectKeepsIdsIncreasing(lines: seq<CartItem>, w: Where)
    requires IdsIncreasing(lines)
    ensures IdsIncreasing(Reject(lines, w))
    decreases |lines|
  {
    if lines != [] {
      var init := lines[..|lines| - 1];
      var last := lines[|lines| - 1];
      RejectKeepsIdsIncreasing(init, w);
      forall x | x in Reject(init, w) ensures x.id < last.id {
        RejectMembers(init, w, x);
      }
    }
  }

  /** With unique ids, `delete(id)` removes at most one line. */
  lemma {:induction false} DeleteByIdRemovesAtMostOne(lines: seq<CartItem>, id: int)
    requires IdsIncreasing(lines)
    ensures |Select(lines, IdIs(id))| <= 1
    ensures |Reject(lines, IdIs(id))| >= |lines| - 1
    decreases |lines|
  {
    if lines != [] {
      var init := lines[..|lines| - 1];
      var last := lines[|lines| - 1];
      DeleteByIdRemovesAtMostOne(init, id);
      SelectRejectPartition(lines, IdIs(id));
      assert |multiset(lines)| == |lines|;
      if last.id == id {
        if Select(init, IdIs(id)) != [] {
          var x := Select(init, IdIs(id))[0];
          SelectMembers(init, IdIs(id), x);
          assert false;
        }
      }
    }
  }

  class CartTable {
    var lines: seq<CartItem>
    /** The next value of the AUTOINCREMENT counter of `cart_items.id`. */
    var nextId: int

    ghost predicate Valid()
      reads this
    {
      nextId >= 1 &&
      IdsIncreasing(lines) &&
      forall i :: 0 <= i < |lines| ==> 0 < lines[i].id < nextId
    }

    constructor ()
      ensures Valid() && lines == [] && nextId == 1
    {
      lines := [];
      nextId := 1;
    }

    /** `getByCustomerId`: reads the customer's rows one by one. */
    method GetByCustomerId(customerId: int) returns (list: seq<CartItem>)
      ensures list == LinesOf(lines, customerId)
      ensures forall x :: x in list <==> x in lines && x.customerId == customerId
    {
      list := [];
      var i := 0;
      while i < |lines|
        invariant 0 <= i <= |lines|
        invariant list == Select(lines[..i], CustomerIs(customerId))
      {
        assert lines[..i + 1][..i] == lines[..i];
        if lines[i].customerId == customerId {
          list := list + [lines[i]];
        }
        i := i + 1;
      }
      assert lines[..i] == lines;
      forall x ensures x in list <==> x in lines && x.customerId == customerId {
        SelectMembers(lines, CustomerIs(customerId), x);
      }
    }

    /** `insert`: a new row with the item's customer, type, item id and quantity;
        the item's own id is ignored and a fresh one is assigned. No duplicate check. */
    method Insert(item: CartItem)
      requires Valid()
      modifies this
      ensures Valid()
      ensures lines == old(lines) + [item.(id := old(nextId))]
      ensures nextId == old(nextId) + 1
    {
      lines := lines + [item.(id := nextId)];
      nextId := nextId + 1;
    }

    /** The table after a DELETE with `w`; the counter does not move. */
    method DeleteWhere(w: Where)
      requires Valid()
      modifies this
      ensures Valid()
      ensures lines == Reject(old(lines), w) && nextId == old(nextId)
      ensures forall x :: x in lines <==> x in old(lines) && !Matches(x, w)
    {
      var before := lines;
      lines := Reject(lines, w);
      RejectKeepsIdsIncreasing(before, w);
      forall x ensures x in lines <==> x in before && !Matches(x, w) {
        RejectMembers(before, w, x);
      }
      forall i | 0 <= i < |lines| ensures 0 < lines[i].id < nextId {
        assert lines[i] in before;
      }
    }

    /** `delete(id)`. */
    method Delete(id: int)
      requires Valid()
      modifies this
      ensures Valid()
      ensures lines == Reject(old(lines), IdIs(id)) && nextId == old(nextId)
      ensures forall x :: x in lines <==> x in old(lines) && x.id != id
      ensures |lines| >= |old(lines)| - 1
    {
      DeleteByIdRemovesAtMostOne(lines, id);
      DeleteWhere(IdIs(id));
    }

    /** `deleteAllByCustomerId`. */
    method DeleteAllByCustomerId(customerId: int)
      requires Valid()
      modifies this
      ensures Valid()
      ensures lines == Reject(old(lines), CustomerIs(customerId)) && nextId == old(nextId)
      ensures forall x :: x in lines <==> x in old(lines) && x.customerId != customerId
    {
      DeleteWhere(CustomerIs(customerId));
    }

    /** `deleteByItem`: every row with that customer, type string and item id. */
    method DeleteByItem(customerId: int, itemType: string, itemId: int)
      requires Valid()
      modifies this
      ensures Valid()
      ensures lines == Reject(old(lines), ItemIs(customerId, itemType, itemId)) && nextId == old(nextId)
      ensures forall x :: x in lines <==>
        x in old(lines) && !(x.customerId == customerId && x.itemType == itemType && x.itemId == itemId)
    {
      DeleteWhere(ItemIs(customerId, itemType, itemId));
    }
  }
}
