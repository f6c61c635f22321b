/**
 * The shopping-cart store: a list of cart lines, one per show, replaced as a
 * whole by each operation. The new lists are pure functions of the old one;
 * the `CartStore` class holds the current list and applies them.
 */
module CartContext {
  import opened Wrappers
  import opened DatabaseTypes
  import opened CartTypes

  /** The quantity `addItem` uses when its caller passes none. */
  const DEFAULT_QUANTITY := 1

  /** No two lines share a show id. */
  ghost predicate UniqueIds(items: seq<CartItem>) {
    forall i, j :: 0 <= i < j < |items| ==> items[i].id != items[j].id
  }

  predicate PositiveQuantities(items: seq<CartItem>) {
    forall i :: 0 <= i < |items| ==> items[i].quantity > 0
  }

  /** What the cart page relies on: one line per show, each with at least one ticket. */
  ghost predicate WellFormed(items: seq<CartItem>) {
    UniqueIds(items) && PositiveQuantities(items)
  }

  predicate HasId(items: seq<CartItem>, id: int) {
    exists i :: 0 <= i < |items| && items[i].id == id
  }

  /** `items.find(item => item.id === id)`: the first line for the show, if any. */
  function Find(items: seq<CartItem>, id: int): (r: Option<CartItem>)
    ensures r.Some? <==> HasId(items, id)
    ensures r.Some? ==>
      (exists k :: 0 <= k < |items| && items[k] == r.value && r.value.id == id
        && forall j :: 0 <= j < k ==> items[j].id != id)
  {
    if items == [] then None
    else if items[0].id == id then Some(items[0])
    else
      var r := Find(items[1..], id);
      assert HasId(items, id) ==> HasId(items[1..], id) by {
        if HasId(items, id) {
          var i :| 0 <= i < |items| && items[i].id == id;
          assert items[1..][i - 1].id == id;
        }
      }
      if r.Some? then
        var k :| 0 <= k < |items[1..]| && items[1..][k] == r.value && r.value.id == id
          && forall j :: 0 <= j < k ==> items[1..][j].id != id;
        assert items[k + 1] == r.value;
        r
      else r
  }

  /** The line `addItem` appends for a show that is not in the cart yet. */
  function NewLine(show: TheatreFunction, quantity: int): (r: CartItem)
    ensures r.id == show.id && r.nombreFuncion == show.nombreFuncion
    ensures r.imagenFuncion == show.imagenFuncion && r.descripcionFuncion == show.descripcionFuncion
    ensures show.valorEntradaFuncion.Some? ==> r.valorEntradaFuncion == show.valorEntradaFuncion.value
    ensures show.valorEntradaFuncion.None? ==> r.valorEntradaFuncion == 0
    ensures r.quantity == quantity
  {
    CartItem(show.id, show.nombreFuncion, show.valorEntradaFuncion.GetOr(0),
             show.imagenFuncion, show.descripcionFuncion, quantity)
  }

  /** The `map` in `addItem`: each line of the show gets `delta` more tickets. */
  function Incremented(items: seq<CartItem>, id: int, delta: int): (r: seq<CartItem>)
    ensures |r| == |items|
    ensures forall i :: 0 <= i < |items| ==>
      r[i] == if items[i].id == id then items[i].(quantity := items[i].quantity + delta) else items[i]
  {
    if items == [] then []
    else
      var head := if items[0].id == id then items[0].(quantity := items[0].quantity + delta) else items[0];
      [head] + Incremented(items[1..], id, delta)
  }

  /**
   * The list `addItem(show, quantity)` leaves: an existing line of the show
   * gets the extra tickets in place; otherwise one new line goes at the end.
   */
  function WithAdded(items: seq<CartItem>, show: TheatreFunction, quantity: Option<int>): (r: seq<CartItem>)
    ensures HasId(items, show.id) ==> |r| == |items|
    ensures HasId(items, show.id) ==> forall i :: 0 <= i < |items| ==>
      && r[i].(quantity := items[i].quantity) == items[i]
      && r[i].quantity == (if items[i].id == show.id then items[i].quantity + quantity.GetOr(DEFAULT_QUANTITY) else items[i].quantity)
    ensures !HasId(items, show.id) ==> |r| == |items| + 1 && r[..|items|] == items
    ensures !HasId(items, show.id) ==> r[|items|] == NewLine(show, quantity.GetOr(DEFAULT_QUANTITY))
  {
    var q := quantity.GetOr(DEFAULT_QUANTITY);
    if Find(items, show.id).Some? then Incremented(items, show.id, q)
    else items + [NewLine(show, q)]
  }

  /** The `filter` in `removeItem`: every line of the show goes, the rest keep their order. */
  function Without(items: seq<CartItem>, id: int): (r: seq<CartItem>)
    ensures |r| <= |items|
    ensures forall x :: x in r <==> x in items && x.id != id
    ensures !HasId(r, id)
    ensures !HasId(items, id) ==> r == items
  {
    if items == [] then []
    else
      var rest := Without(items[1..], id);
      assert !HasId(items, id) ==> !HasId(items[1..], id) by {
        if HasId(items[1..], id) {
          var i :| 0 <= i < |items[1..]| && items[1..][i].id == id;
          assert items[i + 1].id == id;
        }
      }
      if items[0].id == id then rest else [items[0]] + rest
  }

  /** Removal keeps every other line exactly as often as it occurred: it never drops or duplicates one. */
  lemma {:induction false} WithoutKeepsOtherLines(items: seq<CartItem>, id: int)
    ensures forall x :: multiset(Without(items, id))[x] == if x.id == id then 0 else multiset(items)[x]
  {
    if items != [] {
      WithoutKeepsOtherLines(items[1..], id);
      assert items == [items[0]] + items[1..];
    }
  }

  /** Removal keeps the order of the lines left: it distributes over concatenation. */
  lemma {:induction false} WithoutKeepsOrder(a: seq<CartItem>, b: seq<CartItem>, id: int)
    ensures Without(a + b, id) == Without(a, id) + Without(b, id)
  {
    if a != [] {
      var ab := a + b;
      assert ab[0] == a[0];
      assert ab[1..] == a[1..] + b;
      WithoutKeepsOrder(a[1..], b, id);
    } else {
      assert a + b == b;
    }
  }

  /** The `map` in `updateQuantity`: each line of the show gets the new quantity. */
  function WithQuantity(items: seq<CartItem>, id: int, quantity: int): (r: seq<CartItem>)
    ensures |r| == |items|
    ensures forall i :: 0 <= i < |items| ==>
      r[i] == if items[i].id == id then items[i].(quantity := quantity) else items[i]
  {
    if items == [] then []
    else
      var head := if items[0].id == id then items[0].(quantity := quantity) else items[0];
      [head] + WithQuantity(items[1..], id, quantity)
  }

  /** The list `updateQuantity(id, quantity)` leaves. */
  function UpdatedQuantity(items: seq<CartItem>, id: int, quantity: int): (r: seq<CartItem>)
    ensures quantity <= 0 ==> r == Without(items, id)
    ensures quantity > 0 ==> |r| == |items| && forall i :: 0 <= i < |items| ==>
      && r[i].(quantity := items[i].quantity) == items[i]
      && r[i].quantity == (if items[i].id == id then quantity else items[i].quantity)
  {
    if quantity <= 0 then Without(items, id) else WithQuantity(items, id, quantity)
  }

  /** `totalItems`: the number of tickets in the cart. */
  function TotalItems(items: seq<CartItem>): (r: int)
    ensures (forall i :: 0 <= i < |items| ==> items[i].quantity >= 0) ==> r >= 0
  {
    if items == [] then 0 else items[0].quantity + TotalItems(items[1..])
  }

  /** No line has a negative quantity or a negative unit price. */
  predicate NoNegativeLines(items: seq<CartItem>) {
    items == [] || (items[0].quantity >= 0 && items[0].valorEntradaFuncion >= 0 && NoNegativeLines(items[1..]))
  }

  /** `totalPrice`: the sum over the lines of unit price times quantity. */
  function TotalPrice(items: seq<CartItem>): (r: int)
    ensures NoNegativeLines(items) ==> r >= 0
  {
    if items == [] then 0
    else items[0].valorEntradaFuncion * items[0].quantity + TotalPrice(items[1..])
  }

  lemma {:induction false} UniqueTail(items: seq<CartItem>)
    requires items != [] && UniqueIds(items)
    ensures UniqueIds(items[1..]) && !HasId(items[1..], items[0].id)
  {
    forall i | 0 <= i < |items[1..]| ensures items[1..][i].id != items[0].id {
      assert items[1..][i] == items[i + 1];
    }
  }

  /** Removing a show keeps the cart well formed: the lines left are lines of the old cart. */
  lemma WithoutKeepsWellFormed(items: seq<CartItem>, id: int)
    requires WellFormed(items)
    ensures WellFormed(Without(items, id))
  {
    RemoveKeepsUnique(items, id);
    var r := Without(items, id);
    forall i | 0 <= i < |r| ensures r[i].quantity > 0 {
      assert r[i] in items;
    }
  }

  /** `updateQuantity` keeps the cart well formed for every quantity: a non-positive one removes the line. */
  lemma UpdateKeepsWellFormed(items: seq<CartItem>, id: int, quantity: int)
    requires WellFormed(items)
    ensures WellFormed(UpdatedQuantity(items, id, quantity))
  {
    if quantity <= 0 {
      WithoutKeepsWellFormed(items, id);
    }
  }

  /** `addItem` keeps ids unique, and keeps quantities positive when the quantity added is positive. */
  lemma AddKeepsWellFormed(items: seq<CartItem>, show: TheatreFunction, quantity: Option<int>)
    requires UniqueIds(items)
    ensures UniqueIds(WithAdded(items, show, quantity))
    ensures PositiveQuantities(items) && quantity.GetOr(DEFAULT_QUANTITY) > 0 ==>
      PositiveQuantities(WithAdded(items, show, quantity))
  {
    var r := WithAdded(items, show, quantity);
    if !HasId(items, show.id) {
      forall i | 0 <= i < |items| ensures r[i].id != r[|items|].id {
        assert items[i].id != show.id;
      }
    }
  }

  /** The ticket count part of `IncrementedTotals`. */
  lemma {:induction false} IncrementedCount(items: seq<CartItem>, id: int, delta: int)
    requires UniqueIds(items)
    ensures TotalItems(Incremented(items, id, delta)) == TotalItems(items) + (if HasId(items, id) then delta else 0)
  {
    if items != [] {
      UniqueTail(items);
      IncrementedCount(items[1..], id, delta);
      var r := Incremented(items, id, delta);
      assert r[1..] == Incremented(items[1..], id, delta);
      assert TotalItems(r) == r[0].quantity + TotalItems(r[1..]);
      FirstLineAndRest(items, id);
    }
  }

  /** The price part of `IncrementedTotals`. */
  lemma {:induction false} IncrementedPrice(items: seq<CartItem>, id: int, delta: int)
    requires UniqueIds(items)
    ensures TotalPrice(Incremented(items, id, delta))
      == TotalPrice(items) + (if HasId(items, id) then delta * Find(items, id).value.valorEntradaFuncion else 0)
  {
    if items != [] {
      UniqueTail(items);
      IncrementedPrice(items[1..], id, delta);
      var r := Incremented(items, id, delta);
      assert r[1..] == Incremented(items[1..], id, delta);
      assert TotalPrice(r) == r[0].valorEntradaFuncion * r[0].quantity + TotalPrice(r[1..]);
      FirstLineAndRest(items, id);
      if items[0].id == id {
        var p, q := items[0].valorEntradaFuncion, items[0].quantity;
        assert p * (q + delta) == p * q + delta * p by {
          assert p * (q + delta) == p * q + p * delta;
        }
      }
    }
  }

  /** How the first line and the rest of a list with unique ids share a show. */
  lemma FirstLineAndRest(items: seq<CartItem>, id: int)
    requires items != [] && UniqueIds(items)
    ensures items[0].id == id ==> HasId(items, id) && !HasId(items[1..], id) && Find(items, id) == Some(items[0])
    ensures items[0].id != id ==> (HasId(items, id) <==> HasId(items[1..], id)) && Find(items, id) == Find(items[1..], id)
  {
    UniqueTail(items);
    if HasId(items, id) && items[0].id != id {
      var i :| 0 <= i < |items| && items[i].id == id;
      assert items[1..][i - 1].id == id;
    }
    if HasId(items[1..], id) {
      var i :| 0 <= i < |items[1..]| && items[1..][i].id == id;
      assert items[i + 1].id == id;
    }
  }

  /**
   * Raising a show's line by `delta` raises the ticket count by `delta` and
   * the total by `delta` times the line's unit price.
   */
  lemma IncrementedTotals(items: seq<CartItem>, id: int, delta: int)
    requires UniqueIds(items)
    ensures TotalItems(Incremented(items, id, delta))
      == TotalItems(items) + (if HasId(items, id) then delta else 0)
    ensures TotalPrice(Incremented(items, id, delta))
      == TotalPrice(items) + (if HasId(items, id) then delta * Find(items, id).value.valorEntradaFuncion else 0)
  {
    IncrementedCount(items, id, delta);
    IncrementedPrice(items, id, delta);
  }

  /**
   * Adding tickets of a show raises the ticket count by the quantity added,
   * and the total by that quantity times the unit price of the show's line.
   */
  lemma AddedTotals(items: seq<CartItem>, show: TheatreFunction, quantity: Option<int>)
    requires UniqueIds(items)
    ensures var q := quantity.GetOr(DEFAULT_QUANTITY);
      && TotalItems(WithAdded(items, show, quantity)) == TotalItems(items) + q
      && TotalPrice(WithAdded(items, show, quantity)) == TotalPrice(items) +
           q * (if HasId(items, show.id) then Find(items, show.id).value.valorEntradaFuncion
                else show.valorEntradaFuncion.GetOr(0))
  {
    var q := quantity.GetOr(DEFAULT_QUANTITY);
    var r := WithAdded(items, show, quantity);
    if Find(items, show.id).Some? {
      var p := Find(items, show.id).value.valorEntradaFuncion;
      assert r == Incremented(items, show.id, q);
      IncrementedTotals(items, show.id, q);
      assert TotalPrice(r) == TotalPrice(items) + q * p;
    } else {
      var line := NewLine(show, q);
      var p := show.valorEntradaFuncion.GetOr(0);
      assert r == items + [line];
      AppendTotals(items, line);
      assert line.valorEntradaFuncion * q == q * p;
      assert TotalPrice(r) == TotalPrice(items) + q * p;
    }
  }

  lemma {:induction false} AppendTotals(items: seq<CartItem>, line: CartItem)
    ensures TotalItems(items + [line]) == TotalItems(items) + line.quantity
    ensures TotalPrice(items + [line]) == TotalPrice(items) + line.valorEntradaFuncion * line.quantity
  {
    if items != [] {
      assert (items + [line])[1..] == items[1..] + [line];
      AppendTotals(items[1..], line);
    }
  }

  /** Removing a show takes its line's tickets and their price out of the totals. */
  lemma {:induction false} WithoutTotals(items: seq<CartItem>, id: int)
    requires UniqueIds(items)
    ensures HasId(items, id) ==>
      && TotalItems(Without(items, id)) == TotalItems(items) - Find(items, id).value.quantity
      && TotalPrice(Without(items, id)) == TotalPrice(items)
           - Find(items, id).value.valorEntradaFuncion * Find(items, id).value.quantity
  {
    if items != [] {
      UniqueTail(items);
      WithoutTotals(items[1..], id);
      if items[0].id != id {
        assert [items[0]] + Without(items[1..], id) == Without(items, id);
        assert HasId(items, id) ==> HasId(items[1..], id) by {
          if HasId(items, id) {
            var i :| 0 <= i < |items| && items[i].id == id;
            assert items[1..][i - 1].id == id;
          }
        }
      }
    }
  }

  /** Adding a show and then removing it is the same as only removing it. */
  lemma AddThenRemove(items: seq<CartItem>, show: TheatreFunction, quantity: Option<int>)
    ensures Without(WithAdded(items, show, quantity), show.id) == Without(items, show.id)
  {
    var q := quantity.GetOr(DEFAULT_QUANTITY);
    if HasId(items, show.id) {
      WithoutIgnoresQuantities(items, Incremented(items, show.id, q), show.id);
    } else {
      WithoutAppend(items, NewLine(show, q), show.id);
    }
  }

  /** `Without` only looks at the lines of other shows, which `Incremented` does not touch. */
  lemma {:induction false} WithoutIgnoresQuantities(items: seq<CartItem>, changed: seq<CartItem>, id: int)
    requires |changed| == |items|
    requires forall i :: 0 <= i < |items| ==> changed[i].id == items[i].id
    requires forall i :: 0 <= i < |items| && items[i].id != id ==> changed[i] == items[i]
    ensures Without(changed, id) == Without(items, id)
  {
    if items != [] {
      WithoutIgnoresQuantities(items[1..], changed[1..], id);
    }
  }

  lemma {:induction false} WithoutAppend(items: seq<CartItem>, line: CartItem, id: int)
    requires line.id == id
    ensures Without(items + [line], id) == Without(items, id)
  {
    if items == [] {
      assert Without([line], id) == Without([], id);
    } else {
      assert (items + [line])[1..] == items[1..] + [line];
      WithoutAppend(items[1..], line, id);
    }
  }

  /** Setting a quantity twice is the same as setting it once. */
  lemma UpdateIdempotent(items: seq<CartItem>, id: int, quantity: int)
    ensures UpdatedQuantity(UpdatedQuantity(items, id, quantity), id, quantity)
      == UpdatedQuantity(items, id, quantity)
  {
    var once := UpdatedQuantity(items, id, quantity);
    if quantity <= 0 {
      assert !HasId(once, id);
    }
  }

  /** With positive quantities the cart holds at least one ticket per line. */
  lemma {:induction false} TicketsAtLeastLines(items: seq<CartItem>)
    requires PositiveQuantities(items)
    ensures TotalItems(items) >= |items|
    ensures TotalItems(items) == |items| <==> forall i :: 0 <= i < |items| ==> items[i].quantity == 1
  {
    if items != [] {
      TicketsAtLeastLines(items[1..]);
      assert forall i :: 1 <= i < |items| ==> items[i] == items[1..][i - 1];
    }
  }

  /**
   * The provider's state. Each operation replaces `items` with a list computed
   * from the old one, as the source does with `setItems(prev => ...)`.
   */
  class CartStore {
    var items: seq<CartItem>

    ghost predicate Valid()
      reads this
    {
      UniqueIds(items)
    }

    /** The provider starts with an empty cart. */
    constructor ()
      ensures Valid() && items == []
    {
      items := [];
    }

    method AddItem(show: TheatreFunction, quantity: Option<int>)
      requires Valid()
      modifies this
      ensures Valid()
      ensures items == WithAdded(old(items), show, quantity)
    {
      AddKeepsWellFormed(items, show, quantity);
      var existing := Find(items, show.id);
      var q := quantity.GetOr(DEFAULT_QUANTITY);
      if existing.Some? {
        items := Incremented(items, show.id, q);
      } else {
        items := items + [NewLine(show, q)];
      }
    }

    method RemoveItem(id: int)
      requires Valid()
      modifies this
      ensures Valid()
      ensures items == Without(old(items), id)
    {
      RemoveKeepsUnique(items, id);
      items := Without(items, id);
    }

    /** A non-positive quantity removes the line; otherwise only the line's quantity changes. */
    method UpdateQuantity(id: int, quantity: int)
      requires Valid()
      modifies this
      ensures Valid()
      ensures items == UpdatedQuantity(old(items), id, quantity)
    {
      if quantity <= 0 {
        RemoveItem(id);
        return;
      }
      items := WithQuantity(items, id, quantity);
    }

    method ClearCart()
      modifies this
      ensures Valid() && items == []
      ensures TotalItems(items) == 0 && TotalPrice(items) == 0
    {
      items := [];
    }
  }

  /** Removing a show keeps ids unique whatever the quantities. */
  lemma {:induction false} RemoveKeepsUnique(items: seq<CartItem>, id: int)
    requires UniqueIds(items)
    ensures UniqueIds(Without(items, id))
  {
    if items != [] {
      UniqueTail(items);
      RemoveKeepsUnique(items[1..], id);
      var rest := Without(items[1..], id);
      if items[0].id != id {
        var r := [items[0]] + rest;
        forall j | 0 < j < |r| ensures r[0].id != r[j].id {
          assert rest[j - 1] in rest;
        }
      }
    }
  }
}
