/**
 * The cart page: the checkout handler that turns the cart into purchase
 * records, and the quantity buttons beside each line.
 */
module CartPage {
  import opened Wrappers
  import opened Sums
  import opened CartTypes
  import opened CartContext

  /** Where checkout sends a visitor who is not signed in. */
  const LOGIN_REDIRECT := "/login?redirect=/carrito"
  /** Where checkout sends the buyer after a successful insert. */
  const SUCCESS_REDIRECT := "/historial?success=true"
  /** The error shown when the backend's error carries no message. */
  const DEFAULT_ERROR := "Error al procesar la compra"

  /** The purchase record built for one cart line. */
  function PurchaseRecord(item: CartItem, userId: string): (r: PurchaseInsert)
    ensures r.userId == userId && r.functionId == item.id && r.quantity == item.quantity
    ensures r.status == COMPLETED
    ensures r.totalPrice == item.valorEntradaFuncion * item.quantity
    ensures item.valorEntradaFuncion >= 0 && item.quantity >= 0 ==> r.totalPrice >= 0
  {
    PurchaseInsert(userId, item.id, item.quantity, item.valorEntradaFuncion * item.quantity, COMPLETED)
  }

  /** The records checkout inserts: one per cart line, in cart order. */
  function PurchaseRecords(items: seq<CartItem>, userId: string): (r: seq<PurchaseInsert>)
    ensures |r| == |items|
    ensures forall i :: 0 <= i < |items| ==>
      && r[i].userId == userId && r[i].functionId == items[i].id
      && r[i].quantity == items[i].quantity && r[i].status == COMPLETED
      && r[i].totalPrice == items[i].valorEntradaFuncion * items[i].quantity
  {
    if items == [] then [] else [PurchaseRecord(items[0], userId)] + PurchaseRecords(items[1..], userId)
  }

  /** The `total_price` column of a list of records. */
  function PriceColumn(records: seq<PurchaseInsert>): (r: seq<int>)
    ensures |r| == |records|
    ensures forall i :: 0 <= i < |records| ==> r[i] == records[i].totalPrice
  {
    if records == [] then [] else [records[0].totalPrice] + PriceColumn(records[1..])
  }

  /** The `quantity` column of a list of records. */
  function QuantityColumn(records: seq<PurchaseInsert>): (r: seq<int>)
    ensures |r| == |records|
    ensures forall i :: 0 <= i < |records| ==> r[i] == records[i].quantity
  {
    if records == [] then [] else [records[0].quantity] + QuantityColumn(records[1..])
  }

  /** The records' prices add up to the cart total shown on the page. */
  lemma {:induction false} RecordsSumToCartTotal(items: seq<CartItem>, userId: string)
    ensures Sum(PriceColumn(PurchaseRecords(items, userId))) == TotalPrice(items)
  {
    if items != [] {
      var records := PurchaseRecords(items, userId);
      assert records[1..] == PurchaseRecords(items[1..], userId);
      assert PriceColumn(records)[1..] == PriceColumn(records[1..]);
      RecordsSumToCartTotal(items[1..], userId);
    }
  }

  /** The records carry every ticket of the cart: the summary's item count. */
  lemma {:induction false} RecordsCarryAllTickets(items: seq<CartItem>, userId: string)
    ensures Sum(QuantityColumn(PurchaseRecords(items, userId))) == TotalItems(items)
  {
    if items != [] {
      var records := PurchaseRecords(items, userId);
      assert records[1..] == PurchaseRecords(items[1..], userId);
      assert QuantityColumn(records)[1..] == QuantityColumn(records[1..]);
      RecordsCarryAllTickets(items[1..], userId);
    }
  }

  /** `err.message || 'Error al procesar la compra'`. */
  function ErrorMessage(message: string): (r: string)
    ensures r != []
    ensures message != [] ==> r == message
    ensures message == [] ==> r == DEFAULT_ERROR
  {
    if message != [] then message else DEFAULT_ERROR
  }

  /** In a well-formed cart, the only line of a show is the one at its index. */
  lemma OnlyLineOfItsShow(items: seq<CartItem>, k: nat)
    requires UniqueIds(items) && k < |items|
    ensures forall i :: 0 <= i < |items| && items[i].id == items[k].id ==> i == k
  {
  }

  /**
   * The "−" button, `updateQuantity(id, quantity - 1)`, takes exactly one
   * ticket away and keeps the cart well formed; on a line with one ticket
   * it removes the line.
   */
  lemma DecrementRemovesOneTicket(items: seq<CartItem>, k: nat)
    requires WellFormed(items) && k < |items|
    ensures var r := UpdatedQuantity(items, items[k].id, items[k].quantity - 1);
      && WellFormed(r)
      && TotalItems(r) == TotalItems(items) - 1
      && (items[k].quantity == 1 ==> !HasId(r, items[k].id))
  {
    var id, q := items[k].id, items[k].quantity;
    UpdateKeepsWellFormed(items, id, q - 1);
    assert Find(items, id).value == items[k] by { OnlyLineOfItsShow(items, k); }
    if q == 1 {
      WithoutTotals(items, id);
    } else {
      OnlyLineOfItsShow(items, k);
      assert WithQuantity(items, id, q - 1) == Incremented(items, id, -1);
      IncrementedTotals(items, id, -1);
    }
  }

  /** The "+" button, `updateQuantity(id, quantity + 1)`, adds exactly one ticket. */
  lemma IncrementAddsOneTicket(items: seq<CartItem>, k: nat)
    requires WellFormed(items) && k < |items|
    ensures var r := UpdatedQuantity(items, items[k].id, items[k].quantity + 1);
      && WellFormed(r)
      && TotalItems(r) == TotalItems(items) + 1
      && TotalPrice(r) == TotalPrice(items) + items[k].valorEntradaFuncion
  {
    var id, q := items[k].id, items[k].quantity;
    UpdateKeepsWellFormed(items, id, q + 1);
    OnlyLineOfItsShow(items, k);
    var r := UpdatedQuantity(items, id, q + 1);
    assert r == WithQuantity(items, id, q + 1);
    assert r == Incremented(items, id, 1);
    assert Find(items, id).value == items[k];
    IncrementedTotals(items, id, 1);
    assert 1 * items[k].valorEntradaFuncion == items[k].valorEntradaFuncion;
  }

  /**
   * The page's state around the cart: the `loading` and `error` flags, the
   * routes pushed to the router and the batches sent to the `purchases`
   * table's insert, each oldest first.
   */
  class CheckoutPage {
    const cart: CartStore
    var loading: bool
    var error: Option<string>
    var routes: seq<string>
    var inserts: seq<seq<PurchaseInsert>>

    ghost predicate Valid()
      reads this, cart
    {
      cart.Valid()
    }

    constructor (cart: CartStore)
      ensures this.cart == cart
      ensures !loading && error == None && routes == [] && inserts == []
    {
      this.cart := cart;
      loading := false;
      error := None;
      routes := [];
      inserts := [];
    }

    /** The synchronous start of `handleCheckout`: the page shows it is busy and drops any old error. */
    method BeginCheckout()
      modifies this
      ensures loading && error == None
      ensures routes == old(routes) && inserts == old(inserts)
    {
      loading := true;
      error := None;
    }

    /**
     * The rest of `handleCheckout`, once the backend has answered: `user` is
     * the signed-in user's id, if any, and `insertError` the message of the
     * insert's error, if it failed.
     */
    method FinishCheckout(user: Option<string>, insertError: Option<string>)
      requires Valid()
      modifies this, cart
      ensures Valid() && !loading
      ensures user.None? ==>
        && routes == old(routes) + [LOGIN_REDIRECT] && inserts == old(inserts)
        && cart.items == old(cart.items) && error == old(error)
      ensures user.Some? ==> inserts == old(inserts) + [PurchaseRecords(old(cart.items), user.value)]
      ensures user.Some? && insertError.Some? ==>
        && error == Some(ErrorMessage(insertError.value))
        && cart.items == old(cart.items) && routes == old(routes)
      ensures user.Some? && insertError.None? ==>
        && cart.items == [] && routes == old(routes) + [SUCCESS_REDIRECT] && error == old(error)
    {
      if user.None? {
        routes := routes + [LOGIN_REDIRECT];
        loading := false;
        return;
      }
      var purchases := PurchaseRecords(cart.items, user.value);
      inserts := inserts + [purchases];
      if insertError.Some? {
        error := Some(ErrorMessage(insertError.value));
        loading := false;
        return;
      }
      cart.ClearCart();
      routes := routes + [SUCCESS_REDIRECT];
      loading := false;
    }

    /** `handleCheckout` as a whole. */
    method HandleCheckout(user: Option<string>, insertError: Option<string>)
      requires Valid()
      modifies this, cart
      ensures Valid() && !loading
      ensures user.None? ==>
        && routes == old(routes) + [LOGIN_REDIRECT] && inserts == old(inserts)
        && cart.items == old(cart.items) && error == None
      ensures user.Some? ==> inserts == old(inserts) + [PurchaseRecords(old(cart.items), user.value)]
      ensures user.Some? && insertError.Some? ==>
        && error == Some(ErrorMessage(insertError.value))
        && cart.items == old(cart.items) && routes == old(routes)
      ensures user.Some? && insertError.None? ==>
        && cart.items == [] && routes == old(routes) + [SUCCESS_REDIRECT] && error == None
    {
      BeginCheckout();
      FinishCheckout(user, insertError);
    }

    /** The "−" button of a line. */
    method DecreaseQuantity(item: CartItem)
      requires Valid()
      modifies cart
      ensures Valid()
      ensures cart.items == UpdatedQuantity(old(cart.items), item.id, item.quantity - 1)
      ensures item.quantity <= 1 ==> !HasId(cart.items, item.id)
    {
      cart.UpdateQuantity(item.id, item.quantity - 1);
    }

    /** The "+" button of a line. */
    method IncreaseQuantity(item: CartItem)
      requires Valid()
      modifies cart
      ensures Valid()
      ensures cart.items == UpdatedQuantity(old(cart.items), item.id, item.quantity + 1)
    {
      cart.UpdateQuantity(item.id, item.quantity + 1);
    }
  }
}
