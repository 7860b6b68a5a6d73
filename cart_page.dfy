/**
 * The cart page's handlers: the quantity guard in front of `updateQuantity`, the remove
 * button, the checkout button, and the choice of the empty-cart view.
 */
module CartPage {
  import opened Wrappers
  import CartSlice

  /** What a handler sends to the cart store. */
  datatype CartAction = UpdateQuantity(id: Option<string>, quantity: int) | RemoveFromCart(id: Option<string>)

  /** `handleQuantityChange`: a quantity below 1 sends nothing. */
  function QuantityChange(id: Option<string>, quantity: int): (a: Option<CartAction>)
    ensures a.None? <==> quantity < 1
    ensures a.Some? ==> a.value == UpdateQuantity(id, quantity)
  {
    if quantity < 1 then None else Some(UpdateQuantity(id, quantity))
  }

  /** The minus button of a line. */
  function MinusPressed(item: CartSlice.CartItem): (a: Option<CartAction>)
    ensures a.Some? ==> a.value.UpdateQuantity? && a.value.id == item.id && 1 <= a.value.quantity < item.quantity
  {
    QuantityChange(item.id, item.quantity - 1)
  }

  /** The plus button of a line. */
  function PlusPressed(item: CartSlice.CartItem): (a: Option<CartAction>)
    ensures a.Some? ==> a.value.UpdateQuantity? && a.value.id == item.id && a.value.quantity > item.quantity
    ensures item.quantity >= 0 ==> a.Some?
  {
    QuantityChange(item.id, item.quantity + 1)
  }

  /** Minus on a line holding one item does nothing; on a larger line it asks for one less. */
  lemma MinusEffect(item: CartSlice.CartItem)
    ensures item.quantity <= 1 ==> MinusPressed(item) == None
    ensures item.quantity > 1 ==> MinusPressed(item) == Some(UpdateQuantity(item.id, item.quantity - 1))
  {
  }

  /** Plus on any line the store can hold asks for one more. */
  lemma PlusEffect(item: CartSlice.CartItem)
    requires item.quantity >= 1
    ensures PlusPressed(item) == Some(UpdateQuantity(item.id, item.quantity + 1))
  {
  }

  /** `handleRemoveItem`: remove by exactly that line's id. */
  function RemoveItem(item: CartSlice.CartItem): (a: CartAction)
    ensures a.RemoveFromCart? && a.id == item.id
  {
    RemoveFromCart(item.id)
  }

  /** The lines after the store handles an action. */
  function Apply(items: seq<CartSlice.CartItem>, a: CartAction): seq<CartSlice.CartItem> {
    match a
    case UpdateQuantity(id, q) => CartSlice.SetQuantity(items, id, q)
    case RemoveFromCart(id) => CartSlice.RemoveId(items, id)
  }

  /** Behind the guard, the page never drives a quantity below 1: whatever the buttons send
      keeps every line positive. */
  lemma GuardKeepsQuantitiesPositive(items: seq<CartSlice.CartItem>, id: Option<string>, quantity: int)
    requires CartSlice.PositiveQuantities(items)
    ensures var a := QuantityChange(id, quantity);
      a.Some? ==> CartSlice.PositiveQuantities(Apply(items, a.value))
  {
    if quantity >= 1 {
      CartSlice.SetQuantityKeepsQuantitiesPositive(items, id, quantity);
    }
  }

  /** Removing a line keeps every remaining line positive. */
  lemma RemoveKeepsQuantitiesPositive(items: seq<CartSlice.CartItem>, item: CartSlice.CartItem)
    requires CartSlice.PositiveQuantities(items)
    ensures CartSlice.PositiveQuantities(Apply(items, RemoveItem(item)))
  {
    var r := Apply(items, RemoveItem(item));
    CartSlice.RemoveIdEffect(items, item.id);
    forall k | 0 <= k < |r| ensures r[k].quantity >= 1 {
      assert r[k] in r;
      var j :| 0 <= j < |items| && items[j] == r[k];
    }
  }

  /** `handleCheckout`: where the page goes. */
  function CheckoutTarget(isAuthenticated: bool): (target: string)
    ensures target == "/login" <==> !isAuthenticated
    ensures target == "/checkout" <==> isAuthenticated
  {
    if !isAuthenticated then "/login" else "/checkout"
  }

  /** The empty-cart view is shown exactly when there are no lines. */
  predicate ShowsEmptyCart(items: seq<CartSlice.CartItem>) {
    |items| == 0
  }
}
