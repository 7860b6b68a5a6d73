/**
 * The cart store: an ordered list of line items keyed by `id`, with the derived `total` and
 * `itemCount` recomputed after every change, and the whole cart persisted under the key
 * 'cart' (here the ghost field `stored`).
 */
module CartSlice {
  import opened Wrappers
  import Lists

  /** What `addToCart` receives. `id` is compared with `===`, so two products that both
      lack an `id` are the same line. */
  datatype CartProduct = CartProduct(
    id: Option<string>, name: Option<string>, price: int,
    image: Option<string>, category: Option<string>)

  /** A line of the cart: the product's fields plus `quantity`. */
  datatype CartItem = CartItem(
    id: Option<string>, name: Option<string>, price: int,
    image: Option<string>, category: Option<string>, quantity: int)

  /** The record kept in storage: the whole cart state. */
  datatype CartSnapshot = CartSnapshot(items: seq<CartItem>, total: int, itemCount: int)

  /** `{...product, quantity: 1}`. */
  function NewLine(p: CartProduct): CartItem {
    CartItem(p.id, p.name, p.price, p.image, p.category, 1)
  }

  /** Sum of the quantities (the `itemCount` reduce). */
  function QuantitySum(items: seq<CartItem>): (count: int)
    ensures PositiveQuantities(items) ==> count >= |items|
  {
    if items == [] then 0 else QuantitySum(items[..|items| - 1]) + items[|items| - 1].quantity
  }

  /** Sum of quantity × price (the `total` reduce). */
  function PriceSum(items: seq<CartItem>): (total: int)
    ensures (forall k :: 0 <= k < |items| ==> items[k].quantity >= 0 && items[k].price >= 0) ==> total >= 0
  {
    if items == [] then 0
    else PriceSum(items[..|items| - 1]) + items[|items| - 1].quantity * items[|items| - 1].price
  }

  /** `items.find(item => item.id === id)`, as an index: the first line with that id, or -1. */
  function IndexOf(items: seq<CartItem>, id: Option<string>): int {
    Lists.FindIndex(items, (x: CartItem) => x.id == id)
  }

  /** The line list after `addToCart(p)`. */
  function AddItem(items: seq<CartItem>, p: CartProduct): (r: seq<CartItem>)
    ensures |r| == |items| || |r| == |items| + 1
    ensures forall k :: 0 <= k < |items| ==> r[k].id == items[k].id && r[k].price == items[k].price
    ensures exists k :: 0 <= k < |r| && r[k].id == p.id
  {
    var i := IndexOf(items, p.id);
    if i >= 0 then items[i := items[i].(quantity := items[i].quantity + 1)]
    else
      var r := items + [NewLine(p)];
      assert r[|items|].id == p.id;
      r
  }

  /** The line list after `updateQuantity({id, quantity})`. */
  function SetQuantity(items: seq<CartItem>, id: Option<string>, quantity: int): (r: seq<CartItem>)
    ensures |r| == |items|
    ensures forall k :: 0 <= k < |r| ==> r[k] == items[k] || (r[k].id == id && r[k] == items[k].(quantity := quantity))
  {
    var i := IndexOf(items, id);
    if i >= 0 then items[i := items[i].(quantity := quantity)] else items
  }

  /** The line list after `removeFromCart(id)`: `items.filter(item => item.id !== id)`. */
  function RemoveId(items: seq<CartItem>, id: Option<string>): (r: seq<CartItem>)
    ensures |r| <= |items|
    ensures forall x :: x in r <==> x in items && x.id != id
  {
    Lists.Filter(items, (x: CartItem) => x.id != id)
  }

  /** No two lines share an id. */
  predicate UniqueIds(items: seq<CartItem>) {
    forall j, k :: 0 <= j < k < |items| ==> items[j].id != items[k].id
  }

  /** Every line has a positive quantity. */
  predicate PositiveQuantities(items: seq<CartItem>) {
    forall k :: 0 <= k < |items| ==> items[k].quantity >= 1
  }

  // ---------------------------------------------------------------- sums

  lemma {:induction false} SumsOfConcat(a: seq<CartItem>, b: seq<CartItem>)
    ensures QuantitySum(a + b) == QuantitySum(a) + QuantitySum(b)
    ensures PriceSum(a + b) == PriceSum(a) + PriceSum(b)
  {
    if b != [] {
      var b' := b[..|b| - 1];
      assert (a + b)[..|a + b| - 1] == a + b';
      SumsOfConcat(a, b');
    } else {
      assert a + b == a;
    }
  }

  lemma SumsOfSingle(x: CartItem)
    ensures QuantitySum([x]) == x.quantity && PriceSum([x]) == x.quantity * x.price
  {
    assert [x][..0] == [];
  }

  /** Changing one line changes the sums by that line's difference. */
  lemma SumsOfUpdate(items: seq<CartItem>, i: nat, x: CartItem)
    requires i < |items|
    ensures QuantitySum(items[i := x]) == QuantitySum(items) - items[i].quantity + x.quantity
    ensures PriceSum(items[i := x]) ==
            PriceSum(items) - items[i].quantity * items[i].price + x.quantity * x.price
  {
    var pre, post := items[..i], items[i + 1..];
    assert items == pre + [items[i]] + post;
    assert items[i := x] == pre + [x] + post;
    SumsOfConcat(pre + [items[i]], post);
    SumsOfConcat(pre, [items[i]]);
    SumsOfConcat(pre + [x], post);
    SumsOfConcat(pre, [x]);
    SumsOfSingle(x);
    SumsOfSingle(items[i]);
  }

  // ---------------------------------------------------------------- addToCart

  /** With a line for the product's id, adding gives that line one more unit and keeps the
      line count and every other line. */
  lemma AddItemToExistingLine(items: seq<CartItem>, p: CartProduct)
    requires IndexOf(items, p.id) >= 0
    ensures var r, i := AddItem(items, p), IndexOf(items, p.id);
      && |r| == |items| && r[i] == items[i].(quantity := items[i].quantity + 1)
      && forall k :: 0 <= k < |items| && k != i ==> r[k] == items[k]
  {
  }

  /** Without a line for the product's id, adding appends `{...product, quantity: 1}`. */
  lemma AddItemAppendsNewLine(items: seq<CartItem>, p: CartProduct)
    requires forall k :: 0 <= k < |items| ==> items[k].id != p.id
    ensures AddItem(items, p) == items + [NewLine(p)]
  {
  }

  /** Adding raises `itemCount` by one and `total` by the price of the line that grew: the
      stored line's price when there is one, not the payload's. */
  lemma AddItemSums(items: seq<CartItem>, p: CartProduct)
    ensures var r, i := AddItem(items, p), IndexOf(items, p.id);
      && QuantitySum(r) == QuantitySum(items) + 1
      && PriceSum(r) == PriceSum(items) + (if i >= 0 then items[i].price else p.price)
  {
    var i := IndexOf(items, p.id);
    if i >= 0 {
      SumsOfUpdate(items, i, items[i].(quantity := items[i].quantity + 1));
    } else {
      SumsOfConcat(items, [NewLine(p)]);
      SumsOfSingle(NewLine(p));
    }
  }

  /** Adding never creates a second line for an id already present. */
  lemma AddItemKeepsIdsUnique(items: seq<CartItem>, p: CartProduct)
    requires UniqueIds(items)
    ensures UniqueIds(AddItem(items, p))
  {
    var r := AddItem(items, p);
    if IndexOf(items, p.id) == -1 {
      forall j, k | 0 <= j < k < |r| ensures r[j].id != r[k].id {
        if k == |items| { assert r[j] == items[j]; }
      }
    }
  }

  /** Adding the same product twice to a cart without its id gives one line of quantity 2. */
  lemma AddTwiceGivesQuantityTwo(items: seq<CartItem>, p: CartProduct)
    requires IndexOf(items, p.id) == -1
    ensures var r := AddItem(AddItem(items, p), p);
      |r| == |items| + 1 && r[|items|] == NewLine(p).(quantity := 2) && r[..|items|] == items
  {
    var once := AddItem(items, p);
    assert once == items + [NewLine(p)];
    assert once[|items|].id == p.id;
    var i := IndexOf(once, p.id);
    assert i == |items| by {
      assert forall k :: 0 <= k < |items| ==> once[k] == items[k];
    }
  }

  lemma AddItemKeepsQuantitiesPositive(items: seq<CartItem>, p: CartProduct)
    requires PositiveQuantities(items)
    ensures PositiveQuantities(AddItem(items, p))
  {
  }

  // ---------------------------------------------------------------- updateQuantity

  /** The first line with the id gets exactly the given quantity, whatever its sign; the
      other lines are unchanged; without such a line nothing changes. */
  lemma SetQuantityEffect(items: seq<CartItem>, id: Option<string>, quantity: int)
    ensures var r, i := SetQuantity(items, id, quantity), IndexOf(items, id);
      && |r| == |items|
      && (i >= 0 ==> r[i] == items[i].(quantity := quantity)
                     && forall k :: 0 <= k < |items| && k != i ==> r[k] == items[k])
      && (i == -1 ==> r == items)
      && QuantitySum(r) == QuantitySum(items) + (if i >= 0 then quantity - items[i].quantity else 0)
  {
    var i := IndexOf(items, id);
    if i >= 0 {
      SumsOfUpdate(items, i, items[i].(quantity := quantity));
    }
  }

  /** A quantity of at least 1 keeps every quantity positive (the cart page's guard). */
  lemma SetQuantityKeepsQuantitiesPositive(items: seq<CartItem>, id: Option<string>, quantity: int)
    requires PositiveQuantities(items) && quantity >= 1
    ensures PositiveQuantities(SetQuantity(items, id, quantity))
  {
  }

  /** Without the guard a zero or negative quantity is stored as given. */
  lemma SetQuantityHasNoLowerBound(items: seq<CartItem>, id: Option<string>, quantity: int)
    requires IndexOf(items, id) >= 0 && quantity < 1
    ensures !PositiveQuantities(SetQuantity(items, id, quantity))
  {
    var i := IndexOf(items, id);
    assert SetQuantity(items, id, quantity)[i].quantity == quantity;
  }

  // ---------------------------------------------------------------- removeFromCart

  /** Every line with the id goes and every other line stays, in its order; an id no line
      has leaves the list as it is. */
  lemma RemoveIdEffect(items: seq<CartItem>, id: Option<string>)
    ensures forall x :: x in RemoveId(items, id) <==> x in items && x.id != id
    ensures Lists.IsSubsequence(RemoveId(items, id), items)
    ensures IndexOf(items, id) == -1 ==> RemoveId(items, id) == items
  {
    Lists.FilterIsSubsequence(items, (x: CartItem) => x.id != id);
    if IndexOf(items, id) == -1 {
      Lists.FilterKeepingAll(items, (x: CartItem) => x.id != id);
    }
  }

  // ---------------------------------------------------------------- the store

  /** The cart state with its persisted copy. */
  class CartStore {
    var items: seq<CartItem>
    var total: int
    var itemCount: int
    /** What storage holds under 'cart'; `None` once the record is removed. */
    ghost var stored: Option<CartSnapshot>

    /** The derived fields agree with the lines. */
    ghost predicate TotalsAgree()
      reads this
    {
      itemCount == QuantitySum(items) && total == PriceSum(items)
    }

    function Snapshot(): CartSnapshot
      reads this
    {
      CartSnapshot(items, total, itemCount)
    }

    /** The initial state: the stored cart if storage holds one, else the empty cart. */
    constructor (saved: Option<CartSnapshot>)
      ensures saved.Some? ==> Snapshot() == saved.value
      ensures saved.None? ==> items == [] && total == 0 && itemCount == 0 && TotalsAgree()
      ensures stored == saved
    {
      stored := saved;
      match saved
      case Some(s) =>
        items, total, itemCount := s.items, s.total, s.itemCount;
      case None =>
        items, total, itemCount := [], 0, 0;
    }

    /** `calculateTotals`: recompute both derived fields from the lines. */
    method CalculateTotals()
      modifies this
      ensures items == old(items) && stored == old(stored)
      ensures TotalsAgree()
    {
      itemCount, total := Totals(items);
    }

    /** `addToCart`. */
    method AddToCart(p: CartProduct)
      modifies this
      ensures items == AddItem(old(items), p)
      ensures TotalsAgree() && stored == Some(Snapshot())
    {
      var i := FindIndex(items, p.id);
      if i >= 0 {
        items := items[i := items[i].(quantity := items[i].quantity + 1)];
      } else {
        items := items + [NewLine(p)];
      }
      CalculateTotals();
      stored := Some(Snapshot());
    }

    /** `updateQuantity({id, quantity})`: no bound on `quantity`. */
    method UpdateQuantity(id: Option<string>, quantity: int)
      modifies this
      ensures items == SetQuantity(old(items), id, quantity)
      ensures TotalsAgree() && stored == Some(Snapshot())
    {
      var i := FindIndex(items, id);
      if i >= 0 {
        items := items[i := items[i].(quantity := quantity)];
      }
      CalculateTotals();
      stored := Some(Snapshot());
    }

    /** `removeFromCart(id)`; `removeFromCart()` with no argument is `id == None`. */
    method RemoveFromCart(id: Option<string>)
      modifies this
      ensures items == RemoveId(old(items), id)
      ensures TotalsAgree() && stored == Some(Snapshot())
    {
      var lines, kept: seq<CartItem> := items, [];
      var k := 0;
      while k < |lines|
        invariant 0 <= k <= |lines|
        invariant kept == RemoveId(lines[..k], id)
      {
        Lists.FilterAppend(lines[..k], lines[k], (x: CartItem) => x.id != id);
        assert lines[..k + 1] == lines[..k] + [lines[k]];
        if lines[k].id != id {
          kept := kept + [lines[k]];
        }
        k := k + 1;
      }
      assert lines[..k] == lines;
      items := kept;
      CalculateTotals();
      stored := Some(Snapshot());
    }

    /** `clearCart`: the empty cart, and the stored record is deleted rather than overwritten. */
    method ClearCart()
      modifies this
      ensures items == [] && total == 0 && itemCount == 0
      ensures TotalsAgree() && stored == None
    {
      items, total, itemCount := [], 0, 0;
      stored := None;
    }
  }

  /** The `find` over the lines: index of the first line with the id, or -1. */
  method FindIndex(items: seq<CartItem>, id: Option<string>) returns (i: int)
    ensures i == IndexOf(items, id)
  {
    var k := 0;
    while k < |items|
      invariant 0 <= k <= |items|
      invariant forall j :: 0 <= j < k ==> items[j].id != id
    {
      if items[k].id == id {
        return k;
      }
      k := k + 1;
    }
    return -1;
  }

  /** The two reduces of `calculateTotals`, left to right. */
  method Totals(items: seq<CartItem>) returns (count: int, total: int)
    ensures count == QuantitySum(items) && total == PriceSum(items)
  {
    count, total := 0, 0;
    var k := 0;
    while k < |items|
      invariant 0 <= k <= |items|
      invariant count == QuantitySum(items[..k]) && total == PriceSum(items[..k])
    {
      assert items[..k + 1][..k] == items[..k];
      count := count + items[k].quantity;
      total := total + items[k].quantity * items[k].price;
      k := k + 1;
    }
    assert items[..k] == items;
  }
}
