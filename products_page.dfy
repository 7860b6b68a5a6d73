/**
 * The catalogue page: the checkbox lists for product and skin types, the price slider with
 * its fixed floor, the cart line built from a product card, and the filter dispatches the page
 * makes when its selections change.
 */
module ProductsPage {
  import opened Wrappers
  import Lists
  import ProductSlice
  import CartSlice

  const PageProductTypes: seq<string> := ["Japanese", "Korean", "Ayurvedic", "Natural"]
  const PageSkinTypes: seq<string> := ["Oily", "Dry", "Sensitive", "Combination", "Normal"]

  /** The page offers exactly the vocabularies the store's updaters replace. */
  lemma VocabulariesAgree()
    ensures PageProductTypes == ProductSlice.ProductTypes && PageSkinTypes == ProductSlice.SkinTypes
  {
  }

  function Other(value: string): string -> bool {
    (x: string) => x != value
  }

  /** `toggleCheckbox`: a present value is removed everywhere, an absent one goes at the end. */
  function Toggle(value: string, list: seq<string>): (r: seq<string>)
    ensures value in r <==> value !in list
    ensures forall x :: x != value ==> (x in r <==> x in list)
    ensures value !in list ==> r == list + [value]
  {
    if value in list then Lists.Filter(list, Other(value)) else list + [value]
  }

  /** A toggle flips the value's membership and no other. */
  lemma ToggleFlipsMembership(value: string, list: seq<string>)
    ensures value in Toggle(value, list) <==> value !in list
    ensures forall x :: x != value ==> (x in Toggle(value, list) <==> x in list)
  {
  }

  /** A toggle keeps every other element, in its order. */
  lemma ToggleKeepsOthers(value: string, list: seq<string>)
    ensures Lists.Filter(Toggle(value, list), Other(value)) == Lists.Filter(list, Other(value))
  {
    if value in list {
      Lists.FilterTwice(list, Other(value));
    } else {
      Lists.FilterAppend(list, value, Other(value));
    }
  }

  /** On a list without the value, toggling twice gives the list back. */
  lemma ToggleTwice(value: string, list: seq<string>)
    requires value !in list
    ensures Toggle(value, Toggle(value, list)) == list
  {
    assert value in list + [value];
    Lists.FilterAppend(list, value, Other(value));
    forall k | 0 <= k < |list| ensures Other(value)(list[k]) {
      assert list[k] in list;
    }
    Lists.FilterKeepingAll(list, Other(value));
  }

  /** `handleAddToCart`: the cart fields taken from the product card, with no quantity. A
      `null` price is recorded as the 0 that `quantity * price` makes of it. */
  function CartProductFor(p: ProductSlice.Product): (c: CartSlice.CartProduct)
    requires !p.price.Undefined?
    ensures c.id == p.productId && c.name == p.name && Some(c.price) == ProductSlice.ToNumber(p.price)
    ensures p.price.Null? ==> c.price == 0
    ensures c.image == p.imageUrl && c.category == p.category
  {
    CartSlice.CartProduct(p.productId, p.name, ProductSlice.ToNumber(p.price).value, p.imageUrl, p.category)
  }

  /** Adding two cards with the same `product_id` gives one line of quantity 2. */
  lemma SameCardTwiceIsOneLine(p: ProductSlice.Product)
    requires !p.price.Undefined?
    ensures var once := CartSlice.AddItem([], CartProductFor(p));
      var twice := CartSlice.AddItem(once, CartProductFor(p));
      |twice| == 1 && twice[0].quantity == 2 && twice[0].id == p.productId
  {
    CartSlice.AddTwiceGivesQuantityTwo([], CartProductFor(p));
  }

  const FixedMinValue := 500
  const InitialPriceRange: (int, int) := (500, 5000)

  /** The slider's change handler: the floor stays 500, only the ceiling moves. */
  function SliderRange(newMax: int): (r: (int, int))
    ensures r.0 == FixedMinValue && r.1 == newMax
  {
    (FixedMinValue, newMax)
  }

  /** The payload of the unified filter effect. `productTypes` and `skinTypes` are passed but are
      not keys `setFilters` reads, so they do not reach the store. */
  function UnifiedPatch(range: (int, int), term: string, productTypes: seq<string>, skinTypes: seq<string>): (p: ProductSlice.FilterPatch)
    ensures p.priceRange == Some(range) && p.searchTerm == Some(term)
    ensures p.tags == None && p.category == None && p.rating == None
    ensures p.sortBy == None && p.inStockOnly == None
  {
    ProductSlice.FilterPatch(None, Some(range), Some(term), None, None, None, None)
  }

  /** The type selections make no difference to the unified payload. */
  lemma UnifiedPatchIgnoresSelections(range: (int, int), term: string, pt1: seq<string>, st1: seq<string>, pt2: seq<string>, st2: seq<string>)
    ensures UnifiedPatch(range, term, pt1, st1) == UnifiedPatch(range, term, pt2, st2)
  {
  }

  /** The payload of the price effect. */
  function PricePatch(range: (int, int)): (p: ProductSlice.FilterPatch)
    ensures p.priceRange == Some(range)
    ensures p.searchTerm == None && p.tags == None && p.category == None && p.rating == None
    ensures p.sortBy == None && p.inStockOnly == None
  {
    ProductSlice.FilterPatch(None, Some(range), None, None, None, None, None)
  }

  /** The page's filter dispatches run in the order they are declared: the unified `setFilters`,
      `searchProducts`, `filterByProductType`, `filterBySkinType`, then the price `setFilters`.
      When none of them throws, the store ends with the page's range and term and with the
      type selections merged into its tags. */
  method RunFilterEffects(store: ProductSlice.ProductStore, term: string, productTypes: seq<string>,
                          skinTypes: seq<string>, range: (int, int)) returns (ok: bool)
    modifies store
    ensures store.products == old(store.products)
    ensures ok ==> store.filters == old(store.filters).(
      priceRange := range, searchTerm := term,
      tags := ProductSlice.SkinTypeTags(ProductSlice.ProductTypeTags(old(store.filters).tags, productTypes), skinTypes))
    ensures ok ==> ProductSlice.FilterProducts(store.products, store.filters) == Some(store.filteredProducts)
  {
    var a := store.SetFilters(UnifiedPatch(range, term, productTypes, skinTypes));
    var b := store.SearchProducts(term);
    var c := store.FilterByProductType(productTypes);
    var d := store.FilterBySkinType(skinTypes);
    var e := store.SetFilters(PricePatch(range));
    ok := a && b && c && d && e;
  }

  /** After the dispatches, the store's tags hold exactly the selected product types and skin
      types, each in the order chosen. */
  lemma EffectsSelectTags(tags: seq<string>, productTypes: seq<string>, skinTypes: seq<string>)
    requires ProductSlice.AllIn(productTypes, ProductSlice.ProductTypes)
    requires ProductSlice.AllIn(skinTypes, ProductSlice.SkinTypes)
    ensures var merged := ProductSlice.SkinTypeTags(ProductSlice.ProductTypeTags(tags, productTypes), skinTypes);
      && ProductSlice.Within(merged, ProductSlice.ProductTypes) == productTypes
      && ProductSlice.Within(merged, ProductSlice.SkinTypes) == skinTypes
  {
    ProductSlice.ProductTypeTagsEffect(tags, productTypes);
    ProductSlice.SkinTypeTagsEffect(ProductSlice.ProductTypeTags(tags, productTypes), skinTypes);
  }
}
